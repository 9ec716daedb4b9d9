/**
 The records the exporter reads from the mihomo management API, and the two
 small wrappers the model uses for "a value or nothing" and "a fetch that
 either succeeded or failed".

 Only the fields the collector reads are kept; the others (network, ports,
 DNS mode, process path, start time, rule, selector metadata) are carried by
 the API but never inspected by the collector.
 */
module Types {

  datatype Option<+T> = None | Some(value: T)

  /** The outcome of one call to the upstream API: a decoded value or an error. */
  datatype Result<+T> = Ok(value: T) | Err(error: string)

  /** Current upload and download rate, bytes per second (/traffic). */
  datatype Traffic = Traffic(up: int, down: int)

  /** The part of a connection's metadata that the collector reads. */
  datatype ConnectionMetadata = ConnectionMetadata(
    sourceIP: string,
    destinationIP: string,
    host: string)

  /** One active connection as listed by /connections. */
  datatype Connection = Connection(
    id: string,
    metadata: ConnectionMetadata,
    upload: int,
    download: int,
    chains: seq<string>)

  /** The whole /connections response. */
  datatype ConnectionsResponse = ConnectionsResponse(
    downloadTotal: int,
    uploadTotal: int,
    connections: seq<Connection>)

  /** One entry of /proxies; `kind` is the API's free-form type string. */
  datatype ProxyInfo = ProxyInfo(name: string, kind: string)

  /** The whole /proxies response, keyed by proxy name. */
  datatype ProxiesResponse = ProxiesResponse(proxies: map<string, ProxyInfo>)

  /** The response of /proxies/{name}/delay, in milliseconds. */
  datatype DelayInfo = DelayInfo(delay: int)
}

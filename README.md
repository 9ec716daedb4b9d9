# mihomo-prometheus-exporter collector, modelled in Dafny

This project models the collector of a Prometheus exporter for the mihomo
proxy daemon. The collector keeps a cache of three snapshots of the daemon's
management API:

- the current traffic rate;
- the list of active connections;
- a map from proxy name to measured delay.

A fast refresh writes the first two and a slow refresh writes the third. On
every scrape the cache is turned into metric samples. In the same step the
connection list is aggregated per (source host, destination, outbound node).

Files and modules:

- `types.dfy` (`Types`): the API records the collector reads, plus `Option`
  and the fetch outcome `Result` (a value or an error).
- `aggregation.dfy` (`Aggregation`): key derivation for each connection and
  the rule for skipping a connection. `Aggregated` is the reference
  definition: a sum per derived key. `Aggregate` is the collector's
  in-place loop, proved to compute `Aggregated`.
- `latency.dfy` (`Latency`): which proxies are probed and the value each
  gets (its delay, or -1 when the probe fails). `BuildLatencies` is the
  probing loop; `Availability` derives 0/1 from a delay.
- `collector.dfy` (`Collector`): the `MihomoCollector` class with its three
  cache fields, the refresh methods, and `Collect`. `Collect` is specified
  by `Exposition`, the set of samples a scrape emits. The lemmas there say
  what that set contains, family by family.

A failed `GetProxies` still replaces the latency map: the cache receives
the empty map made at collector.go:208 (assigned at 242-244), so no entry
of the previous cycle survives. `UpdateSlow` and `FailedProxyListScenario`
state this.

## Model

| member | source | states |
|---|---|---|
| `Aggregation.Aggregate` | collector.go:116-145 | the in-place loop over the connection list yields exactly the reference aggregation: keys derived from kept records, each with the sums of its records |
| `Aggregation.DeriveKeyFields` | collector.go:119-129 | a kept record is keyed by its source IP unchanged, by its host (or its destination IP when the host is empty), and by the last chain element (or "DIRECT" when the chain is empty) |
| `Aggregation.SkippedExactlyWhen` | collector.go:132-136 | a record is skipped iff its source IP is empty, or both host and destination IP are empty, or its chain ends in an empty name |
| `Aggregation.TotalsForAbsent` | collector.go:140 | a key derived by no record sums to zero, which is the value an absent map entry reads as |
| `Aggregation.AggregatedSnocSkipped` | collector.go:132-136 | appending a skipped record changes no key and adds none |
| `Aggregation.AggregatedSnocKept` | collector.go:139-143 | appending a kept record adds its upload and download to its own key (starting from zero if absent) and leaves every other key as it was |
| `Aggregation.AggregatedEntries` | collector.go:116-145 | a key is present iff some record derives it, and its totals are the sums over exactly the records deriving it |
| `Aggregation.AggregatedLabelsNonEmpty` | collector.go:131-136 | no aggregated key has an empty source, destination or outbound-node label |
| `Aggregation.DropSkipped` | collector.go:132-136 | removing a skipped record from anywhere in the list leaves the aggregation unchanged, so a malformed record never affects the others |
| `Aggregation.TotalsForPermutation` | collector.go:118-145 | a key's sums are the same for any reordering of the connection list |
| `Aggregation.AggregatedOrderIrrelevant` | collector.go:118-145 | any reordering of the same records aggregates to the same map, so the result is deterministic |
| `Aggregation.TwoRecordsOneKey` | collector.go:116-145 | 10.0.0.1/a.com/[P1] with 100/200 and with 50/10 aggregate to the single key (10.0.0.1, a.com, P1) with 150 up and 210 down |
| `Aggregation.NoHostNoChain` | collector.go:119-129 | with an empty host and no chain, a record is keyed (source, destination IP, "DIRECT") |
| `Aggregation.EmptyLastNodeSkipped` | collector.go:119-136 | a chain ["P1", ""] makes the record skipped, so the aggregation is empty |
| `Latency.Availability` | collector.go:155-158 | availability is 0 or 1, and 1 exactly when the delay is positive |
| `Latency.BuildLatencies` | collector.go:218-239 | the built map has an entry exactly for each listed proxy whose type is not a routing kind, keyed by its list name, holding its probed delay or -1 on probe error |
| `Latency.LatencySnapshotUnique` | collector.go:208-243 | the latency map is determined by the proxy list and the probe outcomes alone, so no entry of an earlier map survives |
| `Latency.LatencyEntry` | collector.go:220-236 | Selector/URLTest/Fallback/LoadBalance/Direct/Reject proxies and unlisted names get no entry; others get their delay, or -1 with availability 0 when the probe failed |
| `Collector.MihomoCollector.constructor` | collector.go:35-79 | a new collector has no traffic and no connection snapshot and an empty latency map |
| `Collector.MihomoCollector.Collect` | collector.go:93-163 | a scrape emits exactly the exposition of the current cache and changes nothing |
| `Collector.EmitConnectionSeries` | collector.go:148-151 | the loop over the aggregated map emits, for every key and no other, one upload and one download sample labelled with that key and carrying its sums |
| `Collector.EmitProxySeries` | collector.go:153-161 | the loop over the latency map emits, for every proxy and no other, its delay as latency and 1 as availability when the delay is positive, else 0 |
| `Collector.MihomoCollector.RefreshTraffic` | collector.go:177-187 | the traffic field takes the fetched value on success and keeps its old value on error |
| `Collector.MihomoCollector.RefreshConnections` | collector.go:188-198 | the connections field takes the fetched value on success and keeps its old value on error |
| `Collector.MihomoCollector.UpdateFast` | collector.go:166-200 | each of the two fast fields follows its own fetch only; the latency map is untouched |
| `Collector.MihomoCollector.UpdateSlow` | collector.go:203-246 | the latency map is replaced by the freshly built map, which is empty when the proxy list fetch failed; the other fields are untouched |
| `Collector.TrafficExposition` | collector.go:97-100 | the upload and download rate gauges are emitted with the cached values when a traffic snapshot exists, they are the only samples of their two families, and neither is emitted otherwise |
| `Collector.SeriesUnique` | collector.go:97-161 | no two samples of one scrape share a family and label values, so every emitted series has exactly one value |
| `Collector.NoConnectionSeriesWithoutSnapshot` | collector.go:102 | with no connection snapshot, no active-count, connection-upload or connection-download sample is emitted |
| `Collector.ActiveConnectionCount` | collector.go:103 | the active-connection gauge is the length of the connection list, skipped records included, and is the only sample of its family |
| `Collector.ConnectionSeries` | collector.go:147-151 | an upload (download) series with a key's labels is emitted iff some kept record derives that key, with the upload (download) sum over its records |
| `Collector.ProxySeries` | collector.go:153-161 | every proxy in the latency map gets its delay as latency and 1 as availability iff its delay is positive (else 0); no other name gets either series |
| `Collector.StaleConnectionsScenario` | collector.go:188-197 | after a successful fast refresh and then a failed one, the next scrape emits the same samples as the scrape in between |
| `Collector.FailedProxyListScenario` | collector.go:208-244 | after a successful slow refresh every probeable proxy has a latency sample; after a following slow refresh whose proxy list fetch failed, no latency or availability sample is left |

## Left out

- The HTTP client (mihomo_client.go) is not part of this model. Requests, the bearer header, JSON decoding, the close-after-first-object read of `/traffic` and URL escaping are network I/O. Each fetch is a `Result` parameter, and each delay probe is a function from proxy name to `Result`.
- main.go is not part of this model: flag parsing, the HTTP server, signal handling and graceful shutdown.
- `StartMonitors` (collector.go:249-281), its goroutines, tickers and cancellation are left out, as are the wait groups and locks in the refresh steps. Each refresh is modelled as one sequential step on the cache. Concurrent probes are modelled as a loop over the proxy map in arbitrary order.
- The `err` variable that both fast-refresh goroutines share (collector.go:173, 179, 190) is a data race. The model gives each sub-task its own outcome.
- `Describe`, the metric descriptors, the name prefix and the conversion of values to `float64` belong to the metrics library. Samples carry a family tag, label values and an integer value.
- Samples are modelled as a set, so the order of emission (map iteration order) is not captured.
- `Aggregation.Aggregate`: does not model the wrap-around of Go's 64-bit integer sums, because byte counts are unbounded integers here.
- Log messages for failed fetches and skipped connections are left out.
- Unused record fields are left out: network, ports, DNS mode, process path, start time, rule, and the selector metadata of proxies. The collector never reads them. The connection totals (`uploadTotal`, `downloadTotal`) and a proxy's own `name` are kept in the records, because the cache stores whole responses, but nothing in the model reads them either.
- The `!= nil` guard on the latency map (collector.go:153) is always true. The map is created empty and only ever replaced by a freshly made map, so it is modelled as a plain map.

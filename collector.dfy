/**
 The exporter's collector: a cache of the three most recent upstream
 snapshots, the two refresh steps that write it, and the scrape that reads
 it and turns it into metric samples.

 A scrape's output is modelled as the set of samples it emits, each a
 metric family, its label values and its value; the order in which the
 source emits them (map iteration order) is not modelled. The samples of
 one scrape never share a family and label values (`SeriesUnique`), so a
 set loses nothing.
 */
module Collector {
  import opened Types
  import opened Aggregation
  import opened Latency

  /** The seven metric families the exporter exposes. */
  datatype Family =
    | TrafficUpload        // traffic_upload_speed_bytes
    | TrafficDownload      // traffic_download_speed_bytes
    | ActiveConnections    // connections_active_total
    | ConnectionUpload     // connection_upload_bytes{source_host, destination, outbound_node}
    | ConnectionDownload   // connection_download_bytes{source_host, destination, outbound_node}
    | ProxyLatency         // proxy_latency_ms{proxy_name}
    | ProxyAvailable       // proxy_available{proxy_name}

  /** One emitted gauge value with its label values. */
  datatype Sample = Sample(family: Family, labels: seq<string>, value: int)

  function KeyLabels(k: Key): seq<string> {
    [k.sourceHost, k.destination, k.outboundNode]
  }

  // ---------------------------------------------------------------------
  // What a scrape emits, family by family

  function TrafficSamples(t: Option<Traffic>): set<Sample> {
    match t
    case None => {}
    case Some(tr) => {Sample(TrafficUpload, [], tr.up), Sample(TrafficDownload, [], tr.down)}
  }

  /** The upload and download series of the keys in `keys`. */
  function ConnectionSamples(agg: map<Key, Totals>, keys: set<Key>): set<Sample> {
    (set k | k in keys && k in agg :: Sample(ConnectionUpload, KeyLabels(k), agg[k].upload))
    + (set k | k in keys && k in agg :: Sample(ConnectionDownload, KeyLabels(k), agg[k].download))
  }

  function ConnectionFamilies(c: Option<ConnectionsResponse>): set<Sample> {
    match c
    case None => {}
    case Some(resp) =>
      var agg := Aggregated(resp.connections);
      {Sample(ActiveConnections, [], |resp.connections|)} + ConnectionSamples(agg, agg.Keys)
  }

  /** The latency and availability series of the proxies in `names`. */
  function ProxySamples(lat: map<string, int>, names: set<string>): set<Sample> {
    (set n | n in names && n in lat :: Sample(ProxyLatency, [n], lat[n]))
    + (set n | n in names && n in lat :: Sample(ProxyAvailable, [n], Availability(lat[n])))
  }

  /** Everything one scrape emits for the given cache contents. */
  function Exposition(t: Option<Traffic>, c: Option<ConnectionsResponse>, lat: map<string, int>): set<Sample> {
    TrafficSamples(t) + ConnectionFamilies(c) + ProxySamples(lat, lat.Keys)
  }

  // ---------------------------------------------------------------------
  // The collector object

  class MihomoCollector {
    var cachedTraffic: Option<Traffic>
    var cachedConnections: Option<ConnectionsResponse>
    /** Never absent: created empty and only ever replaced by a freshly built map. */
    var cachedProxyLatencies: map<string, int>

    constructor ()
      ensures cachedTraffic == None && cachedConnections == None
      ensures cachedProxyLatencies == map[]
    {
      cachedTraffic := None;
      cachedConnections := None;
      cachedProxyLatencies := map[];
    }

    /** A scrape: reads the cache and emits every sample; nothing is written. */
    method Collect() returns (out: set<Sample>)
      ensures out == Exposition(cachedTraffic, cachedConnections, cachedProxyLatencies)
    {
      out := {};
      if cachedTraffic.Some? {
        out := out + {Sample(TrafficUpload, [], cachedTraffic.value.up),
                      Sample(TrafficDownload, [], cachedTraffic.value.down)};
      }
      if cachedConnections.Some? {
        var conns := cachedConnections.value.connections;
        out := out + {Sample(ActiveConnections, [], |conns|)};
        var agg := Aggregate(conns);
        var series := EmitConnectionSeries(agg);
        out := out + series;
      }
      var proxySeries := EmitProxySeries(cachedProxyLatencies);
      out := out + proxySeries;
    }
    /** The traffic half of a fast refresh: the cache takes the fetched value,
        or keeps what it had when the fetch failed. */
    method RefreshTraffic(fetched: Result<Traffic>)
      modifies this`cachedTraffic
      ensures cachedTraffic == if fetched.Ok? then Some(fetched.value) else old(cachedTraffic)
    {
      if fetched.Ok? {
        cachedTraffic := Some(fetched.value);
      }
    }

    /** The connections half of a fast refresh, with the same rule. */
    method RefreshConnections(fetched: Result<ConnectionsResponse>)
      modifies this`cachedConnections
      ensures cachedConnections == if fetched.Ok? then Some(fetched.value) else old(cachedConnections)
    {
      if fetched.Ok? {
        cachedConnections := Some(fetched.value);
      }
    }

    /** A fast refresh: each of the two fields follows its own fetch only; the
        latency map is not touched. */
    method UpdateFast(traffic: Result<Traffic>, connections: Result<ConnectionsResponse>)
      modifies this`cachedTraffic, this`cachedConnections
      ensures cachedTraffic == if traffic.Ok? then Some(traffic.value) else old(cachedTraffic)
      ensures cachedConnections == if connections.Ok? then Some(connections.value) else old(cachedConnections)
      ensures cachedProxyLatencies == old(cachedProxyLatencies)
    {
      RefreshTraffic(traffic);
      RefreshConnections(connections);
    }

    /** A slow refresh: the latency map is replaced by the one built in this
        cycle, which is empty when the proxy list could not be fetched. */
    method UpdateSlow(proxies: Result<ProxiesResponse>, probe: string -> Result<DelayInfo>)
      modifies this`cachedProxyLatencies
      ensures proxies.Err? ==> cachedProxyLatencies == map[]
      ensures proxies.Ok? ==> IsLatencySnapshot(proxies.value.proxies, probe, cachedProxyLatencies)
      ensures cachedTraffic == old(cachedTraffic) && cachedConnections == old(cachedConnections)
    {
      var latencies: map<string, int> := map[];
      match proxies {
        case Err(_) =>
        case Ok(resp) =>
          latencies := BuildLatencies(resp.proxies, probe);
      }
      cachedProxyLatencies := latencies;
    }
  }

  /** The loop of a scrape over the aggregated map: one upload and one
      download series per key. */
  method EmitConnectionSeries(agg: map<Key, Totals>) returns (out: set<Sample>)
    ensures out == ConnectionSamples(agg, agg.Keys)
  {
    out := {};
    var pending := agg.Keys;
    ghost var done: set<Key> := {};
    while pending != {}
      invariant pending !! done && pending + done == agg.Keys
      invariant out == ConnectionSamples(agg, done)
      decreases pending
    {
      var key :| key in pending;
      ConnectionSamplesAdd(agg, done, key);
      out := out + {Sample(ConnectionUpload, KeyLabels(key), agg[key].upload),
                    Sample(ConnectionDownload, KeyLabels(key), agg[key].download)};
      pending := pending - {key};
      done := done + {key};
    }
  }

  /** The loop of a scrape over the latency map: the delay of each proxy and
      its availability, 1 for a positive delay and 0 otherwise. */
  method EmitProxySeries(lat: map<string, int>) returns (out: set<Sample>)
    ensures out == ProxySamples(lat, lat.Keys)
  {
    out := {};
    var pending := lat.Keys;
    ghost var done: set<string> := {};
    while pending != {}
      invariant pending !! done && pending + done == lat.Keys
      invariant out == ProxySamples(lat, done)
      decreases pending
    {
      var name :| name in pending;
      ProxySamplesAdd(lat, done, name);
      var delay := lat[name];
      var available := 1;
      if delay <= 0 {
        available := 0;
      }
      out := out + {Sample(ProxyLatency, [name], delay), Sample(ProxyAvailable, [name], available)};
      pending := pending - {name};
      done := done + {name};
    }
  }

  // ---------------------------------------------------------------------
  // Steps used by the scrape's loops

  lemma ConnectionSamplesAdd(agg: map<Key, Totals>, done: set<Key>, k: Key)
    requires k in agg
    ensures ConnectionSamples(agg, done + {k}) ==
      ConnectionSamples(agg, done) + {Sample(ConnectionUpload, KeyLabels(k), agg[k].upload),
                                      Sample(ConnectionDownload, KeyLabels(k), agg[k].download)}
  {
  }

  lemma ProxySamplesAdd(lat: map<string, int>, done: set<string>, name: string)
    requires name in lat
    ensures ProxySamples(lat, done + {name}) ==
      ProxySamples(lat, done) + {Sample(ProxyLatency, [name], lat[name]),
                                 Sample(ProxyAvailable, [name], Availability(lat[name]))}
  {
  }

  lemma KeyLabelsInjective(k1: Key, k2: Key)
    requires KeyLabels(k1) == KeyLabels(k2)
    ensures k1 == k2
  {
    assert KeyLabels(k1)[0] == KeyLabels(k2)[0];
    assert KeyLabels(k1)[1] == KeyLabels(k2)[1];
    assert KeyLabels(k1)[2] == KeyLabels(k2)[2];
  }

  // ---------------------------------------------------------------------
  // Properties of a scrape

  /** The two traffic gauges are emitted exactly when a traffic snapshot is
      cached, with its values. */
  lemma TrafficExposition(t: Option<Traffic>, c: Option<ConnectionsResponse>, lat: map<string, int>)
    ensures t.None? ==> forall s :: s in Exposition(t, c, lat) ==>
      s.family != TrafficUpload && s.family != TrafficDownload
    ensures t.Some? ==>
      && Sample(TrafficUpload, [], t.value.up) in Exposition(t, c, lat)
      && Sample(TrafficDownload, [], t.value.down) in Exposition(t, c, lat)
    ensures forall s :: s in Exposition(t, c, lat) && (s.family == TrafficUpload || s.family == TrafficDownload) ==>
      t.Some? && s in {Sample(TrafficUpload, [], t.value.up), Sample(TrafficDownload, [], t.value.down)}
  {
    forall s | s in Exposition(t, c, lat) && (s.family == TrafficUpload || s.family == TrafficDownload)
      ensures s in TrafficSamples(t)
    {
      assert s !in ConnectionFamilies(c);
      assert s !in ProxySamples(lat, lat.Keys);
    }
  }

  /** Nothing of the three connection families is emitted before a connection
      snapshot is cached. */
  lemma NoConnectionSeriesWithoutSnapshot(t: Option<Traffic>, lat: map<string, int>)
    ensures forall s :: s in Exposition(t, None, lat) ==>
      s.family != ActiveConnections && s.family != ConnectionUpload && s.family != ConnectionDownload
  {
  }

  /** The active-connection gauge is the number of listed connections,
      skipped ones included, and is the only sample of its family. */
  lemma ActiveConnectionCount(t: Option<Traffic>, resp: ConnectionsResponse, lat: map<string, int>)
    ensures Sample(ActiveConnections, [], |resp.connections|) in Exposition(t, Some(resp), lat)
    ensures forall s :: s in Exposition(t, Some(resp), lat) && s.family == ActiveConnections ==>
      s == Sample(ActiveConnections, [], |resp.connections|)
  {
    var agg := Aggregated(resp.connections);
    forall s | s in Exposition(t, Some(resp), lat) && s.family == ActiveConnections
      ensures s == Sample(ActiveConnections, [], |resp.connections|)
    {
      assert s !in TrafficSamples(t);
      assert s !in ConnectionSamples(agg, agg.Keys);
      assert s !in ProxySamples(lat, lat.Keys);
    }
  }

  lemma ConnectionSamplesMember(agg: map<Key, Totals>, k: Key, v: int)
    ensures Sample(ConnectionUpload, KeyLabels(k), v) in ConnectionSamples(agg, agg.Keys) <==>
      k in agg && v == agg[k].upload
    ensures Sample(ConnectionDownload, KeyLabels(k), v) in ConnectionSamples(agg, agg.Keys) <==>
      k in agg && v == agg[k].download
  {
    if Sample(ConnectionUpload, KeyLabels(k), v) in ConnectionSamples(agg, agg.Keys) {
      var k' :| k' in agg && Sample(ConnectionUpload, KeyLabels(k'), agg[k'].upload) == Sample(ConnectionUpload, KeyLabels(k), v);
      KeyLabelsInjective(k, k');
    }
    if Sample(ConnectionDownload, KeyLabels(k), v) in ConnectionSamples(agg, agg.Keys) {
      var k' :| k' in agg && Sample(ConnectionDownload, KeyLabels(k'), agg[k'].download) == Sample(ConnectionDownload, KeyLabels(k), v);
      KeyLabelsInjective(k, k');
    }
  }

  /** A connection upload (download) series with labels of key `k` is emitted
      exactly when some kept record derives `k`, and its value is the sum of
      upload (download) bytes over the records that derive `k`. */
  lemma ConnectionSeries(t: Option<Traffic>, c: Option<ConnectionsResponse>, lat: map<string, int>, k: Key, v: int)
    ensures Sample(ConnectionUpload, KeyLabels(k), v) in Exposition(t, c, lat) <==>
      c.Some? && k in DerivedKeys(c.value.connections) && v == TotalsFor(c.value.connections, k).upload
    ensures Sample(ConnectionDownload, KeyLabels(k), v) in Exposition(t, c, lat) <==>
      c.Some? && k in DerivedKeys(c.value.connections) && v == TotalsFor(c.value.connections, k).download
  {
    var up, down := Sample(ConnectionUpload, KeyLabels(k), v), Sample(ConnectionDownload, KeyLabels(k), v);
    assert up !in TrafficSamples(t) && down !in TrafficSamples(t);
    assert up !in ProxySamples(lat, lat.Keys) && down !in ProxySamples(lat, lat.Keys);
    if c.Some? {
      var agg := Aggregated(c.value.connections);
      ConnectionSamplesMember(agg, k, v);
      assert up in ConnectionFamilies(c) <==> up in ConnectionSamples(agg, agg.Keys);
      assert down in ConnectionFamilies(c) <==> down in ConnectionSamples(agg, agg.Keys);
    }
  }

  /** Each proxy in the latency map gets its delay and an availability of 1
      exactly when that delay is positive; a proxy outside the map gets
      neither series. */
  lemma ProxySeries(t: Option<Traffic>, c: Option<ConnectionsResponse>, lat: map<string, int>, name: string, v: int)
    ensures Sample(ProxyLatency, [name], v) in Exposition(t, c, lat) <==> name in lat && v == lat[name]
    ensures Sample(ProxyAvailable, [name], v) in Exposition(t, c, lat) <==>
      name in lat && v == (if lat[name] > 0 then 1 else 0)
  {
    var latency, available := Sample(ProxyLatency, [name], v), Sample(ProxyAvailable, [name], v);
    assert latency !in TrafficSamples(t) && available !in TrafficSamples(t);
    assert latency !in ConnectionFamilies(c) && available !in ConnectionFamilies(c);
    ProxySamplesMember(lat, name, v);
  }

  lemma ProxySamplesMember(lat: map<string, int>, name: string, v: int)
    ensures Sample(ProxyLatency, [name], v) in ProxySamples(lat, lat.Keys) <==> name in lat && v == lat[name]
    ensures Sample(ProxyAvailable, [name], v) in ProxySamples(lat, lat.Keys) <==>
      name in lat && v == Availability(lat[name])
  {
    if Sample(ProxyLatency, [name], v) in ProxySamples(lat, lat.Keys) {
      var n :| n in lat && Sample(ProxyLatency, [n], lat[n]) == Sample(ProxyLatency, [name], v);
      assert [n][0] == [name][0];
    }
    if Sample(ProxyAvailable, [name], v) in ProxySamples(lat, lat.Keys) {
      var n :| n in lat && Sample(ProxyAvailable, [n], Availability(lat[n])) == Sample(ProxyAvailable, [name], v);
      assert [n][0] == [name][0];
    }
  }

  /** Every sample of a scrape is a well-formed series: connection series are
      labelled by an aggregated key, proxy series by a proxy in the map. */
  lemma ExpositionShape(t: Option<Traffic>, c: Option<ConnectionsResponse>, lat: map<string, int>, s: Sample)
    requires s in Exposition(t, c, lat)
    ensures s.family == ConnectionUpload || s.family == ConnectionDownload ==>
      c.Some? && exists k :: k in Aggregated(c.value.connections) && s.labels == KeyLabels(k)
    ensures s.family == ProxyLatency || s.family == ProxyAvailable ==>
      exists n :: n in lat && s.labels == [n]
  {
  }

  /** No two samples of one scrape belong to the same series (same family and
      same label values): each series carries exactly one value. */
  lemma SeriesUnique(t: Option<Traffic>, c: Option<ConnectionsResponse>, lat: map<string, int>, s1: Sample, s2: Sample)
    requires s1 in Exposition(t, c, lat) && s2 in Exposition(t, c, lat)
    requires s1.family == s2.family && s1.labels == s2.labels
    ensures s1 == s2
  {
    ExpositionShape(t, c, lat, s1);
    ExpositionShape(t, c, lat, s2);
    TrafficExposition(t, c, lat);
    match s1.family {
      case TrafficUpload =>
      case TrafficDownload =>
      case ActiveConnections =>
        ActiveConnectionCount(t, c.value, lat);
      case ConnectionUpload =>
        var k :| k in Aggregated(c.value.connections) && s1.labels == KeyLabels(k);
        ConnectionSeries(t, c, lat, k, s1.value);
        ConnectionSeries(t, c, lat, k, s2.value);
      case ConnectionDownload =>
        var k :| k in Aggregated(c.value.connections) && s1.labels == KeyLabels(k);
        ConnectionSeries(t, c, lat, k, s1.value);
        ConnectionSeries(t, c, lat, k, s2.value);
      case ProxyLatency =>
        var n :| n in lat && s1.labels == [n];
        ProxySeries(t, c, lat, n, s1.value);
        ProxySeries(t, c, lat, n, s2.value);
      case ProxyAvailable =>
        var n :| n in lat && s1.labels == [n];
        ProxySeries(t, c, lat, n, s1.value);
        ProxySeries(t, c, lat, n, s2.value);
    }
  }

  // ---------------------------------------------------------------------
  // Scenarios over the collector object

  /** Stale-on-error: when the connections fetch fails after having once
      succeeded, the next scrape emits exactly what the previous one did. */
  method StaleConnectionsScenario(t: Traffic, first: ConnectionsResponse, error: string)
    returns (before: set<Sample>, after: set<Sample>)
    ensures before == after
    ensures Sample(ActiveConnections, [], |first.connections|) in after
  {
    var collector := new MihomoCollector();
    collector.UpdateFast(Ok(t), Ok(first));
    before := collector.Collect();
    collector.UpdateFast(Err(error), Err(error));
    after := collector.Collect();
    ActiveConnectionCount(Some(t), first, map[]);
  }

  /** A slow refresh whose proxy list cannot be fetched clears the latency
      map: no latency or availability series survives from the cycle before. */
  method FailedProxyListScenario(resp: ProxiesResponse, probe: string -> Result<DelayInfo>, error: string)
    returns (before: set<Sample>, after: set<Sample>)
    ensures forall name :: name in resp.proxies && Probeable(resp.proxies[name]) ==>
      Sample(ProxyLatency, [name], ProbeDelay(probe(name))) in before
    ensures after == {}
  {
    var collector := new MihomoCollector();
    collector.UpdateSlow(Ok(resp), probe);
    ghost var probed := collector.cachedProxyLatencies;
    before := collector.Collect();
    collector.UpdateSlow(Err(error), probe);
    after := collector.Collect();
    forall name | name in resp.proxies && Probeable(resp.proxies[name])
      ensures Sample(ProxyLatency, [name], ProbeDelay(probe(name))) in before
    {
      ProxySeries(None, None, probed, name, ProbeDelay(probe(name)));
    }
  }
}

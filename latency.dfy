/**
 Proxy latency probing: which proxies are probed, what value each gets, and
 how a delay reads as availability.

 Routing constructs (selectors, URL tests, fallbacks, load balancers and the
 built-in DIRECT and REJECT outbounds) are not measurable endpoints and are
 never probed. Every other listed proxy gets exactly one entry: the delay the
 probe reported, or -1 when the probe failed.
 */
module Latency {
  import opened Types

  /** The proxy types that are routing constructs rather than endpoints. */
  const RoutingKinds: set<string> := {"Selector", "URLTest", "Fallback", "LoadBalance", "Direct", "Reject"}

  /** The delay recorded for a proxy whose probe failed. */
  const ProbeFailed := -1

  predicate Probeable(p: ProxyInfo) {
    p.kind !in RoutingKinds
  }

  /** The delay a probe outcome is recorded as. */
  function ProbeDelay(r: Result<DelayInfo>): int {
    match r
    case Ok(info) => info.delay
    case Err(_) => ProbeFailed
  }

  /** Availability of a proxy: 1 exactly when its delay is positive, so a
      failed probe and a zero delay both read as unavailable. */
  function Availability(delay: int): (a: int)
    ensures a == 0 || a == 1
    ensures a == 1 <==> delay > 0
  {
    if delay <= 0 then 0 else 1
  }

  /** `m` is the latency map built from the proxy list `proxies` when the
      probe of proxy `name` has outcome `probe(name)`: one entry per probeable
      proxy and nothing else. */
  ghost predicate IsLatencySnapshot(proxies: map<string, ProxyInfo>, probe: string -> Result<DelayInfo>, m: map<string, int>) {
    && (forall name :: name in m <==> name in proxies && Probeable(proxies[name]))
    && (forall name :: name in m ==> m[name] == ProbeDelay(probe(name)))
  }

  /** The probing loop of a slow refresh: walks the proxy list in whatever
      order, skips routing constructs and records one outcome per remaining
      proxy, keyed by the name the list uses. */
  method BuildLatencies(proxies: map<string, ProxyInfo>, probe: string -> Result<DelayInfo>)
    returns (latencies: map<string, int>)
    ensures IsLatencySnapshot(proxies, probe, latencies)
  {
    latencies := map[];
    var pending := proxies.Keys;
    while pending != {}
      invariant pending <= proxies.Keys
      invariant forall name :: name in latencies <==>
        name in proxies && name !in pending && Probeable(proxies[name])
      invariant forall name :: name in latencies ==> latencies[name] == ProbeDelay(probe(name))
      decreases pending
    {
      var name :| name in pending;
      pending := pending - {name};
      var p := proxies[name];
      if !Probeable(p) {
        continue;
      }
      match probe(name) {
        case Err(_) =>
          latencies := latencies[name := ProbeFailed];
        case Ok(info) =>
          latencies := latencies[name := info.delay];
      }
    }
  }

  /** A latency map is determined by the proxy list and the probe outcomes
      alone: nothing of an earlier map can survive into it. */
  lemma LatencySnapshotUnique(proxies: map<string, ProxyInfo>, probe: string -> Result<DelayInfo>, m1: map<string, int>, m2: map<string, int>)
    requires IsLatencySnapshot(proxies, probe, m1) && IsLatencySnapshot(proxies, probe, m2)
    ensures m1 == m2
  {
    assert m1.Keys == m2.Keys;
  }

  /** A routing construct never gets an entry; any other listed proxy gets its
      reported delay, or -1 and availability 0 when its probe failed. */
  lemma LatencyEntry(proxies: map<string, ProxyInfo>, probe: string -> Result<DelayInfo>, m: map<string, int>, name: string)
    requires IsLatencySnapshot(proxies, probe, m)
    ensures name in proxies && proxies[name].kind in RoutingKinds ==> name !in m
    ensures name !in proxies ==> name !in m
    ensures name in proxies && proxies[name].kind !in RoutingKinds && probe(name).Ok? ==>
      name in m && m[name] == probe(name).value.delay
    ensures name in proxies && proxies[name].kind !in RoutingKinds && probe(name).Err? ==>
      name in m && m[name] == -1 && Availability(m[name]) == 0
  {
  }
}

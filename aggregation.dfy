/**
 The connection aggregator run by every scrape: the raw connection list is
 reduced to upload and download totals per (source host, destination,
 outbound node). Records whose derived labels would be empty are skipped
 without error.

 `Aggregated` is the reference definition (keys derived from the kept
 records, each summed over exactly the records that derive it);
 `Aggregate` is the loop the collector runs, which reads and re-writes map
 entries one record at a time, and is proved to compute `Aggregated`.
 */
module Aggregation {
  import opened Types

  /** The label triple a connection is aggregated under. */
  datatype Key = Key(sourceHost: string, destination: string, outboundNode: string)

  /** Summed bytes for one key. */
  datatype Totals = Totals(upload: int, download: int)

  /** The value a missing map entry reads as. */
  const Zero := Totals(0, 0)

  function Plus(a: Totals, b: Totals): Totals {
    Totals(a.upload + b.upload, a.download + b.download)
  }

  /** The last node of the chain, or "DIRECT" for a connection with no chain. */
  function OutboundNode(c: Connection): string {
    if |c.chains| > 0 then c.chains[|c.chains| - 1] else "DIRECT"
  }

  /** The host name, falling back to the numeric destination address. */
  function Destination(c: Connection): string {
    if c.metadata.host == "" then c.metadata.destinationIP else c.metadata.host
  }

  function SourceHost(c: Connection): string {
    c.metadata.sourceIP
  }

  /** The key a record is aggregated under, or None when it is skipped. */
  function DeriveKey(c: Connection): Option<Key> {
    var src, dst, node := SourceHost(c), Destination(c), OutboundNode(c);
    if src == "" || dst == "" || node == "" then None else Some(Key(src, dst, node))
  }

  /** What one record adds to key `k`. */
  function Contribution(c: Connection, k: Key): Totals {
    if DeriveKey(c) == Some(k) then Totals(c.upload, c.download) else Zero
  }

  /** The sum of upload and download over the records of `cs` that derive `k`. */
  function TotalsFor(cs: seq<Connection>, k: Key): Totals {
    if cs == [] then Zero
    else Plus(TotalsFor(cs[..|cs| - 1], k), Contribution(cs[|cs| - 1], k))
  }

  /** The keys derived from the records that are not skipped. */
  function DerivedKeys(cs: seq<Connection>): set<Key> {
    set i | 0 <= i < |cs| && DeriveKey(cs[i]).Some? :: DeriveKey(cs[i]).value
  }

  /** Reference definition of the aggregation result. */
  function Aggregated(cs: seq<Connection>): map<Key, Totals> {
    map k | k in DerivedKeys(cs) :: TotalsFor(cs, k)
  }

  /** The aggregation loop of the collector: one pass, updating the map in place. */
  method Aggregate(cs: seq<Connection>) returns (agg: map<Key, Totals>)
    ensures agg == Aggregated(cs)
  {
    agg := map[];
    for i := 0 to |cs|
      invariant agg == Aggregated(cs[..i])
    {
      var conn := cs[i];
      assert cs[..i + 1] == cs[..i] + [conn];
      var outboundNode := OutboundNode(conn);
      var destination := Destination(conn);
      var sourceHost := SourceHost(conn);
      if sourceHost == "" || destination == "" || outboundNode == "" {
        assert DeriveKey(conn).None?;
        AggregatedSnocSkipped(cs[..i], conn);
        continue;
      }
      var key := Key(sourceHost, destination, outboundNode);
      assert DeriveKey(conn) == Some(key);
      AggregatedSnocKept(cs[..i], conn, key);
      var traffic := if key in agg then agg[key] else Zero;
      traffic := Totals(traffic.upload + conn.upload, traffic.download + conn.download);
      assert traffic == Plus(if key in agg then agg[key] else Zero, Totals(conn.upload, conn.download));
      agg := agg[key := traffic];
    }
    assert cs[..|cs|] == cs;
  }

  // ---------------------------------------------------------------------
  // Key derivation

  /** A record is aggregated under its source address, its host (or, without
      one, its destination address) and the last node of its chain (or
      "DIRECT" without a chain). */
  lemma {:induction false} DeriveKeyFields(c: Connection)
    requires DeriveKey(c).Some?
    ensures DeriveKey(c).value.sourceHost == c.metadata.sourceIP
    ensures c.metadata.host != "" ==> DeriveKey(c).value.destination == c.metadata.host
    ensures c.metadata.host == "" ==> DeriveKey(c).value.destination == c.metadata.destinationIP
    ensures c.chains == [] ==> DeriveKey(c).value.outboundNode == "DIRECT"
    ensures c.chains != [] ==> DeriveKey(c).value.outboundNode == c.chains[|c.chains| - 1]
  {
  }

  /** A record is skipped exactly when it has no source address, has neither a
      host nor a destination address, or its chain ends in an empty name. */
  lemma {:induction false} SkippedExactlyWhen(c: Connection)
    ensures DeriveKey(c).None? <==>
      || c.metadata.sourceIP == ""
      || (c.metadata.host == "" && c.metadata.destinationIP == "")
      || (|c.chains| > 0 && c.chains[|c.chains| - 1] == "")
  {
  }

  // ---------------------------------------------------------------------
  // Facts about the sums

  lemma {:induction false} TotalsForAbsent(cs: seq<Connection>, k: Key)
    requires k !in DerivedKeys(cs)
    ensures TotalsFor(cs, k) == Zero
  {
    if cs != [] {
      var init := cs[..|cs| - 1];
      forall j | 0 <= j < |init| && DeriveKey(init[j]).Some?
        ensures DeriveKey(init[j]).value != k
      {
        assert init[j] == cs[j];
        assert DeriveKey(cs[j]).value in DerivedKeys(cs);
      }
      TotalsForAbsent(init, k);
      if DeriveKey(cs[|cs| - 1]).Some? {
        assert DeriveKey(cs[|cs| - 1]).value in DerivedKeys(cs);
      }
    }
  }

  lemma {:induction false} TotalsForAppend(a: seq<Connection>, b: seq<Connection>, k: Key)
    ensures TotalsFor(a + b, k) == Plus(TotalsFor(a, k), TotalsFor(b, k))
  {
    if b == [] {
      assert a + b == a;
    } else {
      var init, last := b[..|b| - 1], b[|b| - 1];
      var ab := a + b;
      assert ab[..|ab| - 1] == a + init;
      assert ab[|ab| - 1] == last;
      TotalsForAppend(a, init, k);
      calc {
        TotalsFor(ab, k);
        Plus(TotalsFor(a + init, k), Contribution(last, k));
        Plus(Plus(TotalsFor(a, k), TotalsFor(init, k)), Contribution(last, k));
        Plus(TotalsFor(a, k), Plus(TotalsFor(init, k), Contribution(last, k)));
      }
    }
  }

  lemma {:induction false} DerivedKeysAppend(a: seq<Connection>, b: seq<Connection>)
    ensures DerivedKeys(a + b) == DerivedKeys(a) + DerivedKeys(b)
  {
    var ab := a + b;
    forall k | k in DerivedKeys(ab) ensures k in DerivedKeys(a) + DerivedKeys(b) {
      var i :| 0 <= i < |ab| && DeriveKey(ab[i]).Some? && DeriveKey(ab[i]).value == k;
      if i < |a| {
        assert ab[i] == a[i];
      } else {
        assert ab[i] == b[i - |a|];
      }
    }
    forall k | k in DerivedKeys(a) ensures k in DerivedKeys(ab) {
      var i :| 0 <= i < |a| && DeriveKey(a[i]).Some? && DeriveKey(a[i]).value == k;
      assert ab[i] == a[i];
    }
    forall k | k in DerivedKeys(b) ensures k in DerivedKeys(ab) {
      var i :| 0 <= i < |b| && DeriveKey(b[i]).Some? && DeriveKey(b[i]).value == k;
      assert ab[|a| + i] == b[i];
    }
  }

  lemma {:induction false} DerivedKeysSingle(c: Connection)
    ensures DeriveKey(c).None? ==> DerivedKeys([c]) == {}
    ensures DeriveKey(c).Some? ==> DerivedKeys([c]) == {DeriveKey(c).value}
  {
    assert [c][0] == c;
  }

  lemma {:induction false} TotalsForSnoc(cs: seq<Connection>, c: Connection, k: Key)
    ensures TotalsFor(cs + [c], k) == Plus(TotalsFor(cs, k), Contribution(c, k))
  {
    var ext := cs + [c];
    assert ext[..|ext| - 1] == cs;
  }

  lemma PlusZero(t: Totals)
    ensures Plus(t, Zero) == t
  {
  }

  lemma PlusSwap(p: Totals, q: Totals, r: Totals)
    ensures Plus(Plus(p, q), r) == Plus(Plus(p, r), q)
  {
  }

  /** Aggregating one more record that is skipped leaves the result as it was. */
  lemma {:induction false} AggregatedSnocSkipped(cs: seq<Connection>, c: Connection)
    requires DeriveKey(c).None?
    ensures Aggregated(cs + [c]) == Aggregated(cs)
  {
    var ext := cs + [c];
    DerivedKeysAppend(cs, [c]);
    DerivedKeysSingle(c);
    assert DerivedKeys(ext) == DerivedKeys(cs);
    forall k | k in DerivedKeys(cs) ensures TotalsFor(ext, k) == TotalsFor(cs, k) {
      TotalsForSnoc(cs, c, k);
      PlusZero(TotalsFor(cs, k));
    }
  }

  lemma {:induction false} DerivedKeysSnocKept(cs: seq<Connection>, c: Connection, k: Key)
    requires DeriveKey(c) == Some(k)
    ensures DerivedKeys(cs + [c]) == DerivedKeys(cs) + {k}
  {
    DerivedKeysAppend(cs, [c]);
    DerivedKeysSingle(c);
  }

  lemma {:induction false} TotalsForSnocKept(cs: seq<Connection>, c: Connection, k: Key, j: Key)
    requires DeriveKey(c) == Some(k)
    ensures j == k ==> TotalsFor(cs + [c], j) == Plus(TotalsFor(cs, k), Totals(c.upload, c.download))
    ensures j != k ==> TotalsFor(cs + [c], j) == TotalsFor(cs, j)
  {
    TotalsForSnoc(cs, c, j);
    PlusZero(TotalsFor(cs, j));
  }

  /** Aggregating one more record that is kept adds its bytes to its key, which
      reads as zero when it was absent; every other key keeps its totals. This
      is the step the collector's loop performs. */
  lemma {:induction false} AggregatedSnocKept(cs: seq<Connection>, c: Connection, k: Key)
    requires DeriveKey(c) == Some(k)
    ensures
      var prev := Aggregated(cs);
      Aggregated(cs + [c]) == prev[k := Plus(if k in prev then prev[k] else Zero, Totals(c.upload, c.download))]
  {
    var ext := cs + [c];
    var prev := Aggregated(cs);
    var before := if k in prev then prev[k] else Zero;
    var next := prev[k := Plus(before, Totals(c.upload, c.download))];
    assert before == TotalsFor(cs, k) by {
      if k !in prev {
        TotalsForAbsent(cs, k);
      }
    }
    assert Aggregated(ext).Keys == next.Keys by {
      DerivedKeysSnocKept(cs, c, k);
    }
    forall j | j in next ensures Aggregated(ext)[j] == next[j] {
      TotalsForSnocKept(cs, c, k, j);
    }
    SameEntries(Aggregated(ext), next);
  }

  lemma SameEntries(m1: map<Key, Totals>, m2: map<Key, Totals>)
    requires m1.Keys == m2.Keys
    requires forall j :: j in m2 ==> m1[j] == m2[j]
    ensures m1 == m2
  {
  }

  // ---------------------------------------------------------------------
  // Properties of the aggregation result

  /** The keys are exactly those derived from kept records, and each key's
      totals are the sums over the records that derive it. */
  lemma {:induction false} AggregatedEntries(cs: seq<Connection>, k: Key)
    ensures k in Aggregated(cs) <==> exists i :: 0 <= i < |cs| && DeriveKey(cs[i]) == Some(k)
    ensures k in Aggregated(cs) ==> Aggregated(cs)[k] == TotalsFor(cs, k)
  {
    if k in Aggregated(cs) {
      var i :| 0 <= i < |cs| && DeriveKey(cs[i]).Some? && DeriveKey(cs[i]).value == k;
    }
  }

  /** No emitted key has an empty label. */
  lemma {:induction false} AggregatedLabelsNonEmpty(cs: seq<Connection>)
    ensures forall k :: k in Aggregated(cs) ==>
      k.sourceHost != "" && k.destination != "" && k.outboundNode != ""
  {
    forall k | k in Aggregated(cs)
      ensures k.sourceHost != "" && k.destination != "" && k.outboundNode != ""
    {
      var i :| 0 <= i < |cs| && DeriveKey(cs[i]).Some? && DeriveKey(cs[i]).value == k;
    }
  }

  /** A skipped record does not change what the other records aggregate to. */
  lemma {:induction false} DropSkipped(cs: seq<Connection>, i: nat)
    requires i < |cs| && DeriveKey(cs[i]).None?
    ensures Aggregated(cs[..i] + cs[i + 1..]) == Aggregated(cs)
  {
    var pre, c, post := cs[..i], cs[i], cs[i + 1..];
    assert cs == (pre + [c]) + post;
    DerivedKeysAppend(pre, [c]);
    DerivedKeysAppend(pre + [c], post);
    DerivedKeysAppend(pre, post);
    DerivedKeysSingle(c);
    forall k ensures TotalsFor(pre + post, k) == TotalsFor(cs, k) {
      TotalsForSplice(pre, c, post, k);
    }
  }

  /** The sum over a list with one record spliced in is the sum without it
      plus that record's contribution. */
  lemma {:induction false} TotalsForSplice(pre: seq<Connection>, c: Connection, post: seq<Connection>, k: Key)
    ensures TotalsFor(pre + [c] + post, k) == Plus(TotalsFor(pre + post, k), Contribution(c, k))
  {
    TotalsForAppend(pre + [c], post, k);
    TotalsForSnoc(pre, c, k);
    TotalsForAppend(pre, post, k);
    PlusSwap(TotalsFor(pre, k), Contribution(c, k), TotalsFor(post, k));
  }

  lemma {:induction false} TotalsForPermutation(cs: seq<Connection>, ds: seq<Connection>, k: Key)
    requires multiset(cs) == multiset(ds)
    ensures TotalsFor(cs, k) == TotalsFor(ds, k)
  {
    if cs == [] {
      assert |ds| == |multiset(ds)| == 0;
    } else {
      var last := cs[|cs| - 1];
      var init := cs[..|cs| - 1];
      assert cs == init + [last];
      assert last in multiset(ds);
      var j :| 0 <= j < |ds| && ds[j] == last;
      var rest := ds[..j] + ds[j + 1..];
      assert ds == ds[..j] + [last] + ds[j + 1..];
      assert multiset(ds) == multiset(ds[..j]) + multiset{last} + multiset(ds[j + 1..]);
      assert multiset(rest) == multiset(ds[..j]) + multiset(ds[j + 1..]);
      assert multiset(cs) == multiset(init) + multiset{last};
      assert multiset(init) == multiset(cs) - multiset{last};
      assert multiset(rest) == multiset(ds) - multiset{last};
      TotalsForPermutation(init, rest, k);
      TotalsForSplice(ds[..j], last, ds[j + 1..], k);
      assert init + [last] == cs;
      TotalsForSplice(init, last, [], k);
      assert init + [] == init;
    }
  }

  /** The order of the connection list does not matter: any reordering of the
      same records aggregates to the same map. */
  lemma {:induction false} AggregatedOrderIrrelevant(cs: seq<Connection>, ds: seq<Connection>)
    requires multiset(cs) == multiset(ds)
    ensures Aggregated(cs) == Aggregated(ds)
  {
    forall k | k in DerivedKeys(cs) ensures k in DerivedKeys(ds) {
      var i :| 0 <= i < |cs| && DeriveKey(cs[i]).Some? && DeriveKey(cs[i]).value == k;
      assert cs[i] in multiset(ds);
      var j :| 0 <= j < |ds| && ds[j] == cs[i];
    }
    forall k | k in DerivedKeys(ds) ensures k in DerivedKeys(cs) {
      var j :| 0 <= j < |ds| && DeriveKey(ds[j]).Some? && DeriveKey(ds[j]).value == k;
      assert ds[j] in multiset(cs);
      var i :| 0 <= i < |cs| && cs[i] == ds[j];
    }
    forall k ensures TotalsFor(cs, k) == TotalsFor(ds, k) {
      TotalsForPermutation(cs, ds, k);
    }
  }

  // ---------------------------------------------------------------------
  // Worked scenarios

  /** Two connections from 10.0.0.1 to a.com through P1, with 100/200 and
      50/10 bytes, aggregate to one key with 150 up and 210 down. */
  lemma {:induction false} TwoRecordsOneKey()
    ensures
      var meta := ConnectionMetadata("10.0.0.1", "93.184.216.34", "a.com");
      var cs := [Connection("c1", meta, 100, 200, ["P1"]), Connection("c2", meta, 50, 10, ["P1"])];
      Aggregated(cs) == map[Key("10.0.0.1", "a.com", "P1") := Totals(150, 210)]
  {
    var meta := ConnectionMetadata("10.0.0.1", "93.184.216.34", "a.com");
    var c1, c2 := Connection("c1", meta, 100, 200, ["P1"]), Connection("c2", meta, 50, 10, ["P1"]);
    var k := Key("10.0.0.1", "a.com", "P1");
    assert DeriveKey(c1) == Some(k) && DeriveKey(c2) == Some(k);
    assert Aggregated([]) == map[];
    AggregatedSnocKept([], c1, k);
    assert [] + [c1] == [c1];
    assert Aggregated([c1]) == map[k := Totals(100, 200)];
    AggregatedSnocKept([c1], c2, k);
    assert [c1] + [c2] == [c1, c2];
  }

  /** Without a host and without a chain, a connection is aggregated under its
      destination address and "DIRECT". */
  lemma {:induction false} NoHostNoChain(src: string, ip: string, up: int, down: int)
    requires src != "" && ip != ""
    ensures
      var c := Connection("c", ConnectionMetadata(src, ip, ""), up, down, []);
      Aggregated([c]) == map[Key(src, ip, "DIRECT") := Totals(up, down)]
  {
    var c := Connection("c", ConnectionMetadata(src, ip, ""), up, down, []);
    AggregatedSnocKept([], c, Key(src, ip, "DIRECT"));
    assert [c] == [] + [c];
    assert Aggregated([]) == map[];
  }

  /** A chain whose last node is empty is skipped even when earlier nodes are
      named. */
  lemma {:induction false} EmptyLastNodeSkipped(src: string, host: string, up: int, down: int)
    ensures
      var c := Connection("c", ConnectionMetadata(src, "", host), up, down, ["P1", ""]);
      Aggregated([c]) == map[]
  {
    var c := Connection("c", ConnectionMetadata(src, "", host), up, down, ["P1", ""]);
    AggregatedSnocSkipped([], c);
    assert [c] == [] + [c];
    assert Aggregated([]) == map[];
  }
}

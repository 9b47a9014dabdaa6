/** Forwarding between transports never runs in circles: there are only three of them. */
module Forwarding {
  import opened Types
  import opened TransportInfos
  import opened Routing

  // ---------- what a chain of forwards does to the bitsets ----------

  /** Neighbours share a transport; a forward skips whoever shares one with the gateway before. */
  predicate ForwardChain(bs: seq<set<nat>>) {
    && (forall i :: 0 <= i < |bs| - 1 ==> bs[i] * bs[i + 1] != {})
    && (forall i :: 0 <= i < |bs| - 2 ==> bs[i] * bs[i + 2] == {})
  }

  /** An inner gateway of a chain has two transports at least. */
  lemma InnerHasTwo(bs: seq<set<nat>>, i: nat) returns (x: nat, y: nat)
    requires ForwardChain(bs) && 0 < i < |bs| - 1
    ensures x != y && x in bs[i] && y in bs[i] && x in bs[i - 1] && y in bs[i + 1]
  {
    assert bs[i - 1] * bs[i - 1 + 1] != {} && bs[i - 1] * bs[i - 1 + 2] == {};
    x :| x in bs[i - 1] * bs[i];
    y :| y in bs[i] * bs[i + 1];
    assert x !in bs[i - 1] * bs[i + 1];
  }

  lemma TwoAndTwoMeet(s: set<nat>, t: set<nat>, a: nat, b: nat, c: nat, d: nat)
    requires s <= {PCIE, UDP, TCP} && t <= {PCIE, UDP, TCP}
    requires a != b && a in s && b in s && c != d && c in t && d in t
    ensures s * t != {}
  {
    assert a == c || a == d || b == c || b == d;
    assert a in s * t || b in s * t;
  }

  lemma ThreeTypesEnd(bs: seq<set<nat>>)
    requires ForwardChain(bs) && forall i :: 0 <= i < |bs| ==> bs[i] <= {PCIE, UDP, TCP}
    ensures |bs| <= 4
  {
    if |bs| > 4 {
      var a, b := InnerHasTwo(bs, 1);
      var c, d := InnerHasTwo(bs, 3);
      assert bs[1] * bs[1 + 2] == {};
      TwoAndTwoMeet(bs[1], bs[3], a, b, c, d);
    }
  }

  lemma NeverTwice(bs: seq<set<nat>>, i: nat, j: nat)
    requires ForwardChain(bs) && |bs| <= 4 && i < j < |bs| && j != i + 1
    ensures bs[i] != bs[j]
  {
    if j == i + 2 {
      assert bs[i] * bs[i + 2] == {};
      assert i + 1 < |bs| - 1 ==> bs[i + 1] * bs[i + 1 + 1] != {};
      assert bs[i] * bs[i + 1] != {};
    } else {
      assert i == 0 && j == 3;
      assert bs[0] * bs[0 + 1] != {} && bs[1] * bs[1 + 2] == {};
    }
  }

  /** With a fourth type chains go round and round: the same claim for four types is false. */
  function Circle(n: nat): (bs: seq<set<nat>>)
    ensures |bs| == n
    ensures forall i :: 0 <= i < n ==> bs[i] == {i % 4, (i + 1) % 4}
  {
    seq(n, i => {i % 4, (i + 1) % 4})
  }

  lemma Mod4(i: nat)
    ensures (i + 4) % 4 == i % 4 && (i + 5) % 4 == (i + 1) % 4
    ensures i % 4 != (i + 2) % 4 && i % 4 != (i + 3) % 4 && (i + 1) % 4 != (i + 2) % 4 && (i + 1) % 4 != (i + 3) % 4
  {}

  lemma FourTypesCircle(n: nat)
    ensures |Circle(n)| == n && ForwardChain(Circle(n))
    ensures forall i :: 0 <= i < n ==> Circle(n)[i] <= {0, 1, 2, 3}
    ensures forall i :: 0 <= i < n - 4 ==> Circle(n)[i] == Circle(n)[i + 4]
  {
    var bs := Circle(n);
    hide Circle;
    forall i: nat | i < n - 1 ensures bs[i] * bs[i + 1] != {} {
      var shared: nat := (i + 1) % 4;
      var both: set<nat> := bs[i] * bs[i + 1];
      assert shared in both;
    }
    forall i: nat | i < n - 2 ensures bs[i] * bs[i + 2] == {} {
      Mod4(i);
    }
    forall i: nat | i < n - 4 ensures bs[i] == bs[i + 4] {
      Mod4(i);
    }
  }

  // ---------- the gateways ----------

  /** Each gateway's view of its own transports and its records of others. `peer` says which
      gateway is behind a device index, for sending and for receiving. */
  datatype Gateways = Gateways(views: seq<View>, records: seq<seq<DeviceRecord>>, peer: map<(nat, DeviceIndex), nat>)
  {
    /** No transport is failing, and records tell the truth: they are of other gateways, with the
        bitset that gateway has and device indices behind which it is. */
    ghost predicate Truthful() {
      && |records| == |views|
      && (forall g :: 0 <= g < |views| ==> views[g].bitset <= {PCIE, UDP, TCP} && views[g].good == views[g].bitset)
      && (forall g: nat, k: nat :: g < |views| && k < |records[g]| ==> TrueRecord(g, k))
    }

    ghost predicate TrueRecord(g: nat, k: nat)
      requires g < |views| && |records| == |views| && k < |records[g]|
    {
      exists h: nat :: RecordOf(g, k, h)
    }

    ghost predicate RecordOf(g: nat, k: nat, h: nat)
      requires g < |views| && |records| == |views| && k < |records[g]|
    {
      && h < |views| && h != g
      && records[g][k].info.gatewayBitset == views[h].bitset
      && (forall d :: d in records[g][k].deviceIndices ==> (g, d) in peer && peer[(g, d)] == h)
    }
  }

  /** A gateway the message has reached, and the device index it came in from there. */
  datatype Hop = Hop(gateway: nat, from: DeviceIndex)

  /** Where the gateway sends it: the publisher's gateway by its own lookup, the others forward. */
  function NextTargets(g: Gateways, hash: ClassHash, hop: Hop, first: bool): seq<DeviceIndex>
    requires hop.gateway < |g.views| == |g.records|
  {
    if first then ComputeDeviceIndices(g.views[hop.gateway], g.records[hop.gateway], hash)
    else ForwardIndices(g.views[hop.gateway], g.records[hop.gateway], hash, hop.from)
  }

  ghost predicate Transmits(g: Gateways, hash: ClassHash, a: Hop, b: Hop, first: bool) {
    && |g.records| == |g.views| && a.gateway < |g.views| && b.gateway < |g.views|
    && (exists d :: d in NextTargets(g, hash, a, first) && (a.gateway, d) in g.peer && g.peer[(a.gateway, d)] == b.gateway)
    && (b.gateway, b.from) in g.peer && g.peer[(b.gateway, b.from)] == a.gateway
  }

  ghost predicate Travels(g: Gateways, hash: ClassHash, hops: seq<Hop>) {
    forall n :: 0 <= n < |hops| - 1 ==> Transmits(g, hash, hops[n], hops[n + 1], n == 0)
  }

  function BitsetsAlong(g: Gateways, hops: seq<Hop>): (bs: seq<set<nat>>)
    requires forall n :: 0 <= n < |hops| ==> hops[n].gateway < |g.views|
    ensures |bs| == |hops|
    ensures forall n :: 0 <= n < |hops| ==> bs[n] == g.views[hops[n].gateway].bitset
  {
    seq(|hops|, n requires 0 <= n < |hops| => g.views[hops[n].gateway].bitset)
  }

  /** A destination is a device of a record, over a type that both gateways have. */
  lemma ContributionShares(g: Gateways, hash: ClassHash, a: nat, k: nat, d: DeviceIndex) returns (h: nat)
    requires g.Truthful() && a < |g.views| && k < |g.records[a]| && d in Contribution(g.views[a], g.records[a][k], hash)
    ensures g.RecordOf(a, k, h) && (a, d) in g.peer && g.peer[(a, d)] == h
    ensures d.transport in g.views[a].bitset * g.views[h].bitset
  {
    assert g.TrueRecord(a, k);
    h :| g.RecordOf(a, k, h);
  }

  /** The receiver knows the sender's bitset, if it knows the sender at all. */
  lemma KnowsSource(g: Gateways, a: nat, b: nat, from: DeviceIndex)
    requires g.Truthful() && a < |g.views| && b < |g.views|
    requires (b, from) in g.peer && g.peer[(b, from)] == a && BitsetFrom(g.records[b], from) != {}
    ensures BitsetFrom(g.records[b], from) == g.views[a].bitset
  {
    BitsetFromRecord(g.records[b], from);
    var k: nat :| k < |g.records[b]| && from in g.records[b][k].deviceIndices
             && g.records[b][k].info.gatewayBitset == BitsetFrom(g.records[b], from);
    assert g.TrueRecord(b, k);
    var h: nat :| g.RecordOf(b, k, h);
  }

  lemma HopShares(g: Gateways, hash: ClassHash, a: Hop, b: Hop, first: bool)
    requires g.Truthful() && Transmits(g, hash, a, b, first)
    ensures a.gateway != b.gateway
    ensures g.views[a.gateway].bitset * g.views[b.gateway].bitset != {}
  {
    hide ComputeDeviceIndices, ForwardTargets, BitsetFrom, Contribution;
    var v, rs := g.views[a.gateway], g.records[a.gateway];
    var d :| d in NextTargets(g, hash, a, first) && (a.gateway, d) in g.peer && g.peer[(a.gateway, d)] == b.gateway;
    var k: nat;
    if first {
      ComputedFrom(v, rs, hash, d);
      k :| k < |rs| && d in Contribution(v, rs[k], hash);
    } else {
      ForwardedFrom(v, rs, hash, BitsetFrom(rs, a.from), d);
      k :| k < |rs| && d in ForwardContribution(v, rs[k], hash, BitsetFrom(rs, a.from));
    }
    var h := ContributionShares(g, hash, a.gateway, k, d);
  }

  lemma ForwardSkips(g: Gateways, hash: ClassHash, z: Hop, a: Hop, b: Hop, first: bool)
    requires g.Truthful() && Transmits(g, hash, z, a, first) && Transmits(g, hash, a, b, false)
    ensures g.views[z.gateway].bitset * g.views[b.gateway].bitset == {}
  {
    hide ForwardTargets, BitsetFrom, Contribution;
    var v, rs := g.views[a.gateway], g.records[a.gateway];
    var d :| d in NextTargets(g, hash, a, false) && (a.gateway, d) in g.peer && g.peer[(a.gateway, d)] == b.gateway;
    KnowsSource(g, z.gateway, a.gateway, a.from);
    var source := BitsetFrom(rs, a.from);
    ForwardedFrom(v, rs, hash, source, d);
    var k: nat :| k < |rs| && d in ForwardContribution(v, rs[k], hash, source);
    var h := ContributionShares(g, hash, a.gateway, k, d);
  }

  /** However many gateways there are: a message is transmitted three times at most, and comes to
      no gateway twice. */
  lemma ForwardingIsLoopFree(g: Gateways, hash: ClassHash, hops: seq<Hop>)
    requires g.Truthful() && Travels(g, hash, hops) && |hops| >= 2
    ensures |hops| <= 4
    ensures forall i, j :: 0 <= i < j < |hops| ==> hops[i].gateway != hops[j].gateway
  {
    hide Gateways.Truthful, Transmits;
    forall n | 0 <= n < |hops| ensures hops[n].gateway < |g.views| {
      assert n < |hops| - 1 ==> Transmits(g, hash, hops[n], hops[n + 1], n == 0);
      assert n > 0 ==> Transmits(g, hash, hops[n - 1], hops[n - 1 + 1], n - 1 == 0);
      HopInRange(g, hash, hops, n);
    }
    var bs := BitsetsAlong(g, hops);
    forall i | 0 <= i < |bs| - 1 ensures bs[i] * bs[i + 1] != {} && hops[i].gateway != hops[i + 1].gateway {
      HopShares(g, hash, hops[i], hops[i + 1], i == 0);
    }
    forall i | 0 <= i < |bs| - 2 ensures bs[i] * bs[i + 2] == {} {
      assert Transmits(g, hash, hops[i + 1], hops[i + 1 + 1], i + 1 == 0);
      ForwardSkips(g, hash, hops[i], hops[i + 1], hops[i + 2], i == 0);
    }
    ThreeTypes(g, hops);
    ThreeTypesEnd(bs);
    forall i, j | 0 <= i < j < |hops| ensures hops[i].gateway != hops[j].gateway {
      if j != i + 1 {
        NeverTwice(bs, i, j);
      }
    }
  }

  lemma HopInRange(g: Gateways, hash: ClassHash, hops: seq<Hop>, n: nat)
    requires n < |hops| && |hops| >= 2
    requires n < |hops| - 1 ==> Transmits(g, hash, hops[n], hops[n + 1], n == 0)
    requires n > 0 ==> Transmits(g, hash, hops[n - 1], hops[n], n - 1 == 0)
    ensures hops[n].gateway < |g.views|
  {}

  lemma ThreeTypes(g: Gateways, hops: seq<Hop>)
    requires g.Truthful() && forall n :: 0 <= n < |hops| ==> hops[n].gateway < |g.views|
    ensures forall n :: 0 <= n < |hops| ==> BitsetsAlong(g, hops)[n] <= {PCIE, UDP, TCP}
  {}
}

/** From the introspection of one gateway to the destinations of another: once discovery has settled, a
    gateway sends a message to exactly the gateways that have a user subscriber for it. */
module RoutedNetwork {
  import opened Types
  import opened Helpers
  import opened TransportInfos
  import opened Routing
  import opened Discovery
  import opened DiscoveryNetwork

  /** Gateway i as the others know it on the one transport. */
  function Address(i: nat): DeviceIndex {
    DeviceIndex(UDP, Wrap32(i))
  }

  /** The record at gateway j is of another gateway of the network, under that one's address. */
  ghost predicate RecordAddressed(w: Network, j: nat, r: DeviceRecord) {
    exists i: nat :: i < |w.nodes| && i != j && IsRecordOf(w, i, r)
  }

  ghost predicate IsRecordOf(w: Network, i: nat, r: DeviceRecord)
    requires i < |w.nodes|
  {
    r.info.gatewayHash == w.nodes[i].hash && r.info.gatewayBitset == w.bits && r.deviceIndices == [Address(i)]
  }

  ghost predicate MessagesAddressed(w: Network) {
    forall i: nat, j: nat, m :: (i, j) in w.chans && m in w.chans[(i, j)] ==> IsMessageOf(w, i, m)
  }

  ghost predicate IsMessageOf(w: Network, i: nat, m: PubSubInfo) {
    i < |w.nodes| && m.gatewayHash == w.nodes[i].hash && m.gatewayBitset == w.bits
  }

  ghost predicate RecordsAddressed(w: Network) {
    forall j: nat, k: nat :: j < |w.nodes| && k < |w.nodes[j].records| ==> RecordAddressed(w, j, w.nodes[j].records[k])
  }

  /** Messages carry their sender's hash and bitset, and records their gateway's address and no other. */
  ghost predicate Addressed(w: Network) {
    MessagesAddressed(w) && RecordsAddressed(w)
  }

  lemma SameNames(w: Network, w': Network, j: nat, r: DeviceRecord)
    requires |w'.nodes| == |w.nodes| && w'.bits == w.bits
    requires forall i :: 0 <= i < |w.nodes| ==> w'.nodes[i].hash == w.nodes[i].hash
    requires RecordAddressed(w, j, r)
    ensures RecordAddressed(w', j, r)
  {
    var i: nat :| i < |w.nodes| && i != j && IsRecordOf(w, i, r);
    assert IsRecordOf(w', i, r);
  }

  lemma StepNames(w: Network, e: Event)
    requires Enabled(w, e)
    ensures var v := After(w, e);
            && |v.nodes| == |w.nodes| && v.bits == w.bits
            && (forall i :: 0 <= i < |w.nodes| ==> v.nodes[i].hash == w.nodes[i].hash)
  {
    hide RecordsAfter, Info, LocalFrom, SameLocal, Announced, Answers;
  }

  lemma ToldAddressed(w: Network, j: nat, n: Node, m: PubSubInfo)
    requires w.Shaped() && MessagesAddressed(w) && j < |w.nodes| && n.hash == w.nodes[j].hash
    requires m.gatewayHash == n.hash && m.gatewayBitset == w.bits
    ensures MessagesAddressed(Put(Broadcast(w, j, m), j, n))
  {
    var v := Broadcast(w, j, m);
    forall a: nat, b: nat, x | (a, b) in v.chans && x in v.chans[(a, b)] ensures IsMessageOf(v, a, x) {
      if x in w.chans[(a, b)] {
        assert IsMessageOf(w, a, x);
      }
    }
    PutAddressed(v, j, n);
  }

  lemma PutAddressed(w: Network, j: nat, n: Node)
    requires MessagesAddressed(w) && j < |w.nodes| && n.hash == w.nodes[j].hash
    ensures MessagesAddressed(Put(w, j, n))
  {
    var v := Put(w, j, n);
    forall a: nat, b: nat, x | (a, b) in v.chans && x in v.chans[(a, b)] ensures IsMessageOf(v, a, x) {
      assert IsMessageOf(w, a, x);
    }
  }

  lemma TakenAddressed(w: Network, i: nat, j: nat)
    requires w.Shaped() && MessagesAddressed(w) && (i, j) in w.chans && w.chans[(i, j)] != []
    ensures MessagesAddressed(w.(chans := w.chans[(i, j) := w.chans[(i, j)][1..]]))
    ensures w.(chans := w.chans[(i, j) := w.chans[(i, j)][1..]]).Shaped()
  {
    var v := w.(chans := w.chans[(i, j) := w.chans[(i, j)][1..]]);
    forall a: nat, b: nat, x | (a, b) in v.chans && x in v.chans[(a, b)] ensures IsMessageOf(v, a, x) {
      assert x in w.chans[(a, b)] && IsMessageOf(w, a, x);
    }
  }

  /** Whatever is sent carries its sender's hash and bitset. */
  lemma StepMessages(w: Network, e: Event)
    requires Enabled(w, e) && MessagesAddressed(w)
    ensures MessagesAddressed(After(w, e))
  {
    hide RecordsAfter, LocalFrom, SameLocal, Announced, Answers, MessagesAddressed, Broadcast, Put;
    match e
    case Start(j, infoHash) =>
      var n := w.nodes[j].(phase := On);
      ToldAddressed(w, j, n, Info(n, w.bits, infoHash));
    case Change(j, sample, infoHash) =>
      var n := Changed(w.nodes[j], sample);
      ToldAddressed(w, j, n, Info(n, w.bits, infoHash));
      PutAddressed(w, j, n);
    case Resend(j, infoHash) =>
      ToldAddressed(w, j, w.nodes[j], Info(w.nodes[j], w.bits, infoHash));
      BroadcastNodes(w, j, Info(w.nodes[j], w.bits, infoHash));
      PutSame(Broadcast(w, j, Info(w.nodes[j], w.bits, infoHash)), w, j);
    case BeginStop(j) => PutAddressed(w, j, w.nodes[j].(phase := Stopping));
    case FinishStop(j, infoHash) =>
      ToldAddressed(w, j, w.nodes[j].(phase := Gone), Info(w.nodes[j], w.bits, infoHash).(isTermination := true));
    case Deliver(i, j, infoHash) =>
      TakenAddressed(w, i, j);
      var n := w.nodes[j];
      var w' := w.(chans := w.chans[(i, j) := w.chans[(i, j)][1..]]);
      if n.Alive() {
        var n' := n.(records := RecordsAfter(n.records, w.chans[(i, j)][0], DeviceIndex(UDP, Wrap32(i))));
        ToldAddressed(w', j, n', Info(n, w.bits, infoHash));
        PutAddressed(w', j, n');
      }
  }

  lemma PutSame(v: Network, w: Network, j: nat)
    requires v.nodes == w.nodes && j < |w.nodes|
    ensures Put(v, j, w.nodes[j]) == v
  {}

  lemma BroadcastNodes(w: Network, j: nat, m: PubSubInfo)
    requires w.Shaped()
    ensures Broadcast(w, j, m).nodes == w.nodes
  {}

  /** What a step does to the records. */
  lemma StepRecords(w: Network, e: Event, j: nat)
    requires Enabled(w, e) && j < |w.nodes|
    ensures j < |After(w, e).nodes|
    ensures After(w, e).nodes[j].records
            == if e.Deliver? && e.j == j && w.nodes[j].Alive()
               then RecordsAfter(w.nodes[j].records, w.chans[(e.i, j)][0], Address(e.i)) else w.nodes[j].records
  {
    hide RecordsAfter, Info, LocalFrom, SameLocal, Announced, Answers;
  }

  lemma RecordKnown(w: Network, j: nat, k: nat)
    requires Addressed(w) && j < |w.nodes| && k < |w.nodes[j].records|
    ensures RecordAddressed(w, j, w.nodes[j].records[k])
  {}

  lemma SmallTable(w: Network, j: nat)
    requires Inv(w) && j < |w.nodes|
    ensures |w.nodes[j].records| <= MAX_DEVICE_COUNT
  {
    hide PairOk, DistinctGateways;
  }

  lemma HeadAddressed(w: Network, i: nat, j: nat)
    requires Addressed(w) && (i, j) in w.chans && w.chans[(i, j)] != []
    ensures i < |w.nodes| && IsMessageOf(w, i, w.chans[(i, j)][0])
  {
    assert w.chans[(i, j)][0] in w.chans[(i, j)];
  }

  /** The record a message leaves behind is its sender's, under its sender's address. */
  lemma DeliveredAddressed(w: Network, i: nat, j: nat, k: nat)
    requires Inv(w) && Addressed(w) && j < |w.nodes| && (i, j) in w.chans && w.chans[(i, j)] != [] && i != j
    requires Room(w.nodes[j].records, w.chans[(i, j)][0])
    requires k < |RecordsAfter(w.nodes[j].records, w.chans[(i, j)][0], Address(i))|
    ensures RecordAddressed(w, j, RecordsAfter(w.nodes[j].records, w.chans[(i, j)][0], Address(i))[k])
  {
    hide Inv, Addressed;
    SmallTable(w, j);
    HeadAddressed(w, i, j);
    var rs, m := w.nodes[j].records, w.chans[(i, j)][0];
    var s := RecordsAfter(rs, m, Address(i));
    if m.isTermination {
      var at := FindRecord(rs, m.gatewayHash);
      assert s[k] == rs[if k < at then k else k + 1];
      RecordKnown(w, j, if k < at then k else k + 1);
    } else {
      IndicesLearnt(rs, m, Address(i));
      hide RecordsAfter;
      var at := FindRecord(rs, m.gatewayHash);
      if k != at {
        RecordKnown(w, j, k);
      } else {
        if at < |rs| {
          OwnRecord(w, i, j, at);
        }
        LearntAddress(if at < |rs| then rs[at].deviceIndices else [], s[at].deviceIndices, i);
        assert IsRecordOf(w, i, s[k]);
      }
    }
  }

  lemma LearntAddress(before: seq<DeviceIndex>, after: seq<DeviceIndex>, i: nat)
    requires Learnt(before, after, Address(i)) && (before == [] || before == [Address(i)])
    ensures after == [Address(i)]
  {
    if before != [] {
      assert before[0].transport in TypesIn(before);
    }
  }

  /** A record with gateway i's hash is gateway i's. */
  lemma OwnRecord(w: Network, i: nat, j: nat, k: nat)
    requires Inv(w) && Addressed(w) && i < |w.nodes| && j < |w.nodes| && k < |w.nodes[j].records|
    requires w.nodes[j].records[k].info.gatewayHash == w.nodes[i].hash
    ensures IsRecordOf(w, i, w.nodes[j].records[k])
  {
    hide PairOk, NodeOk;
    var h: nat :| h < |w.nodes| && h != j && IsRecordOf(w, h, w.nodes[j].records[k]);
    assert h == i;
  }

  lemma StepAddressed(w: Network, e: Event)
    requires Inv(w) && Addressed(w) && Enabled(w, e) && Roomy(w, e)
    ensures Addressed(After(w, e))
  {
    StepNames(w, e);
    StepMessages(w, e);
    var v := After(w, e);
    forall j: nat, k: nat | j < |v.nodes| && k < |v.nodes[j].records| ensures RecordAddressed(v, j, v.nodes[j].records[k]) {
      StepRecords(w, e, j);
      if e.Deliver? && e.j == j && w.nodes[j].Alive() {
        assert e.i != j by { NoneToItself(w, j); }
        DeliveredAddressed(w, e.i, j, k);
      }
      hide After, Inv, RecordsAfter, RecordAddressed;
      SameNames(w, v, j, v.nodes[j].records[k]);
    }
  }

  lemma NoneToItself(w: Network, j: nat)
    requires Inv(w) && j < |w.nodes|
    ensures w.chans[(j, j)] == []
  {
    hide PairOk;
  }

  lemma {:induction false} RunsAddressed(w: Network, es: seq<Event>)
    requires Inv(w) && Addressed(w) && Runs(w, es)
    ensures Inv(End(w, es)) && Addressed(End(w, es)) && End(w, es).bits == w.bits
    decreases |es|
  {
    hide Inv, After, Enabled, Roomy, Addressed;
    if es != [] {
      StepKeeps(w, es[0]);
      StepAddressed(w, es[0]);
      SameBits(w, es[0]);
      RunsAddressed(After(w, es[0]), es[1..]);
    }
  }

  lemma SameBits(w: Network, e: Event)
    requires Enabled(w, e)
    ensures After(w, e).bits == w.bits
  {
    hide RecordsAfter, Info, LocalFrom, SameLocal, Announced, Answers;
  }

  /** The lookup's view of a gateway whose one transport is good. */
  predicate OneTransport(v: View) {
    v.good == {UDP} && v.bitset == {UDP}
  }

  predicate Wants(v: View, services: set<Service>, hash: ClassHash) {
    exists s :: s in services && v.classHash(s) == hash
  }

  lemma WantsSubscribed(v: View, services: seq<Service>, hash: ClassHash)
    ensures Wants(v, Elements(services), hash)
       <==> exists i :: 0 <= i < |services| && v.classHash(services[i]) == hash
  {
    if s :| s in Elements(services) && v.classHash(s) == hash {
      var i :| 0 <= i < |services| && services[i] == s;
    }
  }

  /** A record of gateway i on one transport has its address as destination exactly if it subscribes. */
  lemma RecordReaches(w: Network, v: View, i: nat, r: DeviceRecord, hash: ClassHash, d: DeviceIndex)
    requires i < |w.nodes| && IsRecordOf(w, i, r) && w.bits == {UDP} && OneTransport(v)
    ensures Reaches(v, r, hash, {}, d) <==> d == Address(i) && Wants(v, Elements(r.info.userSubscribers), hash)
  {
    WantsSubscribed(v, r.info.userSubscribers, hash);
    hide Wants, Elements;
    assert r.deviceIndices[0] == Address(i);
    assert {} * r.info.gatewayBitset == {};
  }

  /** What is recorded of gateway i at gateway j decides whether j sends to it. */
  lemma SendsByRecord(w: Network, v: View, i: nat, j: nat, hash: ClassHash)
    requires Inv(w) && Addressed(w) && w.bits == {UDP} && OneTransport(v) && |w.nodes| <= TWO32
    requires i < |w.nodes| && j < |w.nodes|
    ensures var known := Record(w.nodes[j].records, w.nodes[i].hash);
            Address(i) in ComputeDeviceIndices(v, w.nodes[j].records, hash)
            <==> known.Some? && Wants(v, Elements(known.value), hash)
  {
    hide ComputeDeviceIndices, Reaches, Wants, Inv, Addressed, Elements, DestinationsAt;
    var rs := w.nodes[j].records;
    var at := FindRecord(rs, w.nodes[i].hash);
    var d := ComputeDeviceIndices(v, rs, hash);
    WhoReceives(v, rs, hash);
    var from :| DestinationsAt(v, rs, hash, {}, d, from);
    if at < |rs| {
      OwnRecord(w, i, j, at);
      RecordReaches(w, v, i, rs[at], hash, Address(i));
      if Reaches(v, rs[at], hash, {}, Address(i)) {
        CoveredBy(v, rs, hash, {}, d, from, at, Address(i));
        ReachedAt(v, rs, hash, {}, d, from);
        var k :| 0 <= k < |from| && from[k] == at;
        RecordReaches(w, v, i, rs[at], hash, d[k]);
        assert Address(i) == d[k];
      }
    }
    if k :| 0 <= k < |d| && d[k] == Address(i) {
      SentTo(w, v, i, j, hash, d, from, k);
    }
  }

  lemma RecordsDistinct(w: Network, j: nat)
    requires Inv(w) && j < |w.nodes|
    ensures DistinctGateways(w.nodes[j].records)
  {
    hide PairOk, DistinctGateways;
  }

  lemma SentTo(w: Network, v: View, i: nat, j: nat, hash: ClassHash, d: seq<DeviceIndex>, from: seq<nat>, k: nat)
    requires Inv(w) && Addressed(w) && w.bits == {UDP} && OneTransport(v) && |w.nodes| <= TWO32
    requires i < |w.nodes| && j < |w.nodes|
    requires DestinationsAt(v, w.nodes[j].records, hash, {}, d, from) && k < |d| && d[k] == Address(i)
    ensures var at := FindRecord(w.nodes[j].records, w.nodes[i].hash);
            && at < |w.nodes[j].records|
            && Wants(v, Elements(w.nodes[j].records[at].info.userSubscribers), hash)
  {
    hide Reaches, Wants, Inv, Elements, DestinationsAt, Addressed, DistinctGateways, FindRecord;
    var rs := w.nodes[j].records;
    ReachedAt(v, rs, hash, {}, d, from);
    var r := rs[from[k]];
    RecordKnown(w, j, from[k]);
    var h: nat :| h < |w.nodes| && h != j && IsRecordOf(w, h, r);
    RecordReaches(w, v, h, r, hash, d[k]);
    assert Wrap32(h) == h && Wrap32(i) == i;
    RecordsDistinct(w, j);
    FindSame(rs, w.nodes[i].hash, from[k]);
  }

  /** Whatever was started, changed and stopped: once no discovery message is under way, a running gateway
      sends a message of a class to another one if and only if that one is running and the last sample
      of its introspection has a user subscriber for the class. */
  lemma MessagesReachSubscribers(w: Network, es: seq<Event>, v: View, i: nat, j: nat, hash: ClassHash)
    requires Init(w) && Runs(w, es) && Quiet(End(w, es)) && w.bits == {UDP} && |w.nodes| <= TWO32
    requires i < |w.nodes| && j < |w.nodes| && i != j && OneTransport(v) && FewSubscribers(LastSample(es, i))
    ensures |End(w, es).nodes| == |w.nodes|
    ensures var u := End(w, es);
            u.nodes[j].Alive() && u.nodes[i].phase != Stopping ==>
              (Address(i) in ComputeDeviceIndices(v, u.nodes[j].records, hash)
               <==> u.nodes[i].phase == On && Wants(v, SampledServices(LastSample(es, i)), hash))
  {
    hide Inv, Runs, End, ComputeDeviceIndices, Wants, SampledServices, LastSample, FewSubscribers, Addressed, Record, Quiet;
    InitInv(w);
    assert Addressed(w) by { InitAddressed(w); }
    RunsAddressed(w, es);
    PeersKnowSamples(w, es, i, j);
    Convergence(w, es);
    SendsByRecord(End(w, es), v, i, j, hash);
  }

  lemma InitAddressed(w: Network)
    requires Init(w)
    ensures Addressed(w)
  {}
}

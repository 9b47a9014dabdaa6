/** Gateways on one reliable transport with first-in-first-out channels: started, changed and
    stopped at any time. Each gateway does what DiscoveryManager is proved to do. */
module DiscoveryNetwork {
  import opened Types
  import opened Helpers
  import opened Routing
  import opened Discovery

  /** A gateway that is stopping has set its terminate flag but not yet sent its last message; a
      gateway that is started again has a new hash, and so is another gateway here. */
  datatype Phase = Off | On | Stopping | Gone

  datatype Node = Node(phase: Phase, hash: Hash, local: LocalState, lastSent: seq<Service>, records: seq<DeviceRecord>)
  {
    predicate Alive() {
      phase == On || phase == Stopping
    }
  }

  /** What a gateway holds of another one: the subscribers in its record, if there is one. */
  function Record(records: seq<DeviceRecord>, hash: Hash): Option<seq<Service>> {
    var i := FindRecord(records, hash);
    if i < |records| then Some(records[i].info.userSubscribers) else None
  }

  function Info(n: Node, bits: Bitset, infoHash: Hash): PubSubInfo {
    PubSubInfo(Announced(n.local.userSubscribers), bits, n.hash, infoHash, false)
  }

  /** `chans[(i, j)]` are the messages under way from gateway i to gateway j, oldest first. */
  datatype Network = Network(bits: Bitset, nodes: seq<Node>, chans: map<(nat, nat), seq<PubSubInfo>>)
  {
    predicate Shaped() {
      && (forall i: nat, j: nat :: i < |nodes| && j < |nodes| ==> (i, j) in chans)
      && (forall p :: p in chans ==> p.0 < |nodes| && p.1 < |nodes|)
    }
  }

  datatype Event =
    | Start(j: nat, infoHash: Hash)
    | Change(j: nat, sample: Option<PortSample>, infoHash: Hash)
    | Resend(j: nat, infoHash: Hash)
    | BeginStop(j: nat)
    | FinishStop(j: nat, infoHash: Hash)
    | Deliver(i: nat, j: nat, infoHash: Hash)

  predicate Enabled(w: Network, e: Event) {
    w.Shaped() &&
    match e
    case Start(j, _) => j < |w.nodes| && w.nodes[j].phase == Off
    case Change(j, _, _) => j < |w.nodes| && w.nodes[j].Alive()
    case Resend(j, _) => j < |w.nodes| && w.nodes[j].phase == On
    case BeginStop(j) => j < |w.nodes| && w.nodes[j].phase == On
    case FinishStop(j, _) => j < |w.nodes| && w.nodes[j].phase == Stopping
    case Deliver(i, j, _) => (i, j) in w.chans && w.chans[(i, j)] != []
  }

  /** A gateway that is not running is not reached. */
  function Send(to: Node, chan: seq<PubSubInfo>, m: PubSubInfo): seq<PubSubInfo> {
    if to.Alive() then chan + [m] else chan
  }

  function Broadcast(w: Network, j: nat, m: PubSubInfo): Network
    requires w.Shaped()
  {
    w.(chans := map p | p in w.chans :: if p.0 == j && p.1 != j then Send(w.nodes[p.1], w.chans[p], m) else w.chans[p])
  }

  function Put(w: Network, j: nat, n: Node): Network
    requires j < |w.nodes|
  {
    w.(nodes := w.nodes[j := n])
  }

  /** readPortSubscriber: see DiscoveryManager.ReadPortSubscriber. */
  function Changed(n: Node, sample: Option<PortSample>): Node {
    var now := LocalFrom(sample);
    if SameLocal(n.local, now) then n.(local := now) else n.(local := now, lastSent := Announced(now.userSubscribers))
  }

  /** A peer seen for the first time is answered, unless the gateway is stopping. */
  predicate Answers(n: Node, m: PubSubInfo) {
    !m.isTermination && Record(n.records, m.gatewayHash) == None && n.phase == On
  }

  // ---------- each step of a gateway is what the discovery manager does ----------

  ghost function NodeOf(m: DiscoveryManager, phase: Phase): Node
    reads m
  {
    Node(phase, m.gatewayHash, m.local, m.lastSent, m.records)
  }

  /** What the manager calls its present state is what a node here sends. */
  lemma CurrentIsInfo(m: DiscoveryManager, phase: Phase, info: PubSubInfo)
    ensures m.Current(info) <==> info == Info(NodeOf(m, phase), m.transportInfo.bitset, info.infoHash)
  {}

  method ChangeOf(m: DiscoveryManager, ghost phase: Phase, sample: Option<PortSample>)
    requires m.Valid()
    modifies m`local, m`lastSent, m`updates, m`failures, m.transportInfo`bitset, m.transportInfo.Objects(), m.cache
    ensures m.Valid() && NodeOf(m, phase) == Changed(old(NodeOf(m, phase)), sample)
    ensures m.lastSent != old(m.lastSent) && !m.terminating ==> m.AllCurrent()
    ensures m.lastSent == old(m.lastSent) ==> forall t :: t in m.transportInfo.Objects() ==> unchanged(t)
  {
    hide DiscoveryManager.Valid, DiscoveryManager.AllCurrent, LocalFrom, SameLocal, Announced;
    m.ReadPortSubscriber(sample);
  }

  method DeliverTo(m: DiscoveryManager, ghost phase: Phase, info: PubSubInfo, from: DeviceIndex)
    requires m.Valid() && (phase == On <==> !m.terminating)
    modifies m`records, m`goneSince, m`updates, m`failures, m.transportInfo`bitset, m.transportInfo.Objects(), m.cache
    ensures m.Valid() && NodeOf(m, phase) == old(NodeOf(m, phase)).(records := RecordsAfter(old(m.records), info, from))
    ensures Answers(old(NodeOf(m, phase)), info) ==> m.AllCurrent()
    ensures !Answers(old(NodeOf(m, phase)), info) ==> forall t :: t in m.transportInfo.Objects() ==> unchanged(t)
  {
    hide DiscoveryManager.Valid, DiscoveryManager.AllCurrent;
    if info.isTermination {
      m.ReceiveTermination(info, from);
    } else {
      m.ReceiveInfo(info, from);
    }
  }

  function After(w: Network, e: Event): Network
    requires Enabled(w, e)
  {
    match e
    case Start(j, infoHash) =>
      var n := w.nodes[j].(phase := On);
      Put(Broadcast(w, j, Info(n, w.bits, infoHash)), j, n)
    case Change(j, sample, infoHash) =>
      var n := Changed(w.nodes[j], sample);
      Put(if n.lastSent != w.nodes[j].lastSent then Broadcast(w, j, Info(n, w.bits, infoHash)) else w, j, n)
    case Resend(j, infoHash) => Broadcast(w, j, Info(w.nodes[j], w.bits, infoHash))
    case BeginStop(j) => Put(w, j, w.nodes[j].(phase := Stopping))
    case FinishStop(j, infoHash) =>
      Put(Broadcast(w, j, Info(w.nodes[j], w.bits, infoHash).(isTermination := true)), j, w.nodes[j].(phase := Gone))
    case Deliver(i, j, infoHash) =>
      var m, n := w.chans[(i, j)][0], w.nodes[j];
      var w' := w.(chans := w.chans[(i, j) := w.chans[(i, j)][1..]]);
      if !n.Alive() then w'
      else
        var n' := n.(records := RecordsAfter(n.records, m, DeviceIndex(UDP, Wrap32(i))));
        Put(if Answers(n, m) then Broadcast(w', j, Info(n, w.bits, infoHash)) else w', j, n')
  }

  /** A first message finds room for a record of its sender. */
  ghost predicate Roomy(w: Network, e: Event)
    requires Enabled(w, e)
  {
    e.Deliver? && w.nodes[e.j].Alive() ==> Room(w.nodes[e.j].records, w.chans[(e.i, e.j)][0])
  }

  /** The gateway whose event this is, if the event is one at which it tells the others its state. */
  ghost predicate Announces(w: Network, e: Event, j: nat)
    requires Enabled(w, e)
  {
    match e
    case Start(i, _) => i == j
    case Resend(i, _) => i == j
    case FinishStop(i, _) => i == j
    case Change(i, sample, _) => i == j && Changed(w.nodes[j], sample).lastSent != w.nodes[j].lastSent
    case _ => false
  }

  /** Then every other running gateway gets one more message, with the hash, the bitset and the present
      subscribers, each once; the last one of a gateway says so. */
  lemma Announcement(w: Network, e: Event, j: nat, k: nat)
    requires Enabled(w, e) && j < |w.nodes| && k < |w.nodes| && j != k && Announces(w, e, j) && w.nodes[k].Alive()
    requires |After(w, e).nodes[j].local.userSubscribers| <= MAX_TOPICS
    ensures var before, after := w.chans[(j, k)], After(w, e).chans[(j, k)];
            && |after| == |before| + 1 && before <= after
            && var m := after[|before|];
            && m.gatewayHash == w.nodes[j].hash && m.gatewayBitset == w.bits && (m.isTermination <==> e.FinishStop?)
            && NoDuplicates(m.userSubscribers)
            && Elements(m.userSubscribers) == Elements(After(w, e).nodes[j].local.userSubscribers)
  {
    AnnouncedElements(After(w, e).nodes[j].local.userSubscribers);
    hide Announced, Elements, NoDuplicates, LocalFrom, SameLocal;
  }

  // ---------- the invariant ----------

  ghost predicate NodeOk(n: Node) {
    && (n.phase == Off ==> n.records == [])
    && DistinctGateways(n.records) && |n.records| <= MAX_DEVICE_COUNT
    && |n.local.userSubscribers| <= MAX_TOPICS
    && Elements(n.lastSent) == Elements(n.local.userSubscribers)
  }

  /** What holds between gateway `a` and what gateway `b` knows of it. Messages are in order, the
      termination last; the last message, or the record once all are delivered, is up to date;
      and `b` knows a running `a`, or is about to, or `a` is about to answer it. */
  ghost predicate PairOk(a: Node, b: Node, ab: seq<PubSubInfo>, ba: seq<PubSubInfo>) {
    && (a.phase == Off ==> ab == [] && Record(b.records, a.hash) == None)
    && (b.phase == Off ==> ab == [])
    && (forall k :: 0 <= k < |ab| ==>
          ab[k].gatewayHash == a.hash && (ab[k].isTermination ==> a.phase == Gone && k == |ab| - 1))
    && (b.Alive() && ab != [] ==> UpToDate(a, ab[|ab| - 1]))
    && (b.Alive() && ab == [] ==>
          && (a.Alive() && Record(b.records, a.hash).Some? ==>
                Elements(Record(b.records, a.hash).value) == Elements(a.local.userSubscribers))
          && (a.phase == Gone ==> Record(b.records, a.hash) == None))
    && (a.phase == On && b.Alive() ==>
          || Record(b.records, a.hash).Some?
          || ab != []
          || (ba != [] && Record(a.records, b.hash) == None))
  }

  ghost predicate UpToDate(a: Node, m: PubSubInfo) {
    && (a.Alive() ==> !m.isTermination && Elements(m.userSubscribers) == Elements(a.local.userSubscribers))
    && (a.phase == Gone ==> m.isTermination)
  }

  ghost predicate BothOk(a: Node, b: Node, ab: seq<PubSubInfo>, ba: seq<PubSubInfo>) {
    PairOk(a, b, ab, ba) && PairOk(b, a, ba, ab)
  }

  ghost predicate Inv(w: Network) {
    && w.Shaped()
    && (forall i, j :: 0 <= i < j < |w.nodes| ==> w.nodes[i].hash != w.nodes[j].hash)
    && (forall i :: 0 <= i < |w.nodes| ==> NodeOk(w.nodes[i]) && w.chans[(i, i)] == [])
    && (forall i: nat, j: nat :: i < |w.nodes| && j < |w.nodes| && i != j ==>
          PairOk(w.nodes[i], w.nodes[j], w.chans[(i, j)], w.chans[(j, i)]))
  }

  // ---------- pairs of gateways, one kind of change each ----------

  lemma {:induction false} FindSame(records: seq<DeviceRecord>, hash: Hash, i: nat)
    requires DistinctGateways(records) && i < |records| && records[i].info.gatewayHash == hash
    ensures FindRecord(records, hash) == i
  {}

  /** A message for which there is room decides what is recorded of its sender, and nothing else. */
  lemma RecordAfter(records: seq<DeviceRecord>, m: PubSubInfo, from: DeviceIndex, hash: Hash)
    requires DistinctGateways(records) && |records| <= MAX_DEVICE_COUNT && Room(records, m)
    ensures DistinctGateways(RecordsAfter(records, m, from)) && |RecordsAfter(records, m, from)| <= MAX_DEVICE_COUNT
    ensures Record(RecordsAfter(records, m, from), hash)
            == if hash != m.gatewayHash then Record(records, hash)
               else if m.isTermination then None else Some(m.userSubscribers)
  {
    RecordsAfterMeaning(records, m, from);
    hide RecordsAfter;
    var s := RecordsAfter(records, m, from);
    var i, i' := FindRecord(records, hash), FindRecord(s, hash);
    if hash != m.gatewayHash {
      if i < |records| {
        assert records[i] in s;
      }
      if i' < |s| {
        assert s[i'] in records;
        var k :| 0 <= k < |records| && records[k] == s[i'];
        FindSame(records, hash, k);
      }
    } else if !m.isTermination {
      var j :| 0 <= j < |s| && s[j].info == m;
      FindSame(s, hash, j);
    }
  }

  /** `a` sends a message that is up to date; it may be stopping with it. */
  lemma SendKeeps(a: Node, b: Node, ab: seq<PubSubInfo>, ba: seq<PubSubInfo>, a': Node, m: PubSubInfo)
    requires BothOk(a, b, ab, ba) && a.Alive() && (a'.phase == a.phase || (a.phase == Stopping && a'.phase == Gone))
    requires a'.hash == a.hash == m.gatewayHash && a'.records == a.records && UpToDate(a', m)
    ensures BothOk(a', b, Send(b, ab, m), ba)
  {
    hide Record, Elements;
    assert PairOk(b, a', ba, Send(b, ab, m));
  }

  /** `a` changes nothing the others can see; it may be stopping. */
  lemma QuietKeeps(a: Node, b: Node, ab: seq<PubSubInfo>, ba: seq<PubSubInfo>, a': Node)
    requires BothOk(a, b, ab, ba) && a.Alive() && (a'.phase == a.phase || (a.phase == On && a'.phase == Stopping))
    requires a'.hash == a.hash && Record(a'.records, b.hash) == Record(a.records, b.hash)
    requires Elements(a'.local.userSubscribers) == Elements(a.local.userSubscribers)
    ensures BothOk(a', b, ab, ba)
  {
    hide Record, Elements;
  }

  lemma StartKeeps(a: Node, b: Node, ab: seq<PubSubInfo>, ba: seq<PubSubInfo>, a': Node, m: PubSubInfo)
    requires BothOk(a, b, ab, ba) && a.phase == Off && a.records == [] && a' == a.(phase := On)
    requires m.gatewayHash == a.hash && UpToDate(a', m)
    ensures BothOk(a', b, Send(b, ab, m), ba)
  {
    hide Elements;
  }

  /** The oldest message of `a` reaches `b`, which may answer. */
  lemma DeliverKeeps(a: Node, b: Node, ab: seq<PubSubInfo>, ba: seq<PubSubInfo>, b': Node, from: DeviceIndex, answer: PubSubInfo)
    requires BothOk(a, b, ab, ba) && ab != [] && b.Alive() && NodeOk(b) && Room(b.records, ab[0])
    requires b' == b.(records := RecordsAfter(b.records, ab[0], from))
    requires answer.gatewayHash == b.hash && UpToDate(b, answer)
    ensures BothOk(a, b', ab[1..], if Answers(b, ab[0]) then Send(a, ba, answer) else ba)
  {
    hide Elements, RecordsAfter, DistinctGateways;
    RecordAfter(b.records, ab[0], from, a.hash);
    hide Record;
    DeliveredForth(a, b, ab, ba, b', if Answers(b, ab[0]) then Send(a, ba, answer) else ba);
    DeliveredBack(a, b, ab, ba, b', answer);
  }

  lemma DeliveredForth(a: Node, b: Node, ab: seq<PubSubInfo>, ba: seq<PubSubInfo>, b': Node, ba': seq<PubSubInfo>)
    requires PairOk(a, b, ab, ba) && ab != [] && b.Alive() && b' == b.(records := b'.records)
    requires Record(b'.records, a.hash) == if ab[0].isTermination then None else Some(ab[0].userSubscribers)
    ensures PairOk(a, b', ab[1..], ba')
  {
    hide Elements, Record;
  }

  lemma DeliveredBack(a: Node, b: Node, ab: seq<PubSubInfo>, ba: seq<PubSubInfo>, b': Node, answer: PubSubInfo)
    requires BothOk(a, b, ab, ba) && ab != [] && b.Alive() && b' == b.(records := b'.records)
    requires Record(b'.records, a.hash) == if ab[0].isTermination then None else Some(ab[0].userSubscribers)
    requires answer.gatewayHash == b.hash && UpToDate(b, answer)
    ensures PairOk(b', a, if Answers(b, ab[0]) then Send(a, ba, answer) else ba, ab[1..])
  {
    hide Elements, Record;
  }

  lemma DropKeeps(a: Node, b: Node, ab: seq<PubSubInfo>, ba: seq<PubSubInfo>)
    requires BothOk(a, b, ab, ba) && ab != [] && !b.Alive()
    ensures BothOk(a, b, ab[1..], ba)
  {
    hide Record, Elements;
  }

  // ---------- every event keeps the invariant ----------

  /** Only gateway j and its channels changed. */
  ghost predicate ChangedAt(w: Network, w': Network, j: nat) {
    && w.Shaped() && w'.Shaped() && |w'.nodes| == |w.nodes| && j < |w.nodes|
    && (forall k :: 0 <= k < |w.nodes| && k != j ==> w'.nodes[k] == w.nodes[k])
    && (forall k: nat, l: nat :: k < |w.nodes| && l < |w.nodes| && (k == l || (k != j && l != j)) ==>
          w'.chans[(k, l)] == w.chans[(k, l)])
  }

  lemma ChangedPair(w: Network, w': Network, j: nat, i: nat, k: nat)
    requires Inv(w) && ChangedAt(w, w', j) && i < |w.nodes| && k < |w.nodes| && i != k
    requires i == j ==> BothOk(w'.nodes[j], w.nodes[k], w'.chans[(j, k)], w'.chans[(k, j)])
    requires k == j ==> BothOk(w'.nodes[j], w.nodes[i], w'.chans[(j, i)], w'.chans[(i, j)])
    ensures PairOk(w'.nodes[i], w'.nodes[k], w'.chans[(i, k)], w'.chans[(k, i)])
  {
    hide PairOk, NodeOk;
  }

  lemma ChangedOthers(w: Network, w': Network, j: nat)
    requires Inv(w) && ChangedAt(w, w', j) && w'.nodes[j].hash == w.nodes[j].hash && NodeOk(w'.nodes[j])
    ensures forall i :: 0 <= i < |w'.nodes| ==> w'.nodes[i].hash == w.nodes[i].hash
    ensures forall i :: 0 <= i < |w'.nodes| ==> NodeOk(w'.nodes[i]) && w'.chans[(i, i)] == []
  {
    hide PairOk, NodeOk;
  }

  lemma ChangeAtKeeps(w: Network, w': Network, j: nat)
    requires Inv(w) && ChangedAt(w, w', j)
    requires w'.nodes[j].hash == w.nodes[j].hash && NodeOk(w'.nodes[j])
    requires forall k: nat :: k < |w.nodes| && k != j ==>
               BothOk(w'.nodes[j], w.nodes[k], w'.chans[(j, k)], w'.chans[(k, j)])
    ensures Inv(w')
  {
    hide PairOk, NodeOk, BothOk;
    ChangedOthers(w, w', j);
    forall i: nat, k: nat | i < |w.nodes| && k < |w.nodes| && i != k
      ensures PairOk(w'.nodes[i], w'.nodes[k], w'.chans[(i, k)], w'.chans[(k, i)])
    {
      ChangedPair(w, w', j, i, k);
    }
  }

  lemma BroadcastShape(w: Network, j: nat, n: Node, m: PubSubInfo)
    requires w.Shaped() && j < |w.nodes|
    ensures ChangedAt(w, Put(Broadcast(w, j, m), j, n), j)
    ensures var w' := Put(Broadcast(w, j, m), j, n);
            && w'.nodes[j] == n
            && forall k: nat :: k < |w.nodes| && k != j ==>
                 w'.chans[(j, k)] == Send(w.nodes[k], w.chans[(j, k)], m) && w'.chans[(k, j)] == w.chans[(k, j)]
  {}

  lemma BroadcastKeeps(w: Network, j: nat, n: Node, m: PubSubInfo)
    requires Inv(w) && j < |w.nodes| && NodeOk(n)
    requires w.nodes[j].Alive() && (n.phase == w.nodes[j].phase || (w.nodes[j].phase == Stopping && n.phase == Gone))
    requires n.hash == w.nodes[j].hash == m.gatewayHash && n.records == w.nodes[j].records && UpToDate(n, m)
    ensures Inv(Put(Broadcast(w, j, m), j, n))
  {
    hide PairOk, NodeOk;
    var w' := Put(Broadcast(w, j, m), j, n);
    BroadcastShape(w, j, n, m);
    hide Put, Broadcast;
    forall k: nat | k < |w.nodes| && k != j
      ensures BothOk(n, w.nodes[k], w'.chans[(j, k)], w'.chans[(k, j)])
    {
      SendKeeps(w.nodes[j], w.nodes[k], w.chans[(j, k)], w.chans[(k, j)], n, m);
    }
    ChangeAtKeeps(w, w', j);
  }

  lemma PutKeeps(w: Network, j: nat, n: Node)
    requires Inv(w) && j < |w.nodes| && NodeOk(n)
    requires w.nodes[j].Alive() && (n.phase == w.nodes[j].phase || (w.nodes[j].phase == On && n.phase == Stopping))
    requires n.hash == w.nodes[j].hash && n.records == w.nodes[j].records
    requires Elements(n.local.userSubscribers) == Elements(w.nodes[j].local.userSubscribers)
    ensures Inv(Put(w, j, n))
  {
    hide PairOk, NodeOk;
    forall k: nat | k < |w.nodes| && k != j ensures BothOk(n, w.nodes[k], w.chans[(j, k)], w.chans[(k, j)]) {
      QuietKeeps(w.nodes[j], w.nodes[k], w.chans[(j, k)], w.chans[(k, j)], n);
    }
    ChangeAtKeeps(w, Put(w, j, n), j);
  }

  lemma InfoUpToDate(n: Node, bits: Bitset, infoHash: Hash)
    requires |n.local.userSubscribers| <= MAX_TOPICS
    ensures n.Alive() ==> UpToDate(n, Info(n, bits, infoHash))
    ensures n.phase == Gone ==> UpToDate(n, Info(n, bits, infoHash).(isTermination := true))
  {
    AnnouncedElements(n.local.userSubscribers);
  }

  lemma StartStep(w: Network, e: Event)
    requires Inv(w) && Enabled(w, e) && e.Start?
    ensures Inv(After(w, e))
  {
    hide PairOk;
    var j := e.j;
    var n := w.nodes[j].(phase := On);
    var m := Info(n, w.bits, e.infoHash);
    var w' := Put(Broadcast(w, j, m), j, n);
    InfoUpToDate(n, w.bits, e.infoHash);
    BroadcastShape(w, j, n, m);
    hide Put, Broadcast;
    forall k: nat | k < |w.nodes| && k != j
      ensures BothOk(n, w.nodes[k], w'.chans[(j, k)], w'.chans[(k, j)])
    {
      StartKeeps(w.nodes[j], w.nodes[k], w.chans[(j, k)], w.chans[(k, j)], n, m);
    }
    ChangeAtKeeps(w, w', j);
  }

  /** The subscribers last announced are the subscribers there are, before and after. */
  lemma ChangedOk(n: Node, sample: Option<PortSample>)
    requires NodeOk(n)
    ensures NodeOk(Changed(n, sample)) || Changed(n, sample).phase == Off
    ensures Changed(n, sample).lastSent == n.lastSent ==>
              Elements(Changed(n, sample).local.userSubscribers) == Elements(n.local.userSubscribers)
  {
    hide DistinctGateways, Elements;
    var now := LocalFrom(sample);
    if SameLocal(n.local, now) {
      SameElements(n.local.userSubscribers, now.userSubscribers);
    } else {
      AnnouncedElements(now.userSubscribers);
    }
  }

  lemma ChangeStep(w: Network, e: Event)
    requires Inv(w) && Enabled(w, e) && e.Change?
    ensures Inv(After(w, e))
  {
    hide PairOk, Changed, Put, Broadcast;
    var n := w.nodes[e.j];
    var n' := Changed(n, e.sample);
    ChangedOk(n, e.sample);
    ChangedSame(n, e.sample);
    if n'.lastSent != n.lastSent {
      InfoUpToDate(n', w.bits, e.infoHash);
      BroadcastKeeps(w, e.j, n', Info(n', w.bits, e.infoHash));
    } else {
      PutKeeps(w, e.j, n');
    }
  }

  lemma ChangedSame(n: Node, sample: Option<PortSample>)
    ensures var n' := Changed(n, sample); n'.phase == n.phase && n'.hash == n.hash && n'.records == n.records
  {}

  lemma ResendStep(w: Network, e: Event)
    requires Inv(w) && Enabled(w, e) && e.Resend?
    ensures Inv(After(w, e))
  {
    hide PairOk, Info;
    var n := w.nodes[e.j];
    InfoUpToDate(n, w.bits, e.infoHash);
    InfoHash(n, w.bits, e.infoHash);
    BroadcastKeeps(w, e.j, n, Info(n, w.bits, e.infoHash));
    assert Put(After(w, e), e.j, n) == After(w, e);
  }

  lemma InfoHash(n: Node, bits: Bitset, infoHash: Hash)
    ensures Info(n, bits, infoHash).gatewayHash == n.hash
  {}

  lemma StopSteps(w: Network, e: Event)
    requires Inv(w) && Enabled(w, e) && (e.BeginStop? || e.FinishStop?)
    ensures Inv(After(w, e))
  {
    hide PairOk, Broadcast, Put, Info;
    var n := w.nodes[e.j];
    match e
    case BeginStop(j) =>
      PutKeeps(w, j, n.(phase := Stopping));
    case FinishStop(j, infoHash) =>
      var n' := n.(phase := Gone);
      InfoUpToDate(n', w.bits, infoHash);
      InfoHash(n, w.bits, infoHash);
      InfoOf(n, n', w.bits, infoHash);
      BroadcastKeeps(w, j, n', Info(n, w.bits, infoHash).(isTermination := true));
  }

  lemma InfoOf(n: Node, n': Node, bits: Bitset, infoHash: Hash)
    requires n.local == n'.local && n.hash == n'.hash
    ensures Info(n, bits, infoHash) == Info(n', bits, infoHash)
  {}

  /** Pairs with a third gateway: it sees an answer at most. */
  lemma BystanderKeeps(a: Node, b: Node, ab: seq<PubSubInfo>, ba: seq<PubSubInfo>, a': Node, m: PubSubInfo, from: DeviceIndex,
                       answers: bool, answer: PubSubInfo)
    requires BothOk(a, b, ab, ba) && a.Alive() && NodeOk(a) && Room(a.records, m) && m.gatewayHash != b.hash
    requires a' == a.(records := RecordsAfter(a.records, m, from))
    requires answer.gatewayHash == a.hash && UpToDate(a, answer)
    ensures BothOk(a', b, if answers then Send(b, ab, answer) else ab, ba)
  {
    hide PairOk;
    RecordAfter(a.records, m, from, b.hash);
    if answers {
      SendKeeps(a, b, ab, ba, a, answer);
    }
    QuietKeeps(a, b, if answers then Send(b, ab, answer) else ab, ba, a');
  }

  lemma DeliverShape(w: Network, e: Event)
    requires Enabled(w, e) && e.Deliver? && e.i != e.j && w.nodes[e.j].Alive()
    ensures ChangedAt(w, After(w, e), e.j)
    ensures var m, n := w.chans[(e.i, e.j)][0], w.nodes[e.j];
            var answer := Info(n, w.bits, e.infoHash);
            && After(w, e).nodes[e.j] == n.(records := RecordsAfter(n.records, m, DeviceIndex(UDP, Wrap32(e.i))))
            && After(w, e).chans[(e.i, e.j)] == w.chans[(e.i, e.j)][1..]
            && (forall k: nat :: k < |w.nodes| && k != e.j ==>
                  After(w, e).chans[(e.j, k)]
                  == if Answers(n, m) then Send(w.nodes[k], w.chans[(e.j, k)], answer) else w.chans[(e.j, k)])
            && (forall k: nat :: k < |w.nodes| && k != e.j && k != e.i ==> After(w, e).chans[(k, e.j)] == w.chans[(k, e.j)])
  {
    hide RecordsAfter, Answers, Info;
  }

  lemma DropShape(w: Network, e: Event)
    requires Enabled(w, e) && e.Deliver? && e.i != e.j && !w.nodes[e.j].Alive()
    ensures After(w, e).nodes == w.nodes && ChangedAt(w, After(w, e), e.j)
    ensures After(w, e).chans == w.chans[(e.i, e.j) := w.chans[(e.i, e.j)][1..]]
  {
    hide RecordsAfter, Answers, Info;
  }

  lemma DropStep(w: Network, e: Event)
    requires Inv(w) && Enabled(w, e) && e.Deliver? && !w.nodes[e.j].Alive()
    ensures Inv(After(w, e))
  {
    hide PairOk, NodeOk;
    DropShape(w, e);
    hide After;
    var i, j, w' := e.i, e.j, After(w, e);
    forall k: nat | k < |w.nodes| && k != j
      ensures BothOk(w'.nodes[j], w.nodes[k], w'.chans[(j, k)], w'.chans[(k, j)])
    {
      if k == i {
        DropKeeps(w.nodes[i], w.nodes[j], w.chans[(i, j)], w.chans[(j, i)]);
      }
    }
    ChangeAtKeeps(w, w', j);
  }

  lemma DeliverAliveStep(w: Network, e: Event)
    requires Inv(w) && Enabled(w, e) && Roomy(w, e) && e.Deliver? && w.nodes[e.j].Alive()
    ensures Inv(After(w, e))
  {
    hide PairOk, Elements, Announced, Answers, Room;
    var i, j := e.i, e.j;
    var w', n, m := After(w, e), w.nodes[j], w.chans[(i, j)][0];
    var from, answer := DeviceIndex(UDP, Wrap32(i)), Info(n, w.bits, e.infoHash);
    DeliverShape(w, e);
    InfoUpToDate(n, w.bits, e.infoHash);
    RecordAfter(n.records, m, from, m.gatewayHash);
    SenderIs(w, i, j);
    hide RecordsAfter, After, DistinctGateways;
    forall k: nat | k < |w.nodes| && k != j
      ensures BothOk(w'.nodes[j], w.nodes[k], w'.chans[(j, k)], w'.chans[(k, j)])
    {
      if k == i {
        DeliverKeeps(w.nodes[i], n, w.chans[(i, j)], w.chans[(j, i)], w'.nodes[j], from, answer);
      } else {
        BystanderKeeps(n, w.nodes[k], w.chans[(j, k)], w.chans[(k, j)], w'.nodes[j], m, from, Answers(n, m), answer);
      }
    }
    ChangeAtKeeps(w, w', j);
  }

  lemma SenderIs(w: Network, i: nat, j: nat)
    requires Inv(w) && i < |w.nodes| && j < |w.nodes| && i != j && w.chans[(i, j)] != []
    ensures w.chans[(i, j)][0].gatewayHash == w.nodes[i].hash
    ensures forall k :: 0 <= k < |w.nodes| && k != i ==> w.nodes[k].hash != w.nodes[i].hash
  {
    assert PairOk(w.nodes[i], w.nodes[j], w.chans[(i, j)], w.chans[(j, i)]);
  }

  lemma StepKeeps(w: Network, e: Event)
    requires Inv(w) && Enabled(w, e) && Roomy(w, e)
    ensures Inv(After(w, e))
  {
    hide Inv, After, Room;
    match e
    case Start(_, _) => StartStep(w, e);
    case Change(_, _, _) => ChangeStep(w, e);
    case Deliver(_, _, _) =>
      if w.nodes[e.j].Alive() {
        DeliverAliveStep(w, e);
      } else {
        DropStep(w, e);
      }
    case Resend(_, _) => ResendStep(w, e);
    case _ => StopSteps(w, e);
  }

  // ---------- runs, and what they converge to ----------

  /** Nothing started, nothing sent; every gateway has its own hash. */
  ghost predicate Init(w: Network) {
    && w.Shaped()
    && (forall p :: p in w.chans ==> w.chans[p] == [])
    && (forall i, j :: 0 <= i < j < |w.nodes| ==> w.nodes[i].hash != w.nodes[j].hash)
    && (forall i :: 0 <= i < |w.nodes| ==>
          w.nodes[i] == Node(Off, w.nodes[i].hash, LocalState([], [], []), [], []))
  }

  /** Any run. */
  ghost predicate AnyRuns(w: Network, es: seq<Event>)
    decreases |es|
  {
    es == [] || (Enabled(w, es[0]) && AnyRuns(After(w, es[0]), es[1..]))
  }

  ghost function AnyEnd(w: Network, es: seq<Event>): Network
    requires AnyRuns(w, es)
    decreases |es|
  {
    if es == [] then w else AnyEnd(After(w, es[0]), es[1..])
  }

  /** A run in which each first message finds room. */
  ghost predicate Runs(w: Network, es: seq<Event>)
    decreases |es|
  {
    es == [] || (Enabled(w, es[0]) && Roomy(w, es[0]) && Runs(After(w, es[0]), es[1..]))
  }

  ghost function End(w: Network, es: seq<Event>): Network
    requires Runs(w, es)
    decreases |es|
  {
    if es == [] then w else End(After(w, es[0]), es[1..])
  }

  lemma InitInv(w: Network)
    requires Init(w)
    ensures Inv(w)
  {}

  lemma {:induction false} RunsInv(w: Network, es: seq<Event>)
    requires Inv(w) && Runs(w, es)
    ensures Inv(End(w, es))
    decreases |es|
  {
    hide Inv, After, Enabled, Roomy;
    if es != [] {
      StepKeeps(w, es[0]);
      RunsInv(After(w, es[0]), es[1..]);
    }
  }

  ghost predicate Quiet(w: Network) {
    forall p :: p in w.chans ==> w.chans[p] == []
  }

  /** Everyone that runs knows exactly the present subscribers of everyone that runs, and nobody
      that has stopped. */
  ghost predicate Converged(w: Network) {
    forall i, j :: 0 <= i < |w.nodes| && 0 <= j < |w.nodes| && i != j && w.nodes[j].Alive() ==>
      var known := Record(w.nodes[j].records, w.nodes[i].hash);
      && (w.nodes[i].phase == On ==>
            known.Some? && Elements(known.value) == Elements(w.nodes[i].local.userSubscribers))
      && (w.nodes[i].phase == Off || w.nodes[i].phase == Gone ==> known == None)
  }

  /** Whatever was started, changed and stopped in whatever order: once no discovery message is
      under way, the gateways agree, provided that the record tables did not overflow. */
  lemma Convergence(w: Network, es: seq<Event>)
    requires Init(w) && Runs(w, es) && Quiet(End(w, es))
    ensures Converged(End(w, es))
  {
    InitInv(w);
    RunsInv(w, es);
    QuietConverged(End(w, es));
  }

  lemma QuietConverged(w: Network)
    requires Inv(w) && Quiet(w)
    ensures Converged(w)
  {
    forall i: nat, j: nat | i < |w.nodes| && j < |w.nodes| && i != j
      ensures PairOk(w.nodes[i], w.nodes[j], [], [])
    {
      assert w.chans[(i, j)] == [] && w.chans[(j, i)] == [];
    }
  }

  /** What gateway j was last told by its introspection: the sample of its last change, if any. */
  function LastSample(es: seq<Event>, j: nat): Option<PortSample> {
    if es == [] then None
    else
      var n := |es| - 1;
      if es[n].Change? && es[n].j == j then es[n].sample else LastSample(es[..n], j)
  }

  /** The subscribers a gateway ought to stand for. */
  ghost function SampledServices(sample: Option<PortSample>): set<Service> {
    match sample
    case None => {}
    case Some(s) => UserServices(s.subscribers)
  }

  ghost predicate FewSubscribers(sample: Option<PortSample>) {
    sample.Some? ==> |UserPositions(sample.value.subscribers)| <= MAX_TOPICS
  }

  lemma ChangedIsSampled(n: Node, sample: Option<PortSample>)
    requires FewSubscribers(sample)
    ensures Elements(Changed(n, sample).local.userSubscribers) == SampledServices(sample)
  {
    if sample.Some? {
      LocalIsReported(sample.value);
      SubscribersReported(sample.value, LocalFrom(sample));
    }
    hide UserServices, UserPositions, UserPorts, Reported;
  }

  lemma LocalOnlyChanges(w: Network, e: Event, j: nat)
    requires Enabled(w, e) && j < |w.nodes|
    ensures |After(w, e).nodes| == |w.nodes|
    ensures After(w, e).nodes[j].local
            == if e.Change? && e.j == j then Changed(w.nodes[j], e.sample).local else w.nodes[j].local
  {
    hide RecordsAfter, Info, LocalFrom, SameLocal, Announced, Answers;
  }

  lemma {:induction false} RunsSplit(w: Network, es: seq<Event>)
    requires es != [] && Runs(w, es)
    ensures var n := |es| - 1;
            Runs(w, es[..n]) && Enabled(End(w, es[..n]), es[n]) && End(w, es) == After(End(w, es[..n]), es[n])
    decreases |es|
  {
    hide After, Enabled, Roomy;
    var n := |es| - 1;
    if n > 0 {
      RunsSplit(After(w, es[0]), es[1..]);
      assert es[1..][..n - 1] == es[..n][1..];
    }
  }

  lemma {:induction false} LocalIsSampled(w: Network, es: seq<Event>, j: nat)
    requires Init(w) && Runs(w, es) && j < |w.nodes| && FewSubscribers(LastSample(es, j))
    ensures |End(w, es).nodes| == |w.nodes|
    ensures Elements(End(w, es).nodes[j].local.userSubscribers) == SampledServices(LastSample(es, j))
    decreases |es|
  {
    hide After, Enabled, Roomy, Changed, FewSubscribers, SampledServices;
    if es == [] {
      NothingSampled();
    } else {
      var n := |es| - 1;
      RunsSplit(w, es);
      RunsKeepNodes(w, es[..n]);
      LocalOnlyChanges(End(w, es[..n]), es[n], j);
      if es[n].Change? && es[n].j == j {
        ChangedIsSampled(End(w, es[..n]).nodes[j], es[n].sample);
      } else {
        LocalIsSampled(w, es[..n], j);
      }
    }
  }

  lemma NothingSampled()
    ensures SampledServices(None) == {}
  {}

  lemma {:induction false} RunsKeepNodes(w: Network, es: seq<Event>)
    requires Runs(w, es)
    ensures |End(w, es).nodes| == |w.nodes|
    decreases |es|
  {
    hide Roomy;
    if es != [] {
      RunsKeepNodes(After(w, es[0]), es[1..]);
    }
  }

  /** From the introspection to the peers: when nothing is under way, what a running gateway has
      recorded of another one are the services of the user subscribers in that one's last sample. */
  lemma PeersKnowSamples(w: Network, es: seq<Event>, i: nat, j: nat)
    requires Init(w) && Runs(w, es) && Quiet(End(w, es))
    requires i < |w.nodes| && j < |w.nodes| && i != j && FewSubscribers(LastSample(es, i))
    ensures |End(w, es).nodes| == |w.nodes|
    ensures var v := End(w, es);
            v.nodes[i].phase == On && v.nodes[j].Alive() ==>
              var known := Record(v.nodes[j].records, v.nodes[i].hash);
              known.Some? && Elements(known.value) == SampledServices(LastSample(es, i))
  {
    Convergence(w, es);
    LocalIsSampled(w, es, i);
    hide Runs, End, Record, SampledServices, LastSample, FewSubscribers, Init;
  }

  // ---------- the record table is large enough ----------

  /** Records are of other gateways of the network. */
  ghost predicate KnownPeers(w: Network) {
    forall j, k :: 0 <= j < |w.nodes| && 0 <= k < |w.nodes[j].records| ==>
      w.nodes[j].records[k].info.gatewayHash in PeerHashes(w, j)
  }

  function PeerHashes(w: Network, j: nat): set<Hash> {
    set i | 0 <= i < |w.nodes| && i != j :: w.nodes[i].hash
  }

  /** With at most MAX_DEVICE_COUNT + 1 gateways, a first message always finds room. */
  lemma TableHasRoom(w: Network, e: Event)
    requires Inv(w) && KnownPeers(w) && |w.nodes| <= MAX_DEVICE_COUNT + 1
    requires Enabled(w, e) && e.Deliver? && w.nodes[e.j].Alive()
    requires Record(w.nodes[e.j].records, w.chans[(e.i, e.j)][0].gatewayHash) == None
    ensures |w.nodes[e.j].records| < MAX_DEVICE_COUNT
  {
    hide PairOk;
    var i, j, rs := e.i, e.j, w.nodes[e.j].records;
    SenderIs(w, i, j);
    var h := w.nodes[i].hash;
    var hs := set k | 0 <= k < |rs| :: rs[k].info.gatewayHash;
    CountHashes(rs);
    if k: nat :| k < |rs| && rs[k].info.gatewayHash == h {
      FindSame(rs, h, k);
    }
    assert h !in hs;
    assert h in PeerHashes(w, j);
    assert hs + {h} <= PeerHashes(w, j);
    SubsetSize(hs + {h}, PeerHashes(w, j));
    PeerCount(w, j, |w.nodes|);
  }

  lemma {:induction false} CountHashes(records: seq<DeviceRecord>)
    requires DistinctGateways(records)
    ensures |set k | 0 <= k < |records| :: records[k].info.gatewayHash| == |records|
  {
    if records != [] {
      var n := |records| - 1;
      CountHashes(records[..n]);
      var hs := set k | 0 <= k < n :: records[..n][k].info.gatewayHash;
      assert (set k | 0 <= k < |records| :: records[k].info.gatewayHash) == hs + {records[n].info.gatewayHash};
    }
  }

  lemma {:induction false} PeerCount(w: Network, j: nat, n: nat)
    requires j < |w.nodes| && n <= |w.nodes|
    ensures |set i | 0 <= i < n && i != j :: w.nodes[i].hash| <= if j < n then n - 1 else n
  {
    if n > 0 {
      PeerCount(w, j, n - 1);
      var hs := set i | 0 <= i < n - 1 && i != j :: w.nodes[i].hash;
      var all := set i | 0 <= i < n && i != j :: w.nodes[i].hash;
      if n - 1 == j {
        assert all == hs;
      } else {
        assert all == hs + {w.nodes[n - 1].hash};
      }
    }
  }

  lemma SmallIsRoomy(w: Network, e: Event)
    requires Inv(w) && KnownPeers(w) && |w.nodes| <= MAX_DEVICE_COUNT + 1 && Enabled(w, e)
    ensures Roomy(w, e)
  {
    hide Inv, KnownPeers;
    if e.Deliver? && w.nodes[e.j].Alive() && Record(w.nodes[e.j].records, w.chans[(e.i, e.j)][0].gatewayHash) == None {
      TableHasRoom(w, e);
    }
  }

  /** No run of a network that small ever overflows a record table. */
  lemma {:induction false} RoomInEveryRun(w: Network, es: seq<Event>)
    requires Inv(w) && KnownPeers(w) && |w.nodes| <= MAX_DEVICE_COUNT + 1 && AnyRuns(w, es)
    ensures Runs(w, es) && Inv(End(w, es)) && KnownPeers(End(w, es)) && |End(w, es).nodes| == |w.nodes|
    decreases |es|
  {
    hide After, Inv, KnownPeers, Roomy;
    if es != [] {
      SmallIsRoomy(w, es[0]);
      StepKeeps(w, es[0]);
      KnownPeersKept(w, es[0]);
      SameHashes(w, es[0]);
      RoomInEveryRun(After(w, es[0]), es[1..]);
    }
  }

  /** So a network that small always comes to agree. */
  lemma SmallNetworksConverge(w: Network, es: seq<Event>)
    requires Init(w) && |w.nodes| <= MAX_DEVICE_COUNT + 1 && AnyRuns(w, es)
    ensures Runs(w, es) && (Quiet(End(w, es)) ==> Converged(End(w, es)))
  {
    hide Inv, Quiet, Converged, After;
    InitInv(w);
    RoomInEveryRun(w, es);
    if Quiet(End(w, es)) {
      Convergence(w, es);
    }
  }

  /** The gateways other than j that are running. */
  ghost function RunningPeers(w: Network, j: nat): set<Hash> {
    set i | 0 <= i < |w.nodes| && i != j && w.nodes[i].phase == On :: w.nodes[i].hash
  }

  lemma NoRoomForAll(w: Network, j: nat)
    requires j < |w.nodes| && w.nodes[j].Alive() && DistinctGateways(w.nodes[j].records)
    requires |w.nodes[j].records| <= MAX_DEVICE_COUNT < |RunningPeers(w, j)|
    ensures !Converged(w)
  {
    if Converged(w) {
      var rs := w.nodes[j].records;
      var hs := set k | 0 <= k < |rs| :: rs[k].info.gatewayHash;
      forall h | h in RunningPeers(w, j) ensures h in hs {
        var i :| 0 <= i < |w.nodes| && i != j && w.nodes[i].phase == On && w.nodes[i].hash == h;
        assert Record(rs, w.nodes[i].hash).Some?;
        assert rs[FindRecord(rs, h)].info.gatewayHash == h;
      }
      SubsetSize(RunningPeers(w, j), hs);
      CountHashes(rs);
      assert false;
    }
  }

  ghost predicate TablesOk(w: Network) {
    forall i :: 0 <= i < |w.nodes| ==> DistinctGateways(w.nodes[i].records) && |w.nodes[i].records| <= MAX_DEVICE_COUNT
  }

  lemma RecordsFit(w: Network, e: Event)
    requires TablesOk(w) && Enabled(w, e)
    ensures TablesOk(After(w, e)) && |After(w, e).nodes| == |w.nodes|
  {
    var w' := After(w, e);
    if e.Deliver? {
      RecordsAfterMeaning(w.nodes[e.j].records, w.chans[(e.i, e.j)][0], DeviceIndex(UDP, Wrap32(e.i)));
    }
    hide RecordsAfter, Info, LocalFrom, SameLocal, Announced, Answers, DistinctGateways;
  }

  /** No table ever holds more than that. */
  lemma {:induction false} TablesFit(w: Network, es: seq<Event>)
    requires TablesOk(w) && AnyRuns(w, es)
    ensures TablesOk(AnyEnd(w, es)) && |AnyEnd(w, es).nodes| == |w.nodes|
    decreases |es|
  {
    hide TablesOk, After, Enabled;
    if es != [] {
      RecordsFit(w, es[0]);
      TablesFit(After(w, es[0]), es[1..]);
    }
  }

  /** But whenever a gateway has more running peers than its table holds, there is no agreement,
      whatever has happened and even with no message under way. */
  lemma TooManyNeverAgree(w: Network, es: seq<Event>, j: nat)
    requires Init(w) && AnyRuns(w, es) && j < |w.nodes|
    ensures var v := AnyEnd(w, es);
            j < |v.nodes| && (v.nodes[j].Alive() && |RunningPeers(v, j)| > MAX_DEVICE_COUNT ==> !Converged(v))
  {
    hide Converged, After, Enabled;
    TablesFit(w, es);
    var v := AnyEnd(w, es);
    if v.nodes[j].Alive() && |RunningPeers(v, j)| > MAX_DEVICE_COUNT {
      NoRoomForAll(v, j);
    }
  }

  lemma KnownPeersKept(w: Network, e: Event)
    requires Inv(w) && KnownPeers(w) && Enabled(w, e)
    ensures KnownPeers(After(w, e))
  {
    hide PairOk, NodeOk, Info, Announced;
    var w' := After(w, e);
    SameHashes(w, e);
    forall j, k | 0 <= j < |w'.nodes| && 0 <= k < |w'.nodes[j].records|
      ensures w'.nodes[j].records[k].info.gatewayHash in PeerHashes(w, j)
    {
      if e.Deliver? && e.j == j && w.nodes[j].Alive() {
        SenderIs(w, e.i, j);
        DeliveredHashes(w.nodes[j].records, w.chans[(e.i, j)][0], DeviceIndex(UDP, Wrap32(e.i)), k);
      } else {
        OtherRecords(w, e, j);
      }
    }
  }

  lemma SameHashes(w: Network, e: Event)
    requires Enabled(w, e)
    ensures |After(w, e).nodes| == |w.nodes|
    ensures forall j :: 0 <= j < |w.nodes| ==> After(w, e).nodes[j].hash == w.nodes[j].hash
    ensures forall j: nat :: PeerHashes(After(w, e), j) == PeerHashes(w, j)
  {
    hide RecordsAfter, Info, LocalFrom, SameLocal, Announced, Answers;
    var w' := After(w, e);
    assert forall j :: 0 <= j < |w.nodes| ==> w'.nodes[j].hash == w.nodes[j].hash;
    forall j: nat ensures PeerHashes(w', j) == PeerHashes(w, j) {}
  }

  lemma OtherRecords(w: Network, e: Event, j: nat)
    requires Enabled(w, e) && j < |w.nodes| && !(e.Deliver? && e.j == j && w.nodes[j].Alive())
    ensures After(w, e).nodes[j].records == w.nodes[j].records
  {
    hide RecordsAfter, Info, LocalFrom, SameLocal, Announced, Answers;
  }

  lemma DeliveredHashes(records: seq<DeviceRecord>, m: PubSubInfo, from: DeviceIndex, k: nat)
    requires k < |RecordsAfter(records, m, from)|
    ensures var h := RecordsAfter(records, m, from)[k].info.gatewayHash;
            h == m.gatewayHash || exists l :: 0 <= l < |records| && records[l].info.gatewayHash == h
  {
    var s, i := RecordsAfter(records, m, from), FindRecord(records, m.gatewayHash);
    if m.isTermination && i < |records| {
      assert s[k] == records[if k < i then k else k + 1];
    }
  }

  // ---------- the answers end ----------

  /** `b` does not know `a`, and a message of `a` could still make it answer. */
  ghost predicate Unmet(a: Node, b: Node, ab: seq<PubSubInfo>) {
    && Record(b.records, a.hash) == None
    && (a.phase == Gone ==> exists k :: 0 <= k < |ab| && !ab[k].isTermination)
  }

  ghost function Potential(w: Network, i: nat, j: nat): nat
    requires w.Shaped() && i < |w.nodes| && j < |w.nodes|
  {
    |w.chans[(i, j)]| + if i != j && Unmet(w.nodes[i], w.nodes[j], w.chans[(i, j)]) then |w.nodes| else 0
  }

  ghost function RowPotential(w: Network, i: nat, n: nat): nat
    requires w.Shaped() && i < |w.nodes| && n <= |w.nodes|
  {
    if n == 0 then 0 else RowPotential(w, i, n - 1) + Potential(w, i, n - 1)
  }

  ghost function TotalPotential(w: Network, n: nat): nat
    requires w.Shaped() && n <= |w.nodes|
  {
    if n == 0 then 0 else TotalPotential(w, n - 1) + RowPotential(w, n - 1, |w.nodes|)
  }

  /** The messages under way, and each pair not yet met counted once for every gateway. */
  ghost function Chatter(w: Network): nat
    requires w.Shaped()
  {
    TotalPotential(w, |w.nodes|)
  }

  lemma {:induction false} RowAtMost(w: Network, w': Network, i: nat, n: nat, extra: bool)
    requires w.Shaped() && w'.Shaped() && |w'.nodes| == |w.nodes| && i < |w.nodes| && n <= |w.nodes|
    requires forall k: nat :: k < n ==> Potential(w', i, k) <= Potential(w, i, k) + if extra then 1 else 0
    ensures RowPotential(w', i, n) <= RowPotential(w, i, n) + if extra then n else 0
  {
    hide Potential;
    if n > 0 {
      RowAtMost(w, w', i, n - 1, extra);
    }
  }

  lemma {:induction false} RowLess(w: Network, w': Network, i: nat, n: nat, j: nat, less: nat)
    requires w.Shaped() && w'.Shaped() && |w'.nodes| == |w.nodes| && i < |w.nodes| && n <= |w.nodes|
    requires forall k: nat :: k < n ==> Potential(w', i, k) <= Potential(w, i, k)
    requires j < n && Potential(w', i, j) + less <= Potential(w, i, j)
    ensures RowPotential(w', i, n) + less <= RowPotential(w, i, n)
  {
    hide Potential;
    if j == n - 1 {
      RowAtMost(w, w', i, n - 1, false);
    } else {
      RowLess(w, w', i, n - 1, j, less);
    }
  }

  /** One row loses more than another gains. */
  lemma {:induction false} TotalLess(w: Network, w': Network, n: nat, i: nat, less: nat, j: nat, more: nat)
    requires w.Shaped() && w'.Shaped() && |w'.nodes| == |w.nodes| && n <= |w.nodes|
    requires i < |w.nodes| && j < |w.nodes| && i != j
    requires forall k: nat :: k < n && k != i && k != j ==>
               RowPotential(w', k, |w.nodes|) <= RowPotential(w, k, |w.nodes|)
    requires RowPotential(w', i, |w.nodes|) + less <= RowPotential(w, i, |w.nodes|)
    requires RowPotential(w', j, |w.nodes|) <= RowPotential(w, j, |w.nodes|) + more
    ensures TotalPotential(w', n) + (if i < n then less else 0) <= TotalPotential(w, n) + (if j < n then more else 0)
  {
    hide RowPotential;
    if n > 0 {
      TotalLess(w, w', n - 1, i, less, j, more);
    }
  }

  /** What a delivery from i to j moves: one message less, and perhaps an answer to everyone. */
  ghost predicate Moved(w: Network, w': Network, i: nat, j: nat, answers: bool) {
    && w.Shaped() && w'.Shaped() && |w'.nodes| == |w.nodes| && i < |w.nodes| && j < |w.nodes| && i != j
    && (forall k :: 0 <= k < |w.nodes| && k != j ==> w'.nodes[k] == w.nodes[k])
    && w'.nodes[j].hash == w.nodes[j].hash && w'.nodes[j].phase == w.nodes[j].phase
    && |w'.chans[(i, j)]| + 1 == |w.chans[(i, j)]|
    && (forall k: nat, l: nat :: k < |w.nodes| && l < |w.nodes| && k != j && (k, l) != (i, j) ==>
          w'.chans[(k, l)] == w.chans[(k, l)])
    && (forall l: nat :: l < |w.nodes| ==>
          |w'.chans[(j, l)]| <= |w.chans[(j, l)]| + (if answers then 1 else 0)
          && (!answers ==> w'.chans[(j, l)] == w.chans[(j, l)]))
  }

  /** And what it means for who has still to meet whom. */
  ghost predicate Delivered(w: Network, w': Network, i: nat, j: nat, answers: bool) {
    && Moved(w, w', i, j, answers)
    && (forall k :: 0 <= k < |w.nodes| && k != i && k != j ==>
          Record(w'.nodes[j].records, w.nodes[k].hash) == Record(w.nodes[j].records, w.nodes[k].hash))
    && (Unmet(w'.nodes[i], w'.nodes[j], w'.chans[(i, j)]) ==>
          !answers && Unmet(w.nodes[i], w.nodes[j], w.chans[(i, j)]))
    && (answers ==> w.nodes[j].phase == On && Unmet(w.nodes[i], w.nodes[j], w.chans[(i, j)]))
  }

  ghost predicate Replies(w: Network, e: Event)
    requires Enabled(w, e) && e.Deliver?
  {
    w.nodes[e.j].Alive() && Answers(w.nodes[e.j], w.chans[(e.i, e.j)][0])
  }

  /** After the delivery to a running gateway, its pair with the sender is met. */
  lemma MetAfter(a: Node, b: Node, ab: seq<PubSubInfo>, ba: seq<PubSubInfo>, b': Node, from: DeviceIndex)
    requires PairOk(a, b, ab, ba) && ab != [] && NodeOk(b) && Room(b.records, ab[0])
    requires b' == b.(records := RecordsAfter(b.records, ab[0], from))
    ensures !Unmet(a, b', ab[1..])
    ensures Answers(b, ab[0]) ==> Unmet(a, b, ab)
  {
    hide Elements, RecordsAfter;
    RecordAfter(b.records, ab[0], from, a.hash);
    assert !ab[0].isTermination && a.phase == Gone ==> exists k :: 0 <= k < |ab| && !ab[k].isTermination;
  }

  lemma StillUnmet(a: Node, b: Node, ab: seq<PubSubInfo>)
    requires ab != [] && Unmet(a, b, ab[1..])
    ensures Unmet(a, b, ab)
  {
    if a.phase == Gone {
      var k :| 0 <= k < |ab[1..]| && !ab[1..][k].isTermination;
      assert !ab[k + 1].isTermination;
    }
  }

  lemma IsMoved(w: Network, e: Event)
    requires Enabled(w, e) && e.Deliver? && e.i != e.j
    ensures Moved(w, After(w, e), e.i, e.j, Replies(w, e))
  {
    hide RecordsAfter, Info, Answers;
    if w.nodes[e.j].Alive() {
      DeliverShape(w, e);
      hide After;
    } else {
      DropShape(w, e);
      hide After;
    }
  }

  lemma IsDelivered(w: Network, e: Event)
    requires Inv(w) && Enabled(w, e) && Roomy(w, e) && e.Deliver?
    ensures Delivered(w, After(w, e), e.i, e.j, Replies(w, e))
  {
    hide PairOk, RecordsAfter, Unmet, Answers, Info, DistinctGateways, Moved;
    var i, j := e.i, e.j;
    SenderIs(w, i, j);
    IsMoved(w, e);
    RepliesOn(w, e);
    if w.nodes[j].Alive() {
      AliveMet(w, e);
      hide After, Replies;
    } else {
      DropShape(w, e);
      hide After;
      assert w.chans[(i, j)] != [];
      if Unmet(w.nodes[i], w.nodes[j], w.chans[(i, j)][1..]) {
        StillUnmet(w.nodes[i], w.nodes[j], w.chans[(i, j)]);
      }
    }
  }

  lemma AliveMet(w: Network, e: Event)
    requires Inv(w) && Enabled(w, e) && Roomy(w, e) && e.Deliver? && e.i != e.j && w.nodes[e.j].Alive()
    ensures var w', i, j := After(w, e), e.i, e.j;
            && |w'.nodes| == |w.nodes| && (i, j) in w'.chans && i < |w.nodes| && j < |w.nodes|
            && !Unmet(w'.nodes[i], w'.nodes[j], w'.chans[(i, j)])
            && (Replies(w, e) ==> Unmet(w.nodes[i], w.nodes[j], w.chans[(i, j)]))
            && (forall k :: 0 <= k < |w.nodes| && k != i && k != j ==>
                  Record(w'.nodes[j].records, w.nodes[k].hash) == Record(w.nodes[j].records, w.nodes[k].hash))
  {
    var i, j := e.i, e.j;
    var m, n, from := w.chans[(i, j)][0], w.nodes[j], DeviceIndex(UDP, Wrap32(i));
    SenderIs(w, i, j);
    DeliverShape(w, e);
    MetAfter(w.nodes[i], n, w.chans[(i, j)], w.chans[(j, i)], After(w, e).nodes[j], from);
    RepliesOn(w, e);
    hide PairOk, RecordsAfter, Unmet, Answers, Info, DistinctGateways, After, Record, Replies;
    forall k | 0 <= k < |w.nodes| && k != i && k != j
      ensures Record(After(w, e).nodes[j].records, w.nodes[k].hash) == Record(n.records, w.nodes[k].hash)
    {
      RecordAfter(n.records, m, from, w.nodes[k].hash);
    }
  }

  lemma RepliesOn(w: Network, e: Event)
    requires Enabled(w, e) && e.Deliver?
    ensures Replies(w, e) ==> w.nodes[e.j].phase == On
    ensures w.nodes[e.j].Alive() ==> Replies(w, e) == Answers(w.nodes[e.j], w.chans[(e.i, e.j)][0])
  {}

  /** The pair itself loses the message, and if it was to be answered its debt. */
  lemma PairPotential(w: Network, w': Network, i: nat, j: nat, answers: bool)
    requires Delivered(w, w', i, j, answers)
    ensures Potential(w', i, j) + (if answers then |w.nodes| + 1 else 1) <= Potential(w, i, j)
  {
    hide Unmet, Record;
  }

  /** Any other pair: an answer is one more message, and nobody becomes unmet. */
  lemma OtherPotential(w: Network, w': Network, i: nat, j: nat, answers: bool, k: nat, l: nat)
    requires Delivered(w, w', i, j, answers)
    requires k < |w.nodes| && l < |w.nodes| && (k, l) != (i, j)
    ensures Potential(w', k, l) <= Potential(w, k, l) + if answers && k == j then 1 else 0
  {
    hide Record;
    assert l != j ==> w'.nodes[l] == w.nodes[l];
    assert k != j ==> w'.nodes[k] == w.nodes[k] && w'.chans[(k, l)] == w.chans[(k, l)];
  }

  /** Every delivery makes the measure smaller, answers included: without new starts, stops, local
      changes and repetitions the exchange of announcements ends. */
  lemma DeliveryReducesChatter(w: Network, e: Event)
    requires Inv(w) && Enabled(w, e) && Roomy(w, e) && e.Deliver?
    ensures After(w, e).Shaped() && Chatter(After(w, e)) < Chatter(w)
  {
    hide Inv, After, Replies, Delivered, Enabled;
    IsDelivered(w, e);
    LessChatter(w, After(w, e), e.i, e.j, Replies(w, e));
  }

  lemma LessChatter(w: Network, w': Network, i: nat, j: nat, answers: bool)
    requires Delivered(w, w', i, j, answers)
    ensures w.Shaped() && w'.Shaped() && Chatter(w') < Chatter(w)
  {
    hide Potential, Unmet, Record, TotalPotential;
    PairPotential(w, w', i, j, answers);
    forall k: nat, l: nat | k < |w.nodes| && l < |w.nodes| && (k, l) != (i, j)
      ensures Potential(w', k, l) <= Potential(w, k, l) + if answers && k == j then 1 else 0
    {
      OtherPotential(w, w', i, j, answers, k, l);
    }
    hide Delivered;
    AddUp(w, w', i, j, answers);
  }

  lemma AddUp(w: Network, w': Network, i: nat, j: nat, answers: bool)
    requires w.Shaped() && w'.Shaped() && |w'.nodes| == |w.nodes| && i < |w.nodes| && j < |w.nodes| && i != j
    requires Potential(w', i, j) + (if answers then |w.nodes| + 1 else 1) <= Potential(w, i, j)
    requires forall k: nat, l: nat :: k < |w.nodes| && l < |w.nodes| && (k, l) != (i, j) ==>
               Potential(w', k, l) <= Potential(w, k, l) + if answers && k == j then 1 else 0
    ensures Chatter(w') < Chatter(w)
  {
    hide Potential, RowPotential, TotalPotential;
    var N := |w.nodes|;
    RowLess(w, w', i, N, j, if answers then N + 1 else 1);
    RowAtMost(w, w', j, N, answers);
    forall k: nat | k < N && k != i && k != j ensures RowPotential(w', k, N) <= RowPotential(w, k, N) {
      RowAtMost(w, w', k, N, false);
    }
    TotalLess(w, w', N, i, if answers then N + 1 else 1, j, if answers then N else 0);
  }

  ghost predicate OnlyDeliveries(es: seq<Event>) {
    forall k :: 0 <= k < |es| ==> es[k].Deliver?
  }

  /** So no run of deliveries is longer than the measure says. */
  lemma {:induction false} DeliveriesAreBounded(w: Network, es: seq<Event>)
    requires Inv(w) && Runs(w, es) && OnlyDeliveries(es)
    ensures Inv(End(w, es)) && Chatter(End(w, es)) + |es| <= Chatter(w)
    decreases |es|
  {
    hide After, Inv, Enabled, Chatter;
    if es != [] {
      StepKeeps(w, es[0]);
      DeliveryReducesChatter(w, es[0]);
      DeliveriesAreBounded(After(w, es[0]), es[1..]);
    }
  }

  lemma InvShaped(w: Network)
    requires Inv(w)
    ensures w.Shaped()
  {}

  /** From any state of a network whose record tables suffice, delivering what is under way leads to
      agreement. */
  lemma {:induction false} Settles(w: Network) returns (es: seq<Event>)
    requires w.Shaped() && Inv(w) && KnownPeers(w) && |w.nodes| <= MAX_DEVICE_COUNT + 1
    ensures Runs(w, es) && OnlyDeliveries(es) && |es| <= Chatter(w)
    ensures Quiet(End(w, es)) && Converged(End(w, es))
    decreases Chatter(w)
  {
    hide After, Inv, Chatter, Converged, KnownPeers, Roomy;
    if Quiet(w) {
      es := [];
      QuietConverged(w);
    } else {
      var p :| p in w.chans && w.chans[p] != [];
      var e := Deliver(p.0, p.1, 0);
      InvShaped(w);
      SmallIsRoomy(w, e);
      StepKeeps(w, e);
      KnownPeersKept(w, e);
      SameHashes(w, e);
      DeliveryReducesChatter(w, e);
      var rest := Settles(After(w, e));
      es := [e] + rest;
      assert es[1..] == rest;
    }
  }
}

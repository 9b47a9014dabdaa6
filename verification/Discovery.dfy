/** The discovery manager: what this gateway announces, what it knows of others, where it sends. */
module Discovery {
  import opened Types
  import opened Helpers
  import opened Transports
  import opened TransportInfos
  import opened Routing
  import opened VectorMaps
  import Serialization
  import opened Seqs

  datatype LocalState = LocalState(
    userPublishers: seq<Service>,
    userSubscribers: seq<Service>,
    userPublisherPorts: seq<nat>)

  /** What a gateway with these subscribers announces: each service once. */
  function Announced(userSubscribers: seq<Service>): seq<Service> {
    PushUnique([], userSubscribers, MAX_TOPICS)
  }

  lemma AnnouncedElements(userSubscribers: seq<Service>)
    requires |userSubscribers| <= MAX_TOPICS
    ensures Elements(Announced(userSubscribers)) == Elements(userSubscribers)
    ensures NoDuplicates(Announced(userSubscribers)) && |Announced(userSubscribers)| <= MAX_TOPICS
  {
    ElementsFit(userSubscribers);
    assert Elements<Service>([]) + Elements(userSubscribers) == Elements(userSubscribers);
    PushUniqueShape([], userSubscribers, MAX_TOPICS);
    PushUniqueIsUnion([], userSubscribers, MAX_TOPICS);
  }

  /** The services that need a channel: of local subscribers and publishers and of remote
      subscribers, each once, as far as MAX_TOPICS allows. */
  function NeededChannels(local: LocalState, records: seq<DeviceRecord>): seq<Service> {
    PushRecords(PushUnique(Announced(local.userSubscribers), local.userPublishers, MAX_TOPICS), records)
  }

  function PushRecords(services: seq<Service>, records: seq<DeviceRecord>): seq<Service>
    decreases |records|
  {
    if records == [] then services
    else PushRecords(PushUnique(services, records[0].info.userSubscribers, MAX_TOPICS), records[1..])
  }

  function RemoteServices(records: seq<DeviceRecord>): set<Service> {
    if records == [] then {} else Elements(records[0].info.userSubscribers) + RemoteServices(records[1..])
  }

  lemma {:induction false} PushRecordsIsUnion(services: seq<Service>, records: seq<DeviceRecord>)
    requires NoDuplicates(services) && |services| <= MAX_TOPICS
    ensures NoDuplicates(PushRecords(services, records)) && |PushRecords(services, records)| <= MAX_TOPICS
    ensures |Elements(services) + RemoteServices(records)| <= MAX_TOPICS ==>
              Elements(PushRecords(services, records)) == Elements(services) + RemoteServices(records)
    decreases |records|
  {
    if records != [] {
      hide NoDuplicates, Elements;
      var b := records[0].info.userSubscribers;
      var services' := PushUnique(services, b, MAX_TOPICS);
      PushUniqueShape(services, b, MAX_TOPICS);
      PushRecordsIsUnion(services', records[1..]);
      var all := Elements(services) + RemoteServices(records);
      assert all == Elements(services) + Elements(b) + RemoteServices(records[1..]);
      if |all| <= MAX_TOPICS {
        SubsetSize(Elements(services) + Elements(b), all);
        PushUniqueIsUnion(services, b, MAX_TOPICS);
      }
    }
  }

  /** The needed channels are the union of what local and remote users need, each service once,
      exactly as long as the union is within the table size. */
  lemma NeededChannelsIsUnion(local: LocalState, records: seq<DeviceRecord>)
    requires |local.userSubscribers| <= MAX_TOPICS
    ensures NoDuplicates(NeededChannels(local, records)) && |NeededChannels(local, records)| <= MAX_TOPICS
    ensures var all := Elements(local.userSubscribers) + Elements(local.userPublishers) + RemoteServices(records);
            |all| <= MAX_TOPICS <==> Elements(NeededChannels(local, records)) == all
  {
    hide NoDuplicates, Elements;
    AnnouncedElements(local.userSubscribers);
    var a := Announced(local.userSubscribers);
    var b := PushUnique(a, local.userPublishers, MAX_TOPICS);
    PushUniqueShape(a, local.userPublishers, MAX_TOPICS);
    PushRecordsIsUnion(b, records);
    var all := Elements(local.userSubscribers) + Elements(local.userPublishers) + RemoteServices(records);
    if |all| <= MAX_TOPICS {
      SubsetSize(Elements(a) + Elements(local.userPublishers), all);
      PushUniqueIsUnion(a, local.userPublishers, MAX_TOPICS);
    } else {
      ElementsFit(NeededChannels(local, records));
    }
  }

  // ---------- the port introspection ----------

  datatype PortData = PortData(node: seq<byte>, service: Service, port: nat)

  datatype PortSample = PortSample(publishers: seq<PortData>, subscribers: seq<PortData>)

  /** "p3com-gw" and "RouDi_ID". */
  const IOX_GW_NODE_NAME: seq<byte> := [112, 51, 99, 111, 109, 45, 103, 119]
  const ROUDI_ID: seq<byte> := [82, 111, 117, 68, 105, 95, 73, 68]

  predicate IsUser(p: PortData) {
    p.node != IOX_GW_NODE_NAME && p.service.inst != ROUDI_ID
  }

  /** The user ports, in order, as many as a vector of MAX_TOPICS takes. */
  function UserPorts(ports: seq<PortData>): (r: seq<PortData>)
    ensures |r| <= MAX_TOPICS
    ensures forall i :: 0 <= i < |r| ==> r[i] in ports && IsUser(r[i])
  {
    if ports == [] then []
    else
      var n := |ports| - 1;
      var r := UserPorts(ports[..n]);
      if IsUser(ports[n]) && |r| < MAX_TOPICS then r + [ports[n]] else r
  }

  function Services(ports: seq<PortData>): (r: seq<Service>)
    ensures |r| == |ports|
  {
    seq(|ports|, i requires 0 <= i < |ports| => ports[i].service)
  }

  function Ids(ports: seq<PortData>): (r: seq<nat>)
    ensures |r| == |ports|
  {
    seq(|ports|, i requires 0 <= i < |ports| => ports[i].port)
  }

  /** Without a sample the new state stays empty: all user ports count as gone. What it is with one, see
      Reported. */
  function LocalFrom(sample: Option<PortSample>): LocalState {
    match sample
    case None => LocalState([], [], [])
    case Some(s) =>
      LocalState(Services(UserPorts(s.publishers)), Services(UserPorts(s.subscribers)), Ids(UserPorts(s.publishers)))
  }

  /** `at` are the positions of the user ports in a list, in order: all of them, or the first MAX_TOPICS. */
  ghost predicate FirstUsers(ports: seq<PortData>, at: seq<nat>) {
    && |at| <= MAX_TOPICS
    && (forall k :: 0 <= k < |at| ==> at[k] < |ports| && IsUser(ports[at[k]]))
    && (forall j, k :: 0 <= j < k < |at| ==> at[j] < at[k])
    && (forall i :: 0 <= i < |ports| && IsUser(ports[i]) && i !in at ==> |at| == MAX_TOPICS && at[MAX_TOPICS - 1] < i)
  }

  ghost predicate ServicesAt(ports: seq<PortData>, at: seq<nat>, services: seq<Service>) {
    && |services| == |at|
    && forall k :: 0 <= k < |at| ==> at[k] < |ports| && services[k] == ports[at[k]].service
  }

  /** The state holds what the introspection says: the services of the user publishers and the ids of
      the same ports, and the services of the user subscribers. */
  ghost predicate Reported(s: PortSample, local: LocalState) {
    && (exists at :: FirstUsers(s.publishers, at) && ServicesAt(s.publishers, at, local.userPublishers)
                     && |local.userPublisherPorts| == |at|
                     && forall k :: 0 <= k < |at| ==> local.userPublisherPorts[k] == s.publishers[at[k]].port)
    && (exists at :: FirstUsers(s.subscribers, at) && ServicesAt(s.subscribers, at, local.userSubscribers))
  }

  lemma FirstUsersNext(ports: seq<PortData>, before: seq<nat>)
    requires ports != [] && FirstUsers(ports[..|ports| - 1], before)
    ensures var n := |ports| - 1;
            FirstUsers(ports, if IsUser(ports[n]) && |before| < MAX_TOPICS then before + [n] else before)
  {
    hide IsUser;
    var n := |ports| - 1;
    var shorter := ports[..n];
    assert forall i :: 0 <= i < n ==> shorter[i] == ports[i];
    if IsUser(ports[n]) && |before| < MAX_TOPICS {
      var at := before + [n];
      assert at[|before|] == n;
      forall i | 0 <= i < |ports| && IsUser(ports[i]) ensures i in at {
        if i < n {
          assert IsUser(shorter[i]) && i in before;
        }
      }
    } else {
      forall i | 0 <= i < |ports| && IsUser(ports[i]) && i !in before
        ensures |before| == MAX_TOPICS && before[MAX_TOPICS - 1] < i
      {
        assert i < n ==> IsUser(shorter[i]);
      }
    }
  }

  ghost predicate PortsAt(ports: seq<PortData>, at: seq<nat>, picked: seq<PortData>) {
    |picked| == |at| && forall k :: 0 <= k < |at| ==> at[k] < |ports| && picked[k] == ports[at[k]]
  }

  lemma PortsAtNext(ports: seq<PortData>, at: seq<nat>, picked: seq<PortData>)
    requires ports != [] && PortsAt(ports[..|ports| - 1], at, picked)
    ensures PortsAt(ports, at, picked)
    ensures PortsAt(ports, at + [|ports| - 1], picked + [ports[|ports| - 1]])
  {
    assert forall k :: 0 <= k < |at| ==> ports[..|ports| - 1][at[k]] == ports[at[k]];
  }

  lemma {:induction false} UserPortsAt(ports: seq<PortData>) returns (at: seq<nat>)
    ensures FirstUsers(ports, at) && PortsAt(ports, at, UserPorts(ports))
  {
    if ports == [] {
      at := [];
    } else {
      var n := |ports| - 1;
      var before := UserPortsAt(ports[..n]);
      FirstUsersNext(ports, before);
      PortsAtNext(ports, before, UserPorts(ports[..n]));
      PickedSame(ports[..n], before, UserPorts(ports[..n]));
      hide FirstUsers, IsUser, PortsAt;
      at := if IsUser(ports[n]) && |before| < MAX_TOPICS then before + [n] else before;
    }
  }

  lemma PickedSame(ports: seq<PortData>, at: seq<nat>, picked: seq<PortData>)
    requires PortsAt(ports, at, picked)
    ensures |picked| == |at|
  {}

  /** Every sample is taken over as it is. */
  lemma LocalIsReported(s: PortSample)
    ensures Reported(s, LocalFrom(Some(s)))
  {
    var local := LocalFrom(Some(s));
    var p := UserPortsAt(s.publishers);
    var q := UserPortsAt(s.subscribers);
    hide FirstUsers, UserPorts;
    assert ServicesAt(s.publishers, p, local.userPublishers);
    assert ServicesAt(s.subscribers, q, local.userSubscribers);
  }

  /** The services of the ports that belong neither to a gateway nor to the introspection itself. */
  ghost function UserServices(ports: seq<PortData>): set<Service> {
    set i | 0 <= i < |ports| && ports[i].node != IOX_GW_NODE_NAME && ports[i].service.inst != ROUDI_ID :: ports[i].service
  }

  ghost function UserPositions(ports: seq<PortData>): set<nat> {
    set i | 0 <= i < |ports| && ports[i].node != IOX_GW_NODE_NAME && ports[i].service.inst != ROUDI_ID
  }

  lemma PositionsFit(ports: seq<PortData>, at: seq<nat>, i: nat)
    requires FirstUsers(ports, at) && |UserPositions(ports)| <= MAX_TOPICS && i in UserPositions(ports)
    ensures i in at
  {
    if i !in at {
      var picked := set k | 0 <= k < |at| :: at[k];
      PickedSize(at, MAX_TOPICS);
      assert picked + {i} <= UserPositions(ports);
      SubsetSize(picked + {i}, UserPositions(ports));
    }
  }

  lemma {:induction false} PickedSize(at: seq<nat>, n: nat)
    requires n <= |at| && forall j, k :: 0 <= j < k < |at| ==> at[j] < at[k]
    ensures |set k | 0 <= k < n :: at[k]| == n
  {
    if n > 0 {
      PickedSize(at, n - 1);
      assert (set k | 0 <= k < n :: at[k]) == (set k | 0 <= k < n - 1 :: at[k]) + {at[n - 1]};
    }
  }

  /** With at most MAX_TOPICS user ports in a list, the state has the services of exactly those. */
  lemma ReportedServices(ports: seq<PortData>, at: seq<nat>, services: seq<Service>)
    requires FirstUsers(ports, at) && ServicesAt(ports, at, services) && |UserPositions(ports)| <= MAX_TOPICS
    ensures Elements(services) == UserServices(ports)
  {
    forall x | x in UserServices(ports) ensures x in services {
      var i :| i in UserPositions(ports) && ports[i].service == x;
      PositionsFit(ports, at, i);
      var k :| 0 <= k < |at| && at[k] == i;
      assert services[k] == x;
    }
    forall x | x in services ensures x in UserServices(ports) {
      var k :| 0 <= k < |services| && services[k] == x;
      assert IsUser(ports[at[k]]);
    }
  }

  lemma SubscribersReported(s: PortSample, local: LocalState)
    requires Reported(s, local) && |UserPositions(s.subscribers)| <= MAX_TOPICS
    ensures Elements(local.userSubscribers) == UserServices(s.subscribers)
  {
    var at :| FirstUsers(s.subscribers, at) && ServicesAt(s.subscribers, at, local.userSubscribers);
    ReportedServices(s.subscribers, at, local.userSubscribers);
  }

  /** Both service lists are permutations of the old ones. */
  predicate SameLocal(a: LocalState, b: LocalState) {
    multiset(a.userPublishers) == multiset(b.userPublishers) && multiset(a.userSubscribers) == multiset(b.userSubscribers)
  }

  /** A publisher port of the gateway itself is never listed among the user publisher ports,
      provided a port id belongs to one node. */
  lemma GatewayPortsExcluded(s: PortSample, p: PortData)
    requires p.node == IOX_GW_NODE_NAME
    requires forall q :: q in s.publishers && q.port == p.port ==> q.node == p.node
    ensures p.port !in LocalFrom(Some(s)).userPublisherPorts
  {
    var users := UserPorts(s.publishers);
    forall i | 0 <= i < |users| ensures Ids(users)[i] != p.port {
      assert users[i] in s.publishers && IsUser(users[i]);
    }
  }

  lemma OnePortMore(ports: seq<PortData>, i: nat)
    requires i < |ports|
    ensures var r := UserPorts(ports[..i]);
            var r' := UserPorts(ports[..i + 1]);
            if IsUser(ports[i]) && |r| < MAX_TOPICS then
              Services(r') == Services(r) + [ports[i].service] && Ids(r') == Ids(r) + [ports[i].port]
            else r' == r
  {
    assert ports[..i + 1][..i] == ports[..i];
  }

  class DiscoveryManager {
    const gatewayHash: Hash
    const preferredType: TransportType
    const classHash: Service -> ClassHash
    const transportInfo: TransportInfo
    var terminating: bool
    var records: seq<DeviceRecord>
    const cache: VectorMap<ClassHash, seq<DeviceIndex>>
    var local: LocalState
    var lastSent: seq<Service>
    var gatewayPublisherUids: seq<nat>
    /** The arguments of the update callback's calls, and how often the fail callback ran. */
    var updates: seq<seq<Service>>
    var failures: nat

    /** For each cached result: the records it was computed from, and the gateways whose record
        has been erased since. */
    ghost var cachedFrom: map<ClassHash, seq<DeviceRecord>>
    ghost var goneSince: map<ClassHash, set<Hash>>

    ghost predicate Wired()
      reads transportInfo, transportInfo.Objects(), cache
    {
      transportInfo.Valid() && cache.Valid() && cache.capacity == MAX_TOPICS
    }

    ghost predicate Tables()
      reads this
    {
      && DistinctGateways(records) && OneIndexPerType(records) && |records| <= MAX_DEVICE_COUNT
      && |local.userSubscribers| <= MAX_TOPICS && |local.userPublishers| <= MAX_TOPICS
      && Elements(lastSent) == Elements(local.userSubscribers)
    }

    ghost function View(): View
      reads transportInfo, transportInfo.Objects()
    {
      Routing.View(classHash, transportInfo.Good(), transportInfo.bitset, preferredType)
    }

    /** While a transport has failed and its callback is still to come, nothing is promised of the
        cache. */
    ghost predicate Valid()
      reads this, transportInfo, transportInfo.Objects(), cache
    {
      Wired() && Tables() && (transportInfo.NoneFailed() ==> CacheSound(cache.Map(), View(), records, cachedFrom, goneSince))
    }

    /** A message that carries this gateway's present state. */
    ghost predicate Current(m: PubSubInfo)
      reads this, transportInfo
    {
      && m.gatewayHash == gatewayHash && !m.isTermination
      && m.gatewayBitset == transportInfo.bitset
      && m.userSubscribers == Announced(local.userSubscribers)
    }

    constructor (transportInfo: TransportInfo, gatewayHash: Hash, preferredType: TransportType, classHash: Service -> ClassHash)
      requires transportInfo.Valid()
      ensures Valid() && this.transportInfo == transportInfo && records == [] && !terminating && failures == 0
      ensures fresh(cache) && gatewayPublisherUids == [] && updates == []
    {
      this.transportInfo, this.gatewayHash, this.preferredType := transportInfo, gatewayHash, preferredType;
      this.classHash := classHash;
      terminating, records, local, lastSent := false, [], LocalState([], [], []), [];
      gatewayPublisherUids, updates, failures := [], [], 0;
      cache := new VectorMap(MAX_TOPICS);
      cachedFrom, goneSince := map[], map[];
    }

    method GenerateDiscoveryInfo() returns (info: PubSubInfo)
      ensures Current(info)
    {
      var infoHash: Hash := *;
      var subscribers := PushAllUnique([], local.userSubscribers, MAX_TOPICS);
      info := PubSubInfo(subscribers, transportInfo.bitset, gatewayHash, infoHash, false);
    }

    // ---------- sending, and transports failing at it ----------

    /** What every transport still good was last handed: the message `info` itself if no transport
        was disabled since the bitset was `bits`, or if the gateway is terminating and says no
        more; otherwise a message with the present state. */
    ghost predicate Informed(info: PubSubInfo, bits: Bitset)
      reads this, transportInfo, transportInfo.Objects()
    {
      if transportInfo.bitset == bits || terminating then AllLast(info) else AllCurrent()
    }

    ghost predicate AllLast(info: PubSubInfo)
      reads transportInfo.Objects()
    {
      forall i :: 0 <= i < |transportInfo.transports| && transportInfo.transports[i] != null
                  && transportInfo.transports[i].status == GOOD ==>
        transportInfo.transports[i].LastBroadcast() == Some(info)
    }

    /** Every transport still good was last handed a message with the present state. */
    ghost predicate AllCurrent()
      reads this, transportInfo, transportInfo.Objects()
    {
      forall i :: 0 <= i < |transportInfo.transports| && transportInfo.transports[i] != null
                  && transportInfo.transports[i].status == GOOD ==>
        var last := transportInfo.transports[i].LastBroadcast();
        last.Some? && Current(last.value)
    }

    /** doForAllEnabled with a broadcast, followed through the fail callback, which broadcasts
        again: it ends, for each further round has a smaller bitset. */
    method SendDiscoveryInfo(info: PubSubInfo)
      requires Wired()
      modifies transportInfo`bitset, transportInfo.Objects(), cache, `failures
      ensures Wired() && transportInfo.NoneFailed()
      ensures transportInfo.bitset <= old(transportInfo.bitset)
      ensures failures == old(failures) + |old(transportInfo.bitset)| - |transportInfo.bitset|
      ensures transportInfo.bitset == old(transportInfo.bitset) ==>
                cache.m_keys == old(cache.m_keys) && cache.m_elems == old(cache.m_elems)
      ensures transportInfo.bitset != old(transportInfo.bitset) ==> cache.m_keys == []
      ensures Informed(info, old(transportInfo.bitset))
      ensures transportInfo.bitset == old(transportInfo.bitset) ==> GoodWereGood()
      decreases |transportInfo.bitset|, 1
    {
      hide AsMap, Distinct, DistinctGateways, OneIndexPerType, Announced, TransportInfo.Good;
      var ti := transportInfo;
      ti.SendToAll(info);
      for i := 0 to TRANSPORT_TYPE_COUNT
        invariant Wired() && ti.bitset <= old(ti.bitset)
        invariant forall j :: 0 <= j < i && ti.transports[j] != null ==> ti.transports[j].status != FAILED
        invariant !terminating && ti.bitset != old(ti.bitset) ==> ti.NoneFailed()
        invariant failures == old(failures) + |old(ti.bitset)| - |ti.bitset|
        invariant ti.bitset == old(ti.bitset) ==> cache.m_keys == old(cache.m_keys) && cache.m_elems == old(cache.m_elems)
        invariant ti.bitset != old(ti.bitset) ==> cache.m_keys == []
        invariant Informed(info, old(ti.bitset))
        invariant ti.bitset == old(ti.bitset) ==> GoodWereGood()
      {
        SubsetSize(ti.bitset, old(ti.bitset));
        HandleFailure(i, info, old(ti.bitset));
      }
    }

    twostate predicate GoodWereGood()
      reads transportInfo.Objects()
    {
      forall i :: 0 <= i < |transportInfo.transports| && transportInfo.transports[i] != null
                  && transportInfo.transports[i].status == GOOD ==>
        old(transportInfo.transports[i].status) == GOOD
    }

    /** If a broadcast disabled no transport, then none had failed, and lookups see no change. */
    twostate lemma SameView()
      requires old(Wired()) && Wired() && transportInfo.NoneFailed()
      requires transportInfo.bitset == old(transportInfo.bitset) && GoodWereGood()
      ensures old(transportInfo.NoneFailed()) && View() == old(View())
    {
      assert transportInfo.Good() == transportInfo.bitset;
      assert old(transportInfo.Good()) == transportInfo.bitset;
    }

    /** Transports may stop being good; those still good have sent nothing more. */
    twostate predicate OnlyFewerGood()
      reads transportInfo.Objects()
    {
      forall i :: 0 <= i < |transportInfo.transports| && transportInfo.transports[i] != null
                  && transportInfo.transports[i].status == GOOD ==>
        && old(transportInfo.transports[i].status) == GOOD
        && transportInfo.transports[i].broadcasts == old(transportInfo.transports[i].broadcasts)
    }

    twostate lemma FewerGoodInformed(info: PubSubInfo)
      requires OnlyFewerGood() && old(AllLast(info))
      ensures AllLast(info)
    {}

    /** One turn of the second loop of doForAllEnabled. */
    method HandleFailure(i: nat, info: PubSubInfo, ghost bits: Bitset)
      requires Wired() && i < TRANSPORT_TYPE_COUNT && transportInfo.bitset <= bits
      requires !terminating && transportInfo.bitset != bits ==> transportInfo.NoneFailed()
      requires Informed(info, bits)
      modifies transportInfo`bitset, transportInfo.Objects(), cache, `failures
      ensures Wired() && transportInfo.bitset <= old(transportInfo.bitset)
      ensures forall j :: 0 <= j <= i < |transportInfo.transports| && transportInfo.transports[j] != null ==>
                j == i || old(transportInfo.transports[j].status) != FAILED ==> transportInfo.transports[j].status != FAILED
      ensures !terminating && transportInfo.bitset != bits ==> transportInfo.NoneFailed()
      ensures failures == old(failures) + |old(transportInfo.bitset)| - |transportInfo.bitset|
      ensures transportInfo.bitset == old(transportInfo.bitset) ==>
                cache.m_keys == old(cache.m_keys) && cache.m_elems == old(cache.m_elems)
      ensures transportInfo.bitset != old(transportInfo.bitset) ==> cache.m_keys == []
      ensures Informed(info, bits)
      ensures transportInfo.bitset == old(transportInfo.bitset) ==> GoodWereGood()
      decreases |transportInfo.bitset|, 0
    {
      hide AsMap, Distinct, DiscoveryManager.Current, DiscoveryManager.AllLast, TransportInfo.Valid;
      var failed := transportInfo.DisableIfFailed(i);
      if failed {
        FailCallback();
      }
      if transportInfo.bitset == bits || terminating {
        FewerGoodInformed(info);
      }
    }

    /** The transport fail callback. */
    method FailCallback()
      requires Wired()
      modifies transportInfo`bitset, transportInfo.Objects(), cache, `failures
      ensures Wired()
      ensures transportInfo.bitset <= old(transportInfo.bitset)
      ensures failures == old(failures) + 1 + |old(transportInfo.bitset)| - |transportInfo.bitset|
      ensures cache.m_keys == []
      ensures !terminating ==> transportInfo.NoneFailed()
      ensures !terminating ==> AllCurrent()
      ensures terminating ==>
                && transportInfo.bitset == old(transportInfo.bitset)
                && forall i :: 0 <= i < |transportInfo.transports| && transportInfo.transports[i] != null ==>
                     unchanged(transportInfo.transports[i])
      decreases |transportInfo.bitset|, 2
    {
      failures := failures + 1;
      cache.Clear();
      if !terminating {
        var info := GenerateDiscoveryInfo();
        SendDiscoveryInfo(info);
      }
    }

    /** Sends the present state; done at start-up, on a local change and in answer to a new peer. */
    method Announce()
      requires Wired()
      modifies transportInfo`bitset, transportInfo.Objects(), cache, `failures
      ensures Wired() && transportInfo.NoneFailed()
      ensures transportInfo.bitset <= old(transportInfo.bitset)
      ensures transportInfo.bitset == old(transportInfo.bitset) ==>
                cache.m_keys == old(cache.m_keys) && cache.m_elems == old(cache.m_elems)
      ensures transportInfo.bitset != old(transportInfo.bitset) ==> cache.m_keys == []
      ensures !terminating ==> AllCurrent()
    {
      hide AsMap, Distinct, DistinctGateways, OneIndexPerType, Announced, TransportInfo.Good;
      var info := GenerateDiscoveryInfo();
      SendDiscoveryInfo(info);
    }

    /** The last message of this gateway. */
    method Deinitialize()
      requires Wired()
      modifies `terminating, transportInfo`bitset, transportInfo.Objects(), cache, `failures
      ensures Wired() && transportInfo.NoneFailed() && terminating
      ensures forall i ::
                0 <= i < |transportInfo.transports| && transportInfo.transports[i] != null
                && transportInfo.transports[i].status == GOOD ==>
                var last := transportInfo.transports[i].LastBroadcast();
                last.Some? && last.value.isTermination && last.value.gatewayHash == gatewayHash
    {
      hide AsMap, Distinct, DistinctGateways, OneIndexPerType, Announced, TransportInfo.Good;
      terminating := true;
      var info := GenerateDiscoveryInfo();
      SendDiscoveryInfo(info.(isTermination := true));
    }

    // ---------- receiving ----------

    method ReceiveRemoteDiscoveryInfo(bytes: seq<byte>, from: DeviceIndex) returns (terminated: bool)
      requires Valid()
      modifies this, transportInfo, transportInfo.Objects(), cache
      ensures Valid()
      ensures terminated <==> Serialization.DecodeInfo(bytes).None?
      ensures !terminated ==> records == RecordsAfter(old(records), Serialization.DecodeInfo(bytes).value.0, from)
    {
      var m := Serialization.DeserializeInfo(bytes);
      terminated := m.None?;
      if m.Some? {
        if m.value.0.isTermination {
          ReceiveTermination(m.value.0, from);
        } else {
          ReceiveInfo(m.value.0, from);
        }
      }
    }

    /** A termination message erases the record; the cache stays as it is. */
    method ReceiveTermination(info: PubSubInfo, from: DeviceIndex)
      requires Valid() && info.isTermination
      modifies `records, `goneSince
      ensures Valid() && records == RecordsAfter(old(records), info, from)
    {
      hide AsMap, Distinct, CacheSound, DistinctGateways, OneIndexPerType;
      var i := FindRecord(records, info.gatewayHash);
      RecordsAfterMeaning(records, info, from);
      OneIndexPerTypeKept(records, info, from);
      if i < |records| {
        if transportInfo.NoneFailed() {
          TerminationKeepsSound(cache.Map(), View(), records, i, cachedFrom, goneSince);
        }
        goneSince := AlsoGone(goneSince, info.gatewayHash);
        records := records[..i] + records[i + 1..];
        assert View() == old(View());
      }
    }

    /** Any other message: a peer seen for the first time is answered; the record then holds the
        message, the cache is empty and the channels are brought up to date. */
    method ReceiveInfo(info: PubSubInfo, from: DeviceIndex)
      requires Valid() && !info.isTermination
      modifies `records, `updates, `failures, transportInfo`bitset, transportInfo.Objects(), cache
      ensures Valid() && records == RecordsAfter(old(records), info, from)
      ensures var i := FindRecord(old(records), info.gatewayHash);
              i < |old(records)| ==>
                |records| == |old(records)| && records[i].info == info
                && Learnt(old(records)[i].deviceIndices, records[i].deviceIndices, from)
      ensures cache.m_keys == [] && updates == old(updates) + [NeededChannels(local, records)]
      ensures FindRecord(old(records), info.gatewayHash) == |old(records)| && !terminating ==>
                transportInfo.NoneFailed() && AllCurrent()
      ensures FindRecord(old(records), info.gatewayHash) < |old(records)| || terminating ==>
                && transportInfo.bitset == old(transportInfo.bitset)
                && forall t :: t in transportInfo.Objects() ==> unchanged(t)
    {
      hide AsMap, Distinct, TransportInfo.Good, CacheSound, TransportInfo.Slots, DistinctGateways, OneIndexPerType,
           DiscoveryManager.AllCurrent;
      if FindRecord(records, info.gatewayHash) == |records| && !terminating {
        Announce();
      }
      StoreInfo(info, from);
    }

    method StoreInfo(info: PubSubInfo, from: DeviceIndex)
      requires Wired() && Tables() && !info.isTermination
      modifies `records, `updates, cache
      ensures Valid() && records == RecordsAfter(old(records), info, from)
      ensures var i := FindRecord(old(records), info.gatewayHash);
              i < |old(records)| ==>
                |records| == |old(records)| && records[i].info == info
                && Learnt(old(records)[i].deviceIndices, records[i].deviceIndices, from)
      ensures cache.m_keys == [] && updates == old(updates) + [NeededChannels(local, records)]
      ensures old(AllCurrent()) ==> AllCurrent()
    {
      hide AsMap, Distinct, CacheSound, DistinctGateways, OneIndexPerType, Announced, RecordsAfter, NeededChannels, Learnt;
      RecordsAfterMeaning(records, info, from);
      OneIndexPerTypeKept(records, info, from);
      IndicesLearnt(records, info, from);
      StoreRecord(info, from);
      cache.Clear();
      var needed := UpdateNeededChannels();
      updates := updates + [needed];
      EmptyCacheSound(View(), records, cachedFrom, goneSince);
    }

    /** emplace_back does nothing when the table is full, and back() is then some other record. */
    method StoreRecord(info: PubSubInfo, from: DeviceIndex)
      requires !info.isTermination
      modifies `records
      ensures records == RecordsAfter(old(records), info, from)
    {
      var i := FindRecord(records, info.gatewayHash);
      if i == |records| {
        if |records| < MAX_DEVICE_COUNT {
          records := records + [DeviceRecord(info, [])];
        }
        i := |records| - 1;
      }
      records := records[i := DeviceRecord(info, StoreIndex(records[i].deviceIndices, from))];
      NewRecord(old(records), info, from);
    }

    method UpdateNeededChannels() returns (needed: seq<Service>)
      ensures needed == NeededChannels(local, records)
    {
      hide PushUnique;
      needed := PushAllUnique([], local.userSubscribers, MAX_TOPICS);
      needed := PushAllUnique(needed, local.userPublishers, MAX_TOPICS);
      for i := 0 to |records|
        invariant PushRecords(needed, records[i..]) == NeededChannels(local, records)
      {
        assert records[i..][1..] == records[i + 1..];
        needed := PushAllUnique(needed, records[i].info.userSubscribers, MAX_TOPICS);
      }
    }

    // ---------- local changes ----------

    /** The new port lists replace the old. If both service lists are permutations of the old
        ones, that is all. Otherwise the channels are brought up to date, and the subscribers are
        announced unless they are what was announced last. */
    method ReadPortSubscriber(sample: Option<PortSample>)
      requires Valid()
      modifies `local, `lastSent, `updates, `failures, transportInfo`bitset, transportInfo.Objects(), cache
      ensures Valid() && local == LocalFrom(sample)
      ensures sample.None? ==> local == LocalState([], [], [])
      ensures sample.Some? ==> Reported(sample.value, local)
      ensures sample.Some? && |UserPositions(sample.value.subscribers)| <= MAX_TOPICS ==>
                Elements(lastSent) == UserServices(sample.value.subscribers)
      ensures SameLocal(old(local), local) <==>
                && multiset(local.userPublishers) == multiset(old(local).userPublishers)
                && multiset(local.userSubscribers) == multiset(old(local).userSubscribers)
      ensures SameLocal(old(local), local) ==>
                && updates == old(updates) && lastSent == old(lastSent)
                && transportInfo.bitset == old(transportInfo.bitset)
                && forall t :: t in transportInfo.Objects() ==> unchanged(t)
      ensures !SameLocal(old(local), local) ==>
                && updates == old(updates) + [NeededChannels(local, records)]
                && lastSent == Announced(local.userSubscribers)
                && (if lastSent != old(lastSent) then transportInfo.NoneFailed() && (!terminating ==> AllCurrent())
                    else forall t :: t in transportInfo.Objects() ==> unchanged(t))
    {
      hide AsMap, Distinct, CacheSound, DistinctGateways, OneIndexPerType, Announced, PushUnique, LocalFrom, Reported,
           UserServices, UserPositions, DiscoveryManager.AllCurrent;
      var same := StoreLocal(sample);
      if sample.Some? && |UserPositions(sample.value.subscribers)| <= MAX_TOPICS {
        SubscribersReported(sample.value, local);
      }
      if same {
        return;
      }
      var needed := UpdateNeededChannels();
      updates := updates + [needed];
      AnnounceIfChanged();
    }

    method AnnounceIfChanged()
      requires Wired() && DistinctGateways(records) && OneIndexPerType(records) && |records| <= MAX_DEVICE_COUNT
      requires |local.userSubscribers| <= MAX_TOPICS && |local.userPublishers| <= MAX_TOPICS
      requires transportInfo.NoneFailed() ==> CacheSound(cache.Map(), View(), records, cachedFrom, goneSince)
      modifies `lastSent, `failures, transportInfo`bitset, transportInfo.Objects(), cache
      ensures Valid() && lastSent == Announced(local.userSubscribers)
      ensures if lastSent != old(lastSent) then transportInfo.NoneFailed() && (!terminating ==> AllCurrent())
              else forall t :: t in transportInfo.Objects() ==> unchanged(t)
    {
      hide AsMap, Distinct, CacheSound, DistinctGateways, OneIndexPerType, Announced, PushUnique, TransportInfo.Slots;
      AnnouncedElements(local.userSubscribers);
      var info := GenerateDiscoveryInfo();
      if info.userSubscribers != lastSent {
        SendDiscoveryInfo(info);
        lastSent := info.userSubscribers;
        if transportInfo.bitset == old(transportInfo.bitset) {
          SameView();
          assert cache.Map() == old(cache.Map());
        } else {
          AsMapIs(cache.m_keys, cache.m_elems, map[]);
          EmptyCacheSound(View(), records, cachedFrom, goneSince);
        }
      }
    }

    method StoreLocal(sample: Option<PortSample>) returns (same: bool)
      requires Valid()
      modifies `local
      ensures local == LocalFrom(sample) && same == SameLocal(old(local), local)
      ensures if sample.None? then local == LocalState([], [], []) else Reported(sample.value, local)
      ensures same ==> Valid()
      ensures Wired() && (transportInfo.NoneFailed() ==> CacheSound(cache.Map(), View(), records, cachedFrom, goneSince))
      ensures |local.userSubscribers| <= MAX_TOPICS && |local.userPublishers| <= MAX_TOPICS
    {
      hide AsMap, Distinct, CacheSound, DistinctGateways, OneIndexPerType, Elements, LocalFrom, Reported;
      var now := TakeSample(sample);
      same := CompareLocal(local, now);
      if same {
        SameElements(local.userSubscribers, now.userSubscribers);
      }
      local := now;
      assert View() == old(View());
    }

    /** The two loops over the sample; push_back on a full vector does nothing. */
    static method TakeSample(sample: Option<PortSample>) returns (now: LocalState)
      ensures now == LocalFrom(sample)
      ensures if sample.None? then now == LocalState([], [], []) else Reported(sample.value, now)
      ensures |now.userSubscribers| <= MAX_TOPICS && |now.userPublishers| <= MAX_TOPICS
    {
      now := LocalState([], [], []);
      if sample.Some? {
        var publishers, subscribers := sample.value.publishers, sample.value.subscribers;
        for i := 0 to |publishers|
          invariant now == LocalState(Services(UserPorts(publishers[..i])), [], Ids(UserPorts(publishers[..i])))
        {
          OnePortMore(publishers, i);
          if IsUser(publishers[i]) && |now.userPublishers| < MAX_TOPICS {
            now := now.(userPublishers := now.userPublishers + [publishers[i].service],
                        userPublisherPorts := now.userPublisherPorts + [publishers[i].port]);
          }
        }
        assert publishers[..|publishers|] == publishers;
        for i := 0 to |subscribers|
          invariant now == LocalState(Services(UserPorts(publishers)), Services(UserPorts(subscribers[..i])), Ids(UserPorts(publishers)))
        {
          OnePortMore(subscribers, i);
          if IsUser(subscribers[i]) && |now.userSubscribers| < MAX_TOPICS {
            now := now.(userSubscribers := now.userSubscribers + [subscribers[i].service]);
          }
        }
        assert subscribers[..|subscribers|] == subscribers;
        LocalIsReported(sample.value);
      }
    }

    /** The four differences the log reports; all empty if nothing but the order changed. */
    static method CompareLocal(before: LocalState, now: LocalState) returns (same: bool)
      ensures same == SameLocal(before, now)
    {
      var oldPublishers := DeleteElements(before.userPublishers, now.userPublishers);
      var oldSubscribers := DeleteElements(before.userSubscribers, now.userSubscribers);
      var newPublishers := DeleteElements(now.userPublishers, before.userPublishers);
      var newSubscribers := DeleteElements(now.userSubscribers, before.userSubscribers);
      BothEmptyIffPermutation(before.userPublishers, now.userPublishers);
      BothEmptyIffPermutation(before.userSubscribers, now.userSubscribers);
      same := oldPublishers == [] && oldSubscribers == [] && newPublishers == [] && newSubscribers == [];
    }

    // ---------- routing ----------

    method ContainsService(services: seq<Service>, hash: ClassHash, ghost v: View) returns (r: bool)
      requires v.classHash == classHash
      ensures r == Subscribes(v, services, hash)
    {
      r := false;
      for i := 0 to |services|
        invariant !r && forall j :: 0 <= j < i ==> classHash(services[j]) != hash
      {
        if classHash(services[i]) == hash {
          return true;
        }
      }
    }

    method FindTarget(r: DeviceRecord, ghost v: View) returns (d: seq<DeviceIndex>)
      requires Wired() && v == View()
      ensures d == Target(v, r)
    {
      hide AsMap, Distinct;
      var t := transportInfo.FindMatchingType(r.info.gatewayBitset, preferredType);
      d := if t == NONE then [] else IndexOfType(r.deviceIndices, t);
    }

    method ComputeIndices(hash: ClassHash, ghost v: View) returns (d: seq<DeviceIndex>)
      requires Wired() && v == View()
      ensures d == ComputeDeviceIndices(v, records, hash)
    {
      hide AsMap, Distinct, Subscribes, Target;
      d := [];
      for i := 0 to |records|
        invariant Wired() && View() == v
        invariant d + ComputeDeviceIndices(v, records[i..], hash) == ComputeDeviceIndices(v, records, hash)
      {
        DropOne(records, i);
        var subscribed := ContainsService(records[i].info.userSubscribers, hash, v);
        var target := [];
        if subscribed {
          target := FindTarget(records[i], v);
        }
        assert target == Contribution(v, records[i], hash);
        Assoc(d, target, ComputeDeviceIndices(v, records[i + 1..], hash));
        d := d + target;
      }
    }

    /** Where a local publisher's message goes: nowhere if the publisher is the gateway's own or not
        yet known. A cached answer may differ from a fresh lookup only by destinations in gateways
        terminated since it was computed. */
    method GenerateDeviceIndices(uid: nat, hash: ClassHash) returns (d: seq<DeviceIndex>)
      requires Valid()
      modifies cache, `cachedFrom, `goneSince
      ensures Valid()
      ensures uid in gatewayPublisherUids || uid !in local.userPublisherPorts ==> d == [] && cache.Map() == old(cache.Map())
      ensures uid !in gatewayPublisherUids && uid in local.userPublisherPorts ==>
                if hash in old(cache.Map()) then d == old(cache.Map())[hash] && cache.Map() == old(cache.Map())
                else if |old(cache.Map())| < MAX_TOPICS then
                  && d == ComputeDeviceIndices(View(), records, hash) && Destinations(View(), records, hash, {}, d)
                  && cache.Map() == old(cache.Map())[hash := d]
                else d == [] && cache.Map() == old(cache.Map())
      ensures transportInfo.NoneFailed() && hash in cache.Map() ==>
                && hash in cachedFrom && hash in goneSince
                && Parts(ComputeDeviceIndices(View(), records, hash),
                         ComputeDeviceIndices(View(), Casualties(cachedFrom[hash], goneSince[hash]), hash), cache.Map()[hash])
    {
      hide AsMap, Distinct, DistinctGateways, OneIndexPerType, ComputeDeviceIndices, Casualties, Parts, CacheSound, Destinations;
      ghost var v := View();
      CacheWorth(hash, v);
      if uid in gatewayPublisherUids || uid !in local.userPublisherPorts {
        return [];
      }
      var it := cache.Find(hash);
      if it < |cache.m_elems| {
        d := cache.m_elems[it];
      } else {
        assert View() == v;
        var emplaced;
        d, emplaced := CacheIndices(hash);
        if !emplaced {
          d := [];
        }
      }
      assert View() == v;
      CacheWorth(hash, v);
    }

    /** What a cached answer is worth while no transport is failing. */
    lemma CacheWorth(hash: ClassHash, v: View)
      requires Valid() && v == View()
      ensures transportInfo.NoneFailed() && hash in cache.Map() ==>
                && hash in cachedFrom && hash in goneSince
                && Parts(ComputeDeviceIndices(v, records, hash),
                         ComputeDeviceIndices(v, Casualties(cachedFrom[hash], goneSince[hash]), hash), cache.Map()[hash])
    {
      hide AsMap, Distinct, DistinctGateways, OneIndexPerType, ComputeDeviceIndices, Casualties, Parts, CacheSound;
      if transportInfo.NoneFailed() && hash in cache.Map() {
        CachedIn(cache.Map(), v, records, hash, cachedFrom, goneSince);
        CachedResult(cache.Map(), v, records, hash, cachedFrom, goneSince);
      }
    }

    /** A new cache entry, unless the cache is full. */
    method CacheIndices(hash: ClassHash) returns (d: seq<DeviceIndex>, emplaced: bool)
      requires Valid() && hash !in cache.Map()
      modifies cache, `cachedFrom, `goneSince
      ensures Valid() && View() == old(View())
      ensures emplaced == (|old(cache.Map())| < MAX_TOPICS)
      ensures d == ComputeDeviceIndices(View(), records, hash) && Destinations(View(), records, hash, {}, d)
      ensures cache.Map() == if emplaced then old(cache.Map())[hash := d] else old(cache.Map())
    {
      hide AsMap, Distinct, DistinctGateways, OneIndexPerType, ComputeDeviceIndices, CacheSound, Destinations, Elements;
      AsMapSize(cache.m_keys, cache.m_elems);
      ghost var v := View();
      d := ComputeIndices(hash, v);
      WhoReceives(v, records, hash);
      if transportInfo.NoneFailed() {
        QueryKeepsSound(cache.Map(), v, records, hash, cachedFrom, goneSince);
      }
      emplaced := cache.Emplace(hash, d);
      if emplaced {
        cachedFrom, goneSince := cachedFrom[hash := records], goneSince[hash := {}];
      }
      assert View() == v;
    }

    /** Where a message that came from another device is sent on to. */
    method GenerateDeviceIndicesForwarding(hash: ClassHash, from: DeviceIndex) returns (d: seq<DeviceIndex>)
      requires Wired()
      ensures d == ForwardIndices(View(), records, hash, from) && Forwarded(View(), records, hash, from, d)
    {
      hide AsMap, Distinct, TransportInfo.Valid, Contribution, Forwarded;
      WhoIsForwarded(View(), records, hash, from);
      var source: Bitset := {};
      for i := 0 to |records|
        invariant source == BitsetFrom(records[..i], from)
      {
        assert records[..i + 1][..i] == records[..i];
        if from in records[i].deviceIndices {
          source := records[i].info.gatewayBitset;
        }
      }
      assert records[..|records|] == records;
      if source == {} {
        return [];
      }
      ghost var v := View();
      d := ForwardTo(hash, source, v);
      assert View() == v;
    }

    method ForwardTo(hash: ClassHash, source: Bitset, ghost v: View) returns (d: seq<DeviceIndex>)
      requires Wired() && v == View()
      ensures d == ForwardTargets(v, records, hash, source)
    {
      hide AsMap, Distinct, Subscribes, Target;
      d := [];
      for i := 0 to |records|
        invariant Wired() && View() == v
        invariant d + ForwardTargets(v, records[i..], hash, source) == ForwardTargets(v, records, hash, source)
      {
        DropOne(records, i);
        var target := [];
        if source * records[i].info.gatewayBitset == {} {
          var subscribed := ContainsService(records[i].info.userSubscribers, hash, v);
          if subscribed {
            target := FindTarget(records[i], v);
          }
        }
        assert target == ForwardContribution(v, records[i], hash, source);
        Assoc(d, target, ForwardTargets(v, records[i + 1..], hash, source));
        d := d + target;
      }
    }

    /** doFor with a broadcast: the periodic repetition on one transport. */
    method ResendDiscoveryInfoToTransport(i: nat)
      requires Wired() && i < TRANSPORT_TYPE_COUNT
      modifies transportInfo`bitset, transportInfo.Objects(), cache, `failures
      ensures Wired() && transportInfo.bitset <= old(transportInfo.bitset)
      ensures failures == old(failures) + |old(transportInfo.bitset)| - |transportInfo.bitset|
      ensures transportInfo.bitset != old(transportInfo.bitset) ==> cache.m_keys == []
      ensures !terminating && transportInfo.transports[i] != null && transportInfo.transports[i].status == GOOD ==>
                var last := transportInfo.transports[i].LastBroadcast(); last.Some? && Current(last.value)
    {
      hide AsMap, Distinct, Announced;
      var info := GenerateDiscoveryInfo();
      var t := transportInfo.transports[i];
      if t != null && t.IsGood() {
        t.SendBroadcast(info);
      }
      var failed := transportInfo.DisableIfFailed(i);
      if failed {
        FailCallback();
      }
    }

    method StorePublisherUids(uids: seq<nat>)
      modifies `gatewayPublisherUids
      ensures gatewayPublisherUids == uids && (old(Valid()) ==> Valid())
    {
      hide AsMap, Distinct, CacheSound, DistinctGateways, OneIndexPerType, Elements;
      gatewayPublisherUids := uids;
      assert View() == old(View());
    }

    /** The gateway's own publishers, kept by Transport2Iceoryx as its channels come and go. */
    method AddGatewayPublisher(uid: nat)
      modifies `gatewayPublisherUids
      ensures multiset(gatewayPublisherUids) == multiset(old(gatewayPublisherUids)) + multiset{uid}
      ensures old(Valid()) ==> Valid()
    {
      hide DiscoveryManager.Valid;
      StorePublisherUids(gatewayPublisherUids + [uid]);
    }

    method DiscardGatewayPublisher(uid: nat)
      modifies `gatewayPublisherUids
      ensures multiset(gatewayPublisherUids) == multiset(old(gatewayPublisherUids)) - multiset{uid}
      ensures old(Valid()) ==> Valid()
    {
      hide DiscoveryManager.Valid;
      DeleteIsDifference(gatewayPublisherUids, uid);
      StorePublisherUids(Delete(gatewayPublisherUids, uid));
    }
  }

  /** A record that is made empty and then filled. */
  lemma NewRecord(records: seq<DeviceRecord>, info: PubSubInfo, from: DeviceIndex)
    ensures (records + [DeviceRecord(info, [])])[|records| := DeviceRecord(info, StoreIndex([], from))]
            == records + [DeviceRecord(info, [from])]
  {
    assert [] + [from] == [from];
  }

  lemma CachedIn(m: map<ClassHash, seq<DeviceIndex>>, v: View, records: seq<DeviceRecord>, hash: ClassHash,
                 base: map<ClassHash, seq<DeviceRecord>>, gone: map<ClassHash, set<Hash>>)
    requires CacheSound(m, v, records, base, gone) && hash in m
    ensures hash in base && hash in gone
  {}
}

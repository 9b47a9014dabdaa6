/** The channels of a gateway, one endpoint for each service it needs, and the publisher ids that
    keep its own messages from being sent back. */
module Gateways {
  import opened Types
  import opened Helpers
  import opened VectorMaps
  import opened Discovery

  /** An endpoint object; `uid` is its identity, the port id iceoryx gave it. */
  datatype Endpoint = Endpoint(service: Service, uid: nat)

  function Uids(es: seq<Endpoint>): (r: seq<nat>)
    ensures |r| == |es|
    ensures forall i :: 0 <= i < |es| ==> r[i] == es[i].uid
  {
    seq(|es|, i requires 0 <= i < |es| => es[i].uid)
  }

  lemma UidsSnoc(es: seq<Endpoint>, e: Endpoint)
    ensures Uids(es + [e]) == Uids(es) + [e.uid]
  {}

  lemma UidsPlus(a: seq<Endpoint>, b: seq<Endpoint>)
    ensures Uids(a + b) == Uids(a) + Uids(b)
  {}

  lemma UidsWithout(es: seq<Endpoint>, i: nat)
    requires i < |es|
    ensures multiset(Uids(Without(es, i))) == multiset(Uids(es)) - multiset{es[i].uid}
  {
    var a, b := es[..i], es[i + 1..];
    assert Without(es, i) == a + b;
    assert es == a + [es[i]] + b;
    UidsPlus(a, b);
    UidsPlus(a + [es[i]], b);
    UidsSnoc(a, es[i]);
    hide Uids;
  }

  /** Endpoints are filed under the class hash of their service. */
  ghost predicate Filed(ks: seq<ClassHash>, es: seq<Endpoint>, classHash: Service -> ClassHash) {
    |ks| == |es| && forall i :: 0 <= i < |ks| ==> ks[i] == classHash(es[i].service)
  }

  /** The recorded ids are exactly those of the endpoints, each a different one of those owned. */
  ghost predicate OwnIds(es: seq<Endpoint>, uids: seq<nat>, owned: set<nat>) {
    && multiset(uids) == multiset(Uids(es))
    && (forall i :: 0 <= i < |es| ==> es[i].uid in owned)
    && (forall i, j :: 0 <= i < j < |es| ==> es[i].uid != es[j].uid)
  }

  lemma AddedOk(ks: seq<ClassHash>, es: seq<Endpoint>, classHash: Service -> ClassHash, uids: seq<nat>, owned: set<nat>,
                service: Service, uid: nat, more: seq<nat>)
    requires Filed(ks, es, classHash) && OwnIds(es, uids, owned) && uid !in owned
    requires more == Uids(es + [Endpoint(service, uid)]) || multiset(more) == multiset(uids) + multiset{uid}
    ensures Filed(ks + [classHash(service)], es + [Endpoint(service, uid)], classHash)
    ensures OwnIds(es + [Endpoint(service, uid)], more, owned + {uid})
  {
    UidsSnoc(es, Endpoint(service, uid));
  }

  lemma RemovedOk(ks: seq<ClassHash>, es: seq<Endpoint>, classHash: Service -> ClassHash, uids: seq<nat>, owned: set<nat>, i: nat,
                  left: seq<nat>)
    requires Filed(ks, es, classHash) && OwnIds(es, uids, owned) && i < |es|
    requires left == Uids(Without(es, i)) || multiset(left) == multiset(uids) - multiset{es[i].uid}
    ensures Filed(Without(ks, i), Without(es, i), classHash)
    ensures OwnIds(Without(es, i), left, owned)
  {
    UidsWithout(es, i);
  }

  lemma OwnIdsAmongMore(es: seq<Endpoint>, uids: seq<nat>, owned: set<nat>, more: set<nat>)
    requires OwnIds(es, uids, owned) && owned <= more
    ensures OwnIds(es, uids, more)
  {}

  /** The port ids of iceoryx: every id below `next` has been given out, to this process or
      another, and none is given out twice. */
  class PortIds {
    var next: nat

    constructor () {}

    method Create() returns (uid: nat)
      modifies this
      ensures old(next) <= uid < next
    {
      uid :| next <= uid;
      next := uid + 1;
    }

    /** Other processes create ports. */
    method Others()
      modifies this
      ensures old(next) <= next
    {
      var later: nat :| next <= later;
      next := later;
    }
  }

  /** Transport2Iceoryx, whose endpoints are publishers, or Iceoryx2Transport, whose endpoints are
      subscribers. */
  class Gateway {
    const publishes: bool
    const classHash: Service -> ClassHash
    const m_endpoints: VectorMap<ClassHash, Endpoint>
    /** It keeps the list of the gateway's own publishers. */
    const discovery: DiscoveryManager
    const ports: PortIds
    /** The ids of all endpoints the gateway ever had. */
    ghost var owned: set<nat>

    constructor (publishes: bool, classHash: Service -> ClassHash, discovery: DiscoveryManager, ports: PortIds)
      requires discovery.gatewayPublisherUids == []
      ensures Valid() && Endpoints() == map[] && fresh(m_endpoints) && owned == {}
      ensures this.publishes == publishes && this.classHash == classHash && this.discovery == discovery && this.ports == ports
    {
      this.publishes, this.classHash, this.discovery, this.ports := publishes, classHash, discovery, ports;
      m_endpoints := new VectorMap(MAX_TOPICS);
      owned := {};
    }

    ghost function Endpoints(): map<ClassHash, Endpoint>
      requires m_endpoints.Aligned()
      reads m_endpoints
    {
      m_endpoints.Map()
    }

    /** Publishers are recorded with the discovery manager, subscribers nowhere. */
    ghost function Recorded(): seq<nat>
      reads m_endpoints, discovery`gatewayPublisherUids
    {
      if publishes then discovery.gatewayPublisherUids else Uids(m_endpoints.m_elems)
    }

    ghost predicate Valid()
      reads this, m_endpoints, ports, discovery`gatewayPublisherUids
    {
      && m_endpoints.Valid() && m_endpoints.capacity == MAX_TOPICS
      && Filed(m_endpoints.m_keys, m_endpoints.m_elems, classHash)
      && OwnIds(m_endpoints.m_elems, Recorded(), owned)
      && (forall uid :: uid in owned ==> uid < ports.next)
    }

    /** No id the gateway ever had is listed as a user publisher port, nor will be given to one. */
    ghost predicate Apart()
      reads this, ports, discovery`local
    {
      && (forall uid :: uid in owned ==> uid !in discovery.local.userPublisherPorts)
      && (forall port :: port in discovery.local.userPublisherPorts ==> port < ports.next)
    }

    /** With the table full the new endpoint is dropped again. */
    method AddChannel(service: Service) returns (ghost uid: nat)
      requires Valid() && classHash(service) !in Endpoints()
      modifies discovery`gatewayPublisherUids, `owned, ports, m_endpoints
      ensures Valid() && old(ports.next) <= uid < ports.next && owned == old(owned) + {uid}
      ensures old(Apart()) ==> Apart()
      ensures Endpoints() == if |old(Endpoints())| < MAX_TOPICS
                             then old(Endpoints())[classHash(service) := Endpoint(service, uid)] else old(Endpoints())
      ensures !publishes ==> discovery.gatewayPublisherUids == old(discovery.gatewayPublisherUids)
    {
      hide AsMap, Distinct, Filed, OwnIds, Uids, DiscoveryManager.Valid;
      var v := m_endpoints;
      AsMapSize(v.m_keys, v.m_elems);
      ghost var ks, es, recorded, others := v.m_keys, v.m_elems, Recorded(), owned;
      var id := ports.Create();
      uid := id;
      owned := owned + {uid};
      var emplaced := v.Emplace(classHash(service), Endpoint(service, id));
      if emplaced {
        if publishes {
          discovery.AddGatewayPublisher(id);
        }
        AddedOk(ks, es, classHash, recorded, others, service, uid, Recorded());
      } else {
        OwnIdsAmongMore(es, recorded, others, owned);
      }
    }

    method DiscardChannel(service: Service)
      requires Valid()
      modifies discovery`gatewayPublisherUids, m_endpoints
      ensures Valid() && Endpoints() == old(Endpoints()) - {classHash(service)}
      ensures old(Apart()) ==> Apart()
      ensures !publishes ==> discovery.gatewayPublisherUids == old(discovery.gatewayPublisherUids)
    {
      hide AsMap, Distinct, Filed, OwnIds, Without, Uids;
      var v := m_endpoints;
      var it := v.Find(classHash(service));
      if it != |v.m_elems| {
        ghost var ks, es, recorded := v.m_keys, v.m_elems, Recorded();
        if publishes {
          discovery.DiscardGatewayPublisher(v.m_elems[it].uid);
        }
        v.Erase(it);
        RemovedOk(ks, es, classHash, recorded, owned, it, Recorded());
      }
    }

    /** The endpoints whose service is not needed any more. */
    method ServicesToDelete(services: seq<Service>) returns (r: seq<Service>)
      requires Valid()
      ensures forall s :: s in r <==> s !in services && classHash(s) in Endpoints() && Endpoints()[classHash(s)].service == s
    {
      var v := m_endpoints;
      r := [];
      for i := 0 to |v.m_elems|
        invariant forall s :: s in r <==> s !in services && exists j :: 0 <= j < i && v.m_elems[j].service == s
      {
        var service := v.m_elems[i].service;
        if service !in services {
          r := r + [service];
        }
      }
      ServiceFiled(v.m_keys, v.m_elems, classHash);
    }

    /** The needed services without an endpoint. */
    method ServicesToSetup(services: seq<Service>) returns (r: seq<Service>)
      requires Valid() && NoDuplicates(services)
      ensures forall s :: s in r <==> s in services && classHash(s) !in Endpoints()
      ensures NoDuplicates(r)
    {
      hide AsMap, Distinct, Filed, OwnIds;
      r := [];
      for i := 0 to |services|
        invariant forall s :: s in r <==> s in services[..i] && classHash(s) !in Endpoints()
        invariant NoDuplicates(r)
      {
        var it := m_endpoints.Find(classHash(services[i]));
        assert services[..i + 1] == services[..i] + [services[i]];
        assert services[i] !in services[..i];
        if it == |m_endpoints.m_elems| {
          r := r + [services[i]];
        }
      }
      assert services[..|services|] == services;
    }

    /** Class hashes tell the services concerned apart. */
    ghost predicate HashesApart(services: seq<Service>)
      requires m_endpoints.Aligned()
      reads m_endpoints
    {
      && (forall s, t :: s in services && t in services && classHash(s) == classHash(t) ==> s == t)
      && (forall s, h :: s in services && h in Endpoints() && classHash(s) == h ==> Endpoints()[h].service == s)
    }

    /** updateChannelsInternal: afterwards there is exactly one endpoint for each needed service;
        those that were there are the same objects, the others are new. */
    method UpdateChannels(services: seq<Service>)
      requires Valid() && NoDuplicates(services) && |services| <= MAX_TOPICS && HashesApart(services)
      modifies discovery`gatewayPublisherUids, `owned, ports, m_endpoints
      ensures Valid() && old(ports.next) <= ports.next && Grown() && (old(Apart()) ==> Apart())
      ensures Endpoints().Keys == Hashes(classHash, services)
      ensures forall s :: s in services ==> Endpoints()[classHash(s)].service == s
      ensures forall h :: h in Endpoints() && h in old(Endpoints()) ==> Endpoints()[h] == old(Endpoints())[h]
      ensures forall h :: h in Endpoints() && h !in old(Endpoints()) ==> Endpoints()[h].uid >= old(ports.next)
      ensures !publishes ==> discovery.gatewayPublisherUids == old(discovery.gatewayPublisherUids)
    {
      hide AsMap, Distinct, Filed, OwnIds, NoDuplicates, Uids;
      EndpointsFiled();
      var toDelete := ServicesToDelete(services);
      var toSetup := ServicesToSetup(services);
      DeleteAll(toDelete);
      ghost var kept := Endpoints();
      ghost var uids := SetupAll(services, toSetup);
      HashesDiffer(classHash, services, toSetup);
      SetUpMeaning(classHash, kept, toSetup, uids);
    }

    /** The gateway owns more ids than before, and the additional ones are new. */
    twostate predicate Grown()
      reads this, ports
    {
      && old(owned) <= owned
      && forall uid :: uid in owned && uid !in old(owned) ==> old(ports.next) <= uid < ports.next
    }

    /** The ids the discovery manager takes for the gateway's own are exactly those of the live
        endpoints. */
    lemma OwnPublishersKnown(uid: nat)
      requires Valid() && publishes
      ensures uid in discovery.gatewayPublisherUids
         <==> exists h :: h in Endpoints() && Endpoints()[h].uid == uid
    {
      var v := m_endpoints;
      assert uid in discovery.gatewayPublisherUids <==> uid in multiset(Uids(v.m_elems));
      if uid in Uids(v.m_elems) {
        var i :| 0 <= i < |v.m_elems| && Uids(v.m_elems)[i] == uid;
        AsMapAt(v.m_keys, v.m_elems, i);
        assert v.m_keys[i] in Endpoints();
      }
      if h :| h in Endpoints() && Endpoints()[h].uid == uid {
        assert Uids(v.m_elems)[Index(v.m_keys, h)] == uid;
      }
    }

    /** The introspection tells the truth: it lists only ports that exist, and the gateway's own under
        the gateway's node name. */
    ghost predicate Truthful(sample: Option<PortSample>)
      reads this, ports
    {
      sample.Some? ==>
        forall p :: p in sample.value.publishers ==> p.port < ports.next && (p.port in owned ==> p.node == IOX_GW_NODE_NAME)
    }

    method OtherPorts()
      requires Valid()
      modifies ports
      ensures Valid() && (old(Apart()) ==> Apart())
    {
      hide AsMap, Distinct, Filed, OwnIds, Uids;
      ports.Others();
    }

    /** The introspection thread reads the ports anew. */
    method ReadPorts(sample: Option<PortSample>)
      requires Valid() && discovery.Valid() && Truthful(sample)
      modifies discovery`local, discovery`lastSent, discovery`updates, discovery`failures,
               discovery.transportInfo`bitset, discovery.transportInfo.Objects(), discovery.cache
      ensures Valid() && discovery.Valid() && Apart()
    {
      hide AsMap, Distinct, Filed, OwnIds, Uids, LocalFrom, Reported, UserServices, UserPositions, SameLocal, NeededChannels,
           Announced, Elements, DiscoveryManager.Valid, DiscoveryManager.AllCurrent;
      discovery.ReadPortSubscriber(sample);
      UserPortsApart(sample, owned, ports.next);
    }

    /** What a publisher of the gateway itself has sent is sent nowhere, even if its endpoint has been
        deleted since. */
    method RouteSample(uid: nat, hash: ClassHash) returns (d: seq<DeviceIndex>)
      requires Valid() && discovery.Valid() && Apart()
      modifies discovery.cache, discovery`cachedFrom, discovery`goneSince
      ensures Valid() && discovery.Valid() && Apart()
      ensures uid in owned ==> d == []
    {
      hide AsMap, Distinct, Filed, OwnIds, Uids, DiscoveryManager.Valid;
      d := discovery.GenerateDeviceIndices(uid, hash);
    }

    lemma EndpointsFiled()
      requires Valid()
      ensures forall h :: h in Endpoints() ==> classHash(Endpoints()[h].service) == h
    {
      var v := m_endpoints;
      forall h | h in Endpoints() ensures classHash(Endpoints()[h].service) == h {
        assert v.m_keys[Index(v.m_keys, h)] == h;
      }
    }

    method DeleteAll(toDelete: seq<Service>)
      requires Valid()
      modifies discovery`gatewayPublisherUids, m_endpoints
      ensures Valid() && Endpoints() == old(Endpoints()) - Hashes(classHash, toDelete)
      ensures !publishes ==> discovery.gatewayPublisherUids == old(discovery.gatewayPublisherUids)
    {
      hide AsMap, Distinct, Filed, OwnIds;
      for i := 0 to |toDelete|
        invariant Valid() && Endpoints() == old(Endpoints()) - Hashes(classHash, toDelete[..i])
        invariant !publishes ==> discovery.gatewayPublisherUids == old(discovery.gatewayPublisherUids)
      {
        HashesSnoc(classHash, toDelete, i);
        DiscardChannel(toDelete[i]);
      }
      assert toDelete[..|toDelete|] == toDelete;
    }

    method SetupAll(services: seq<Service>, toSetup: seq<Service>) returns (ghost uids: seq<nat>)
      requires Valid() && |services| <= MAX_TOPICS && Endpoints().Keys <= Hashes(classHash, services)
      requires NoDuplicates(toSetup) && forall s :: s in toSetup ==> s in services && classHash(s) !in Endpoints()
      requires forall s, t :: s in services && t in services && classHash(s) == classHash(t) ==> s == t
      modifies discovery`gatewayPublisherUids, `owned, ports, m_endpoints
      ensures |uids| == |toSetup| && forall i :: 0 <= i < |uids| ==> uids[i] >= old(ports.next)
      ensures Valid() && Endpoints() == SetUp(classHash, old(Endpoints()), toSetup, uids)
      ensures old(ports.next) <= ports.next && Grown()
      ensures !publishes ==> discovery.gatewayPublisherUids == old(discovery.gatewayPublisherUids)
    {
      hide AsMap, Distinct, Filed, OwnIds, Hashes, SetUp, Uids;
      uids := [];
      SetUpNothing(classHash, Endpoints(), toSetup);
      for i := 0 to |toSetup|
        invariant Valid() && old(ports.next) <= ports.next && Grown()
        invariant |uids| == i && forall j :: 0 <= j < i ==> uids[j] >= old(ports.next)
        invariant Endpoints() == SetUp(classHash, old(Endpoints()), toSetup[..i], uids)
        invariant !publishes ==> discovery.gatewayPublisherUids == old(discovery.gatewayPublisherUids)
      {
        RoomForOne(classHash, old(Endpoints()), services, toSetup, i, uids);
        ghost var uid := AddChannel(toSetup[i]);
        SetUpOne(classHash, old(Endpoints()), toSetup, i, uids, uid);
        uids := uids + [uid];
      }
      assert toSetup[..|toSetup|] == toSetup;
    }
  }

  lemma UserPortsApart(sample: Option<PortSample>, owned: set<nat>, next: nat)
    requires sample.Some? ==>
               forall p :: p in sample.value.publishers ==> p.port < next && (p.port in owned ==> p.node == IOX_GW_NODE_NAME)
    ensures forall port :: port in LocalFrom(sample).userPublisherPorts ==> port !in owned && port < next
  {
    if sample.Some? {
      var users := UserPorts(sample.value.publishers);
      forall i | 0 <= i < |users| ensures Ids(users)[i] !in owned && Ids(users)[i] < next {
        assert users[i] in sample.value.publishers && IsUser(users[i]);
      }
    }
  }

  /** The update callback on what discovery knows: the channels of both gateways become the union of
      what local and remote users need, as long as that fits. */
  method UpdateCallback(tr2iox: Gateway, iox2tr: Gateway)
    requires tr2iox.publishes && !iox2tr.publishes && tr2iox.m_endpoints != iox2tr.m_endpoints
    requires tr2iox.discovery == iox2tr.discovery && tr2iox.ports == iox2tr.ports && tr2iox.classHash == iox2tr.classHash
    requires tr2iox.Valid() && iox2tr.Valid() && |tr2iox.discovery.local.userSubscribers| <= MAX_TOPICS
    requires var needed := NeededChannels(tr2iox.discovery.local, tr2iox.discovery.records);
             tr2iox.HashesApart(needed) && iox2tr.HashesApart(needed)
    modifies tr2iox.discovery`gatewayPublisherUids, tr2iox`owned, iox2tr`owned, tr2iox.ports
    modifies tr2iox.m_endpoints, iox2tr.m_endpoints
    ensures tr2iox.Valid() && iox2tr.Valid() && (old(tr2iox.Apart()) ==> tr2iox.Apart())
    ensures var d := tr2iox.discovery;
            var all := Elements(d.local.userSubscribers) + Elements(d.local.userPublishers) + RemoteServices(d.records);
            |all| <= MAX_TOPICS ==>
              && tr2iox.Endpoints().Keys == (set s | s in all :: tr2iox.classHash(s))
              && iox2tr.Endpoints().Keys == (set s | s in all :: tr2iox.classHash(s))
  {
    hide AsMap, Distinct, Filed, OwnIds, Uids, NeededChannels, NoDuplicates, Elements;
    var d := tr2iox.discovery;
    NeededChannelsIsUnion(d.local, d.records);
    var services := d.UpdateNeededChannels();
    tr2iox.UpdateChannels(services);
    iox2tr.UpdateChannels(services);
    HashesOfElements(tr2iox.classHash, services);
  }

  lemma HashesOfElements(classHash: Service -> ClassHash, services: seq<Service>)
    ensures Hashes(classHash, services) == set s | s in Elements(services) :: classHash(s)
  {}

  /** Because the deletions are done, no set-up finds the table full. */
  lemma RoomForOne(classHash: Service -> ClassHash, m: map<ClassHash, Endpoint>, services: seq<Service>,
                   toSetup: seq<Service>, i: nat, uids: seq<nat>)
    requires i < |toSetup| && |uids| == i && NoDuplicates(toSetup) && |services| <= MAX_TOPICS
    requires forall s :: s in toSetup ==> s in services && classHash(s) !in m
    requires forall s, t :: s in services && t in services && classHash(s) == classHash(t) ==> s == t
    requires m.Keys <= Hashes(classHash, services)
    ensures classHash(toSetup[i]) !in SetUp(classHash, m, toSetup[..i], uids)
    ensures |SetUp(classHash, m, toSetup[..i], uids)| < MAX_TOPICS
  {
    hide SetUp;
    HashesDiffer(classHash, services, toSetup);
    SetUpMeaning(classHash, m, toSetup[..i], uids);
    HashesInto(classHash, services, toSetup[..i]);
    HashesCount(classHash, services);
    var keys, h := SetUp(classHash, m, toSetup[..i], uids).Keys, classHash(toSetup[i]);
    assert h !in Hashes(classHash, toSetup[..i]);
    assert h in Hashes(classHash, services);
    SubsetSize(keys + {h}, Hashes(classHash, services));
    assert |keys + {h}| == |keys| + 1;
  }

  lemma SetUpNothing(classHash: Service -> ClassHash, m: map<ClassHash, Endpoint>, toSetup: seq<Service>)
    ensures SetUp(classHash, m, toSetup[..0], []) == m
  {}

  lemma SetUpOne(classHash: Service -> ClassHash, m: map<ClassHash, Endpoint>, toSetup: seq<Service>, i: nat,
                 uids: seq<nat>, uid: nat)
    requires i < |toSetup| && |uids| == i
    ensures SetUp(classHash, m, toSetup[..i + 1], uids + [uid])
            == SetUp(classHash, m, toSetup[..i], uids)[classHash(toSetup[i]) := Endpoint(toSetup[i], uid)]
  {
    assert toSetup[..i + 1][..i] == toSetup[..i];
    assert (uids + [uid])[..i] == uids;
  }

  function Hashes(classHash: Service -> ClassHash, services: seq<Service>): set<ClassHash> {
    set s | s in services :: classHash(s)
  }

  lemma HashesInto(classHash: Service -> ClassHash, services: seq<Service>, some: seq<Service>)
    requires forall s :: s in some ==> s in services
    ensures Hashes(classHash, some) <= Hashes(classHash, services)
  {}

  /** The endpoints with these services added one by one, under these ids. */
  ghost function SetUp(classHash: Service -> ClassHash, m: map<ClassHash, Endpoint>, services: seq<Service>, uids: seq<nat>)
    : map<ClassHash, Endpoint>
    requires |uids| == |services|
  {
    if services == [] then m
    else
      var n := |services| - 1;
      SetUp(classHash, m, services[..n], uids[..n])[classHash(services[n]) := Endpoint(services[n], uids[n])]
  }

  lemma {:induction false} SetUpMeaning(classHash: Service -> ClassHash, m: map<ClassHash, Endpoint>, services: seq<Service>,
                                        uids: seq<nat>)
    requires |uids| == |services|
    requires forall i :: 0 <= i < |services| ==> classHash(services[i]) !in m
    requires forall i, j :: 0 <= i < j < |services| ==> classHash(services[i]) != classHash(services[j])
    ensures var m' := SetUp(classHash, m, services, uids);
            && m'.Keys == m.Keys + Hashes(classHash, services)
            && (forall h :: h in m ==> m'[h] == m[h])
            && (forall i :: 0 <= i < |services| ==>
                  classHash(services[i]) in m' && m'[classHash(services[i])] == Endpoint(services[i], uids[i]))
  {
    hide Hashes;
    if services == [] {
      HashesNone(classHash);
    } else {
      var n := |services| - 1;
      SetUpMeaning(classHash, m, services[..n], uids[..n]);
      HashesSnoc(classHash, services, n);
      assert services[..|services|] == services && uids[..n] + [uids[n]] == uids;
      SetUpOne(classHash, m, services, n, uids[..n], uids[n]);
      hide SetUp;
      var m1, m' := SetUp(classHash, m, services[..n], uids[..n]), SetUp(classHash, m, services, uids);
      forall i | 0 <= i < n
        ensures classHash(services[i]) in m' && m'[classHash(services[i])] == Endpoint(services[i], uids[i])
      {
        assert services[..n][i] == services[i];
        assert classHash(services[i]) in m1 && m1[classHash(services[i])] == Endpoint(services[i], uids[i]);
      }
    }
  }

  lemma HashesNone(classHash: Service -> ClassHash)
    ensures Hashes(classHash, []) == {}
  {}

  lemma HashesDiffer(classHash: Service -> ClassHash, services: seq<Service>, some: seq<Service>)
    requires NoDuplicates(some) && forall s :: s in some ==> s in services
    requires forall s, t :: s in services && t in services && classHash(s) == classHash(t) ==> s == t
    ensures forall i, j :: 0 <= i < j < |some| ==> classHash(some[i]) != classHash(some[j])
  {}

  lemma HashesSnoc(classHash: Service -> ClassHash, services: seq<Service>, i: nat)
    requires i < |services|
    ensures Hashes(classHash, services[..i + 1]) == Hashes(classHash, services[..i]) + {classHash(services[i])}
  {
    assert services[..i + 1] == services[..i] + [services[i]];
  }

  lemma {:induction false} HashesCount(classHash: Service -> ClassHash, services: seq<Service>)
    ensures |Hashes(classHash, services)| <= |services|
  {
    if services != [] {
      var n := |services| - 1;
      HashesCount(classHash, services[..n]);
      HashesSnoc(classHash, services, n);
      assert services[..|services|] == services;
    }
  }

  /** The endpoint of a service, by position and by class hash. */
  lemma ServiceFiled(ks: seq<ClassHash>, es: seq<Endpoint>, classHash: Service -> ClassHash)
    requires Filed(ks, es, classHash) && Distinct(ks)
    ensures forall s :: (exists j :: 0 <= j < |es| && es[j].service == s)
                        <==> classHash(s) in AsMap(ks, es) && AsMap(ks, es)[classHash(s)].service == s
  {
    forall s, j | 0 <= j < |es| && es[j].service == s
      ensures classHash(s) in AsMap(ks, es) && AsMap(ks, es)[classHash(s)].service == s
    {
      AsMapAt(ks, es, j);
    }
    forall s | classHash(s) in AsMap(ks, es) && AsMap(ks, es)[classHash(s)].service == s
      ensures exists j :: 0 <= j < |es| && es[j].service == s
    {
      assert es[Index(ks, classHash(s))].service == s;
    }
  }
}

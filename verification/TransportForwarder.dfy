/** The forwarder: which message came from which device, until it is taken to be sent on. */
module TransportForwarder {
  import opened Types
  import opened VectorMaps
  import opened Routing
  import opened Discovery

  const MAX_FORWARDED_SERVICES := 8

  type Payload = nat

  class Forwarder {
    const discovery: DiscoveryManager
    const forwardedServices: seq<ClassHash>
    const m_messagesToForward: VectorMap<Payload, DeviceIndex>

    constructor (discovery: DiscoveryManager, forwardedServices: seq<ClassHash>)
      ensures Valid() && fresh(m_messagesToForward) && m_messagesToForward.m_keys == []
      ensures this.discovery == discovery && this.forwardedServices == forwardedServices
    {
      this.discovery, this.forwardedServices := discovery, forwardedServices;
      m_messagesToForward := new VectorMap(MAX_FORWARDED_SERVICES);
    }

    ghost predicate Valid()
      reads m_messagesToForward
    {
      m_messagesToForward.Aligned() && m_messagesToForward.capacity == MAX_FORWARDED_SERVICES
    }

    ghost function Sources(): map<Payload, DeviceIndex>
      requires m_messagesToForward.Aligned()
      reads m_messagesToForward
    {
      m_messagesToForward.Map()
    }

    /** A message being published for a forwarded service; one too many is not recorded. An earlier
        message at the same address that was never taken stays recorded, and hides the new one. */
    method Push(payload: Payload, hash: ClassHash, from: DeviceIndex)
      requires Valid()
      modifies m_messagesToForward
      ensures Valid()
      ensures var m := m_messagesToForward;
              var recorded := hash in forwardedServices && |old(m.m_keys)| < MAX_FORWARDED_SERVICES;
              && m.m_keys == old(m.m_keys) + (if recorded then [payload] else [])
              && m.m_elems == old(m.m_elems) + (if recorded then [from] else [])
              && Sources() == if recorded && payload !in old(Sources()) then old(Sources())[payload := from] else old(Sources())
    {
      hide AsMap, Distinct;
      var m := m_messagesToForward;
      if payload in m.m_keys {
        FirstIsFound(m.m_keys, m.m_elems, payload, from);
      } else {
        NewIsFound(m.m_keys, m.m_elems, payload, from);
      }
      if hash in forwardedServices {
        var emplaced := m.Emplace(payload, from);
      }
    }

    /** A message taken again: it is sent on to the devices the discovery manager names for the
        device it came from, and its record goes. If it was never recorded, as one published by a
        user of this device, what is taken for that device is the memory past the last record; and if
        the service is not a forwarded one, nothing is looked up and the variable is not initialised. */
    method TakeToForward(payload: Payload, hash: ClassHash) returns (destinations: seq<DeviceIndex>, ghost from: DeviceIndex)
      requires Valid() && discovery.Wired()
      modifies m_messagesToForward
      ensures Valid()
      ensures hash in forwardedServices && payload in old(Sources()) ==> from == old(Sources())[payload]
      ensures destinations == old(ForwardIndices(discovery.View(), discovery.records, hash, from))
      ensures var m, i := m_messagesToForward, Index(old(m_messagesToForward.m_keys), payload);
              if hash !in forwardedServices || i == |old(m.m_keys)| then m.m_keys == old(m.m_keys) && m.m_elems == old(m.m_elems)
              else m.m_keys == Without(old(m.m_keys), i) && m.m_elems == Without(old(m.m_elems), i)
      ensures old(m_messagesToForward.Valid()) ==>
                && m_messagesToForward.Valid()
                && Sources() == old(Sources()) - (if hash in forwardedServices then {payload} else {})
    {
      hide AsMap, Distinct, ForwardIndices, DistinctGateways;
      ghost var v := discovery.View();
      var source: DeviceIndex := *;
      var it := |m_messagesToForward.m_elems|;
      if hash in forwardedServices {
        it := m_messagesToForward.Find(payload);
        assert discovery.View() == v;
        if it < |m_messagesToForward.m_elems| {
          source := m_messagesToForward.m_elems[it];
        }
      }
      from := source;
      destinations := discovery.GenerateDeviceIndicesForwarding(hash, source);
      assert discovery.View() == v;
      if it < |m_messagesToForward.m_elems| {
        m_messagesToForward.Erase(it);
      }
    }
  }
}

/** Chunks taken from iceoryx to be sent: who gives them back, and how often. */
module SentChunks {
  import opened Types
  import opened VectorMaps

  /** A taken chunk, by its payload pointer. */
  type Payload = nat

  datatype PendingMessage = PendingMessage(counter: uint32, subscriber: nat)

  const MAX_PENDING_MESSAGE_COUNT := 512

  /** The messages whose chunk may only be given back when the transport says it is sent. */
  class PendingMessageManager {
    const m_pendingMessages: VectorMap<Payload, PendingMessage>
    /** The release calls made to the subscribers. */
    var released: multiset<Payload>

    constructor ()
      ensures Valid() && Pending() == map[] && released == multiset{} && fresh(m_pendingMessages)
    {
      m_pendingMessages := new VectorMap(MAX_PENDING_MESSAGE_COUNT);
      released := multiset{};
    }

    ghost predicate Valid()
      reads this, m_pendingMessages
    {
      && m_pendingMessages.Valid() && m_pendingMessages.capacity == MAX_PENDING_MESSAGE_COUNT
      && forall c :: c in m_pendingMessages.Map() ==> m_pendingMessages.Map()[c].counter >= 1
    }

    ghost function Pending(): map<Payload, PendingMessage>
      requires m_pendingMessages.Aligned()
      reads m_pendingMessages
    {
      m_pendingMessages.Map()
    }

    /** How often a chunk has been given back or will be when its pending send is over. */
    ghost function Returns(c: Payload): nat
      requires m_pendingMessages.Aligned()
      reads this, m_pendingMessages
    {
      released[c] + if c in Pending() then 1 else 0
    }

    /** A payload that is pending already is refused, as is any when the table is full. */
    method Push(c: Payload, subscriber: nat) returns (pushed: bool)
      requires Valid()
      modifies m_pendingMessages
      ensures Valid()
      ensures pushed <==> c !in old(Pending()) && |old(Pending())| < MAX_PENDING_MESSAGE_COUNT
      ensures Pending() == if pushed then old(Pending())[c := PendingMessage(1, subscriber)] else old(Pending())
    {
      hide AsMap, Distinct;
      AsMapSize(m_pendingMessages.m_keys, m_pendingMessages.m_elems);
      var it := m_pendingMessages.Find(c);
      if it != |m_pendingMessages.m_elems| {
        return false;
      }
      pushed := m_pendingMessages.Emplace(c, PendingMessage(1, subscriber));
    }

    /** The buffer-sent callback: gives the chunk back if this was its last pending send. */
    method Release(c: Payload)
      requires Valid()
      modifies this`released, m_pendingMessages
      ensures Valid()
      ensures c in old(Pending()) ==>
                var m := old(Pending())[c];
                if m.counter == 1 then Pending() == old(Pending()) - {c} && released == old(released) + multiset{c}
                else Pending() == old(Pending())[c := m.(counter := m.counter - 1)] && released == old(released)
      ensures c !in old(Pending()) ==> Pending() == old(Pending()) && released == old(released)
    {
      hide AsMap, Distinct;
      var it := m_pendingMessages.Find(c);
      if it != |m_pendingMessages.m_elems| {
        var m := m_pendingMessages.m_elems[it];
        var left := Wrap32(m.counter - 1);
        if left == 0 {
          m_pendingMessages.Erase(it);
          ReleaseChunk(c);
        } else {
          m_pendingMessages.Set(it, m.(counter := left));
        }
      }
    }

    /** The subscriber's own release, outside the table. */
    method ReleaseChunk(c: Payload)
      modifies this`released
      ensures released == old(released) + multiset{c}
    {
      released := released + multiset{c};
    }

    method AnyPending(subscriber: nat) returns (r: bool)
      requires Valid()
      ensures r <==> exists c :: c in Pending() && Pending()[c].subscriber == subscriber
    {
      r := false;
      var v := m_pendingMessages;
      for it := 0 to |v.m_elems|
        invariant !r && forall j :: 0 <= j < it ==> v.m_elems[j].subscriber != subscriber
      {
        if v.m_elems[it].subscriber == subscriber {
          AsMapAt(v.m_keys, v.m_elems, it);
          assert v.m_keys[it] in Pending();
          return true;
        }
      }
      forall c | c in Pending() ensures Pending()[c].subscriber != subscriber {
        assert v.m_elems[Index(v.m_keys, c)] == Pending()[c];
      }
    }
  }

  /** One chunk to each of these devices, in order. */
  function Each(c: Payload, to: seq<DeviceIndex>): (r: seq<(Payload, DeviceIndex)>)
    ensures |r| == |to| && forall i :: 0 <= i < |to| ==> r[i] == (c, to[i])
  {
    seq(|to|, i requires 0 <= i < |to| => (c, to[i]))
  }

  lemma EachOneMore(c: Payload, to: seq<DeviceIndex>, n: nat)
    requires n < |to|
    ensures Each(c, to[..n + 1]) == Each(c, to[..n]) + [(c, to[n])]
  {}

  /** The writing side and the transports' callbacks, which come in between at any time. The
      transports keep their word: a send is pending only if it was announced, at most once for a
      message, and is called back once. */
  class Sender {
    const manager: PendingMessageManager
    /** Pending sends that the transport has still to call back. */
    var outstanding: set<Payload>
    /** The chunks handed to DataWriter.WriteSegmentedInternal, and for which device. */
    var written: seq<(Payload, DeviceIndex)>

    constructor ()
      ensures Valid() && fresh(manager) && fresh(manager.m_pendingMessages)
      ensures outstanding == {} && written == [] && manager.released == multiset{} && manager.Pending() == map[]
    {
      manager := new PendingMessageManager();
      outstanding, written := {}, [];
    }

    ghost predicate Valid()
      reads this, manager, manager.m_pendingMessages
    {
      && manager.Valid() && outstanding <= manager.Pending().Keys
      && forall c :: c in manager.Pending() ==> manager.Pending()[c].counter == 1
    }

    /** Every pending message has its callback still to come. */
    ghost predicate NoOrphans()
      requires manager.m_pendingMessages.Aligned()
      reads this, manager, manager.m_pendingMessages
    {
      forall c :: c in manager.Pending() ==> c in outstanding
    }

    /** Some of the outstanding callbacks come. No count of returns changes by that. */
    method Callbacks()
      requires Valid()
      modifies this`outstanding, manager`released, manager.m_pendingMessages
      ensures Valid() && outstanding <= old(outstanding)
      ensures forall c :: manager.Returns(c) == old(manager.Returns(c))
      ensures forall c :: c in manager.Pending() && c !in outstanding <==> c in old(manager.Pending()) && c !in old(outstanding)
      ensures forall c :: c in manager.Pending() ==> c in old(manager.Pending()) && manager.Pending()[c] == old(manager.Pending())[c]
    {
      hide AsMap, Distinct;
      while *
        invariant Valid() && outstanding <= old(outstanding)
        invariant forall c :: manager.Returns(c) == old(manager.Returns(c))
        invariant forall c :: c in manager.Pending() && c !in outstanding <==> c in old(manager.Pending()) && c !in old(outstanding)
        invariant forall c :: c in manager.Pending() ==> c in old(manager.Pending()) && manager.Pending()[c] == old(manager.Pending())[c]
        decreases outstanding
      {
        if outstanding == {} {
          return;
        }
        var c :| c in outstanding;
        outstanding := outstanding - {c};
        manager.Release(c);
      }
    }

    /** A message that is pending was so before, or is this one, with its subscriber. */
    twostate predicate OnlyMore(c: Payload, subscriber: nat)
      requires old(manager.m_pendingMessages.Aligned()) && manager.m_pendingMessages.Aligned()
      reads manager, manager.m_pendingMessages
    {
      forall d :: d in manager.Pending() ==>
        || (d in old(manager.Pending()) && manager.Pending()[d] == old(manager.Pending())[d])
        || (d == c && manager.Pending()[d].subscriber == subscriber)
    }

    /** writeSegmentedInternal, as far as the chunk goes: nothing is sent if the transport is not
        good any more; a send that was to be pending may fail. */
    method Transmit(c: Payload, to: DeviceIndex, announced: bool) returns (isPending: bool)
      requires Valid() && (announced ==> c in manager.Pending() && c !in outstanding)
      modifies this`outstanding, this`written, manager`released, manager.m_pendingMessages
      ensures Valid() && (isPending ==> announced) && written == old(written) + [(c, to)]
      ensures forall d :: d in manager.Pending() ==> d in old(manager.Pending()) && manager.Pending()[d] == old(manager.Pending())[d]
      ensures forall d :: manager.Returns(d) == old(manager.Returns(d))
      ensures announced && !isPending ==> c in manager.Pending() && c !in outstanding
      ensures forall d :: d in manager.Pending() && d !in outstanding ==>
                d in old(manager.Pending()) && d !in old(outstanding) && (isPending ==> d != c)
    {
      hide AsMap, Distinct;
      var good: bool := *;
      written := written + [(c, to)];
      isPending := false;
      if good && announced {
        isPending := *;
        if isPending {
          outstanding := outstanding + {c};
        }
      }
      Callbacks();
    }

    /** Sends a chunk to each destination in turn. Every destination dealt with gives it back once,
        be it sent at once, pending, failed, not sent at all, or refused by the pending table, which
        ends the loop. */
    method WriteSegmented(c: Payload, subscriber: nat, destinations: seq<DeviceIndex>) returns (done: nat, refused: bool)
      requires Valid()
      modifies this`outstanding, this`written, manager`released, manager.m_pendingMessages
      ensures Valid()
      ensures if refused then 1 <= done <= |destinations| else done == |destinations|
      ensures manager.Returns(c) == old(manager.Returns(c)) + done
      ensures written == old(written) + Each(c, destinations[..if refused then done - 1 else done])
      ensures OnlyMore(c, subscriber)
      ensures forall d :: d != c ==> manager.Returns(d) == old(manager.Returns(d))
      ensures old(NoOrphans()) ==> NoOrphans()
    {
      hide AsMap, Distinct;
      done, refused := 0, false;
      while done < |destinations|
        invariant Valid() && done <= |destinations| && (old(NoOrphans()) ==> NoOrphans())
        invariant written == old(written) + Each(c, destinations[..done]) && OnlyMore(c, subscriber)
        invariant manager.Returns(c) == old(manager.Returns(c)) + done
        invariant forall d :: d != c ==> manager.Returns(d) == old(manager.Returns(d))
      {
        EachOneMore(c, destinations, done);
        refused := WriteToOne(c, subscriber, destinations[done]);
        done := done + 1;
        if refused {
          return;
        }
      }
    }

    /** One destination. */
    method WriteToOne(c: Payload, subscriber: nat, to: DeviceIndex) returns (refused: bool)
      requires Valid()
      modifies this`outstanding, this`written, manager`released, manager.m_pendingMessages
      ensures Valid()
      ensures manager.Returns(c) == old(manager.Returns(c)) + 1
      ensures written == old(written) + (if refused then [] else [(c, to)]) && OnlyMore(c, subscriber)
      ensures forall d :: d != c ==> manager.Returns(d) == old(manager.Returns(d))
      ensures old(NoOrphans()) ==> NoOrphans()
    {
      hide AsMap, Distinct;
      Callbacks();
      var good: bool := *;
      var willBePending: bool := *;
      if good && willBePending {
        refused := WriteAnnounced(c, subscriber, to);
      } else {
        refused := false;
        var isPending := Transmit(c, to, false);
        manager.ReleaseChunk(c);
      }
    }

    /** A send that the transport said would be pending. */
    method WriteAnnounced(c: Payload, subscriber: nat, to: DeviceIndex) returns (refused: bool)
      requires Valid()
      modifies this`outstanding, this`written, manager`released, manager.m_pendingMessages
      ensures Valid()
      ensures manager.Returns(c) == old(manager.Returns(c)) + 1
      ensures written == old(written) + (if refused then [] else [(c, to)]) && OnlyMore(c, subscriber)
      ensures forall d :: d != c ==> manager.Returns(d) == old(manager.Returns(d))
      ensures old(NoOrphans()) ==> NoOrphans()
    {
      hide AsMap, Distinct;
      var pushed := manager.Push(c, subscriber);
      refused := !pushed;
      if refused {
        manager.ReleaseChunk(c);
      } else {
        assert forall d :: manager.Returns(d) == old(manager.Returns(d)) + if d == c then 1 else 0;
        TransmitPushed(c, to);
      }
    }

    /** The push has been made; if the send is not pending after all it is taken back. */
    method TransmitPushed(c: Payload, to: DeviceIndex)
      requires Valid() && c in manager.Pending() && c !in outstanding
      modifies this`outstanding, this`written, manager`released, manager.m_pendingMessages
      ensures Valid() && written == old(written) + [(c, to)]
      ensures forall d :: manager.Returns(d) == old(manager.Returns(d))
      ensures forall d :: d in manager.Pending() ==> d in old(manager.Pending()) && manager.Pending()[d] == old(manager.Pending())[d]
      ensures (forall d :: d in old(manager.Pending()) && d != c ==> d in old(outstanding)) ==> NoOrphans()
    {
      hide AsMap, Distinct;
      var isPending := Transmit(c, to, true);
      if !isPending {
        manager.Release(c);
      }
    }

    /** A chunk taken from the subscriber, perhaps at an address that was taken and given back before:
        without destinations it is given back at once. */
    method Route(c: Payload, subscriber: nat, destinations: seq<DeviceIndex>) returns (refused: bool)
      requires Valid()
      modifies this`outstanding, this`written, manager`released, manager.m_pendingMessages
      ensures Valid()
      ensures written == old(written) + Each(c, destinations) || (refused && written <= old(written) + Each(c, destinations))
      ensures OnlyMore(c, subscriber)
      ensures |destinations| <= 1 ==> manager.Returns(c) == old(manager.Returns(c)) + 1
      ensures !refused ==> (manager.Returns(c) == old(manager.Returns(c)) + 1 <==> |destinations| <= 1)
      ensures |destinations| <= 1 && c !in manager.Pending() ==> manager.released[c] == old(manager.Returns(c)) + 1
      ensures forall d :: d != c ==> manager.Returns(d) == old(manager.Returns(d))
      ensures old(NoOrphans()) ==> NoOrphans()
    {
      hide AsMap, Distinct;
      refused := false;
      if destinations == [] {
        manager.ReleaseChunk(c);
      } else {
        var done;
        done, refused := WriteSegmented(c, subscriber, destinations);
      }
    }

    /** Deleting a channel waits for its pending sends; then everything taken has been given back. */
    method AwaitPending(subscriber: nat)
      requires Valid()
      requires NoOrphans()
      modifies this`outstanding, manager`released, manager.m_pendingMessages
      ensures Valid()
      ensures forall c :: c in manager.Pending() ==> manager.Pending()[c].subscriber != subscriber
      ensures forall c :: manager.Returns(c) == old(manager.Returns(c))
    {
      hide AsMap, Distinct;
      var any := manager.AnyPending(subscriber);
      while any
        invariant Valid() && (any <==> exists c :: c in manager.Pending() && manager.Pending()[c].subscriber == subscriber)
        invariant NoOrphans()
        invariant forall c :: manager.Returns(c) == old(manager.Returns(c))
        decreases outstanding
      {
        var c :| c in outstanding;
        outstanding := outstanding - {c};
        manager.Release(c);
        any := manager.AnyPending(subscriber);
      }
    }
  }
}

/** Transport2Iceoryx: the object that rebuilds messages from datagrams. Each method is proved to
    do the operation of Reassembly with the same name, on the state read off its fields. */
module TransportToIox {
  import opened Types
  import opened Reassembly
  import opened Chunks
  import opened SegmentedMessages
  import VectorMaps
  import Serialization

  lemma ConservedClosed(r: Receiver)
    requires Conserved(r)
    ensures Closed(r)
  {
    EntriesKnown(r, {});
  }

  lemma OwnFromConserved(r: Receiver, ks: seq<Hash>, es: seq<Entry>, m: Pool)
    requires |ks| == |es| && VectorMaps.Distinct(ks) && EntriesOwn(r, {})
    requires r.table == VectorMaps.AsMap(ks, es) && r.chunks.Keys == m.Keys
    ensures OwnChunks(es, m)
  {
    forall i | 0 <= i < |es| ensures ks[i] in r.table && r.table[ks[i]] == es[i] {
      VectorMaps.AsMapAt(ks, es, i);
    }
  }

  lemma DroppedIsGone(r: Receiver, ks: seq<Hash>, es: seq<Entry>, p: Entry -> bool, gone: set<Hash>)
    requires |ks| == |es| && VectorMaps.Distinct(ks) && r.table == VectorMaps.AsMap(ks, es)
    requires gone == set h | h in r.table && !p(r.table[h])
    ensures ChunksOf(r, gone) == Dropped(es, p)
    ensures r.table - gone == Filter(r.table, p)
  {
    forall id | id in Dropped(es, p) ensures id in ChunksOf(r, gone) {
      var i :| 0 <= i < |es| && !p(es[i]) && es[i].chunk == id;
      VectorMaps.AsMapAt(ks, es, i);
      assert ks[i] in gone;
    }
    forall id | id in ChunksOf(r, gone) ensures id in Dropped(es, p) {
      var h :| h in gone && h in r.table && r.table[h].chunk == id;
      assert es[VectorMaps.Index(ks, h)] == r.table[h];
    }
  }

  lemma ReleasedViews(m: Pool, ids: set<ChunkId>)
    ensures Arrays(ReleaseAllOf(m, ids)) == Arrays(m)
    ensures Views(ReleaseAllOf(m, ids))
            == map id | id in Views(m) :: if id in ids then GiveUp(Views(m)[id], Released) else Views(m)[id]
  {
    var m' := ReleaseAllOf(m, ids);
    assert forall i :: i in m ==>
      i in m' && m'[i].userHeader == m[i].userHeader && m'[i].userPayload == m[i].userPayload;
    assert m'.Keys == m.Keys;
  }

  class Transport2Iceoryx {
    var channels: set<ClassHash>
    const segments: SegmentedMessageManager
    const pool: ChunkPool

    /** The object, its table, its pool and every loaned buffer. */
    ghost var Repr: set<object>

    constructor ()
      ensures Valid() && State() == Receiver({}, map[], map[], [])
    {
      channels := {};
      segments := new SegmentedMessageManager();
      pool := new ChunkPool();
      new;
      Repr := {this, segments.m_segmentedMessages, pool};
    }

    ghost predicate Valid()
      reads this, Repr
    {
      && {this, segments.m_segmentedMessages, pool} <= Repr
      && Arrays(pool.chunks) <= Repr
      && segments.Valid() && pool.Valid()
    }

    ghost function State(): Receiver
      requires Valid()
      reads this, Repr
    {
      Receiver(channels, segments.Table(), Views(pool.chunks), pool.published)
    }

    // ---------- one step each ----------

    method Loan(h: DatagramHeader) returns (id: Option<ChunkId>, ghost loan: Reassembly.Loan)
      requires Valid()
      modifies pool, `Repr
      ensures Valid() && fresh(Repr - old(Repr))
      ensures ValidLoan(old(State()), h, loan)
      ensures id.None? ==> loan == Refused && State() == old(State())
      ensures id.Some? ==>
                && loan.Granted? && id.value == loan.id
                && State() == old(State()).(chunks := old(State()).chunks[loan.id := NewChunk(loan)])
    {
      hide VectorMaps.AsMap, VectorMaps.Distinct, Separate, Views, Arrays;
      ghost var m := pool.chunks;
      id := pool.LoanChunk(h.userHeaderSize, h.userPayloadSize);
      loan := Refused;
      if id.Some? {
        var b := pool.chunks[id.value];
        loan := Granted(id.value, b.userHeader[..], b.userPayload[..]);
        Repr := Repr + {b.userHeader, b.userPayload};
        InsertViews(m, id.value, b);
      }
    }

    method Push(hash: Hash, remaining: uint32, id: ChunkId, service: ClassHash, deadline: int)
      requires Valid() && hash !in State().table && id in State().chunks
      modifies segments.m_segmentedMessages, pool
      ensures Valid() && State() == Reassembly.Push(old(State()), hash, remaining, id, service, deadline)
    {
      hide Views, VectorMaps.AsMap, VectorMaps.Distinct, Separate, Arrays;
      ghost var m := pool.chunks;
      segments.Push(hash, remaining, id, service, deadline, pool);
      GaveUpArrays(m, id, Released);
      GaveUpViews(m, id, Released);
    }

    method Publish(id: ChunkId, service: ClassHash, from: DeviceIndex)
      requires Valid() && id in State().chunks
      modifies pool
      ensures Valid() && State() == Reassembly.Publish(old(State()), id, service, from)
    {
      hide Views, VectorMaps.AsMap, VectorMaps.Distinct, Separate, Arrays;
      ghost var m := pool.chunks;
      pool.PublishChunk(id, service, from);
      GaveUpArrays(m, id, Published);
      GaveUpViews(m, id, Published);
    }

    method Copy(id: ChunkId, h: DatagramHeader, data: seq<byte>)
      requires Valid() && id in State().chunks && CopyInBounds(State().chunks[id], h, data)
      modifies Arrays(pool.chunks)
      ensures Valid() && State() == Reassembly.Copy(old(State()), id, h, data)
    {
      hide VectorMaps.AsMap, VectorMaps.Distinct, Separate;
      pool.CopySegment(id, h, data);
    }

    method CountDown(hash: Hash) returns (found: bool, id: ChunkId, shouldPublish: bool)
      requires Valid()
      modifies segments.m_segmentedMessages
      ensures Valid()
      ensures found <==> hash in old(State()).table
      ensures !found ==> State() == old(State()) && !shouldPublish
      ensures found ==>
                && id == old(State()).table[hash].chunk
                && (shouldPublish <==> Completes(old(State()), hash))
                && State() == Decrement(old(State()), hash)
    {
      hide Views, VectorMaps.AsMap, VectorMaps.Distinct, Separate, Arrays;
      ghost var m := pool.chunks;
      found, id, shouldPublish := segments.FindAndDecrement(hash);
      assert forall a :: a in Arrays(m) ==> unchanged(a);
      assert Views(m) == old(Views(m));
    }

    method Lookup(hash: Hash) returns (found: bool, id: ChunkId)
      requires Valid()
      ensures found <==> hash in State().table
      ensures found ==> id == State().table[hash].chunk
    {
      hide Views, VectorMaps.AsMap, VectorMaps.Distinct, Separate, Arrays;
      found, id := segments.Find(hash);
    }

    // ---------- the callbacks ----------

    /** A segment of a message that has an entry: findAndDecrement, takeNext, perhaps publish. */
    method Continue(h: DatagramHeader, data: seq<byte>, from: DeviceIndex)
      requires Valid() && Closed(State()) && h.messageHash in State().table
      requires CopyInBounds(State().chunks[State().table[h.messageHash].chunk], h, data)
      modifies Repr
      ensures Valid() && fresh(Repr - old(Repr))
      ensures State() == Reassembly.CountDown(Reassembly.Copy(old(State()), old(State()).table[h.messageHash].chunk, h, data),
                                              h.messageHash, h.serviceHash, from)
    {
      hide Transport2Iceoryx.State, Separate, VectorMaps.Distinct, Arrays, TakeNext, CopyInBounds;
      ghost var r := State();
      var found, id, shouldPublish := CountDown(h.messageHash);
      Copy(id, h, data);
      assert State() == Decrement(Reassembly.Copy(r, id, h, data), h.messageHash);
      if shouldPublish {
        Publish(id, h.serviceHash, from);
      }
    }

    /** The first segment of a message. */
    method Begin(h: DatagramHeader, data: seq<byte>, from: DeviceIndex, now: int) returns (ghost loan: Reassembly.Loan)
      requires Valid() && Closed(State()) && h.messageHash !in State().table && h.serviceHash in State().channels
      requires InBounds(State(), h, data)
      modifies Repr
      ensures Valid() && fresh(Repr - old(Repr))
      ensures ValidLoan(old(State()), h, loan)
      ensures State() == Reassembly.Receive(old(State()), h, data, loan, now, from)
    {
      hide Transport2Iceoryx.State, Separate, VectorMaps.Distinct, Arrays, TakeNext;
      var id;
      id, loan := Loan(h);
      if id.Some? {
        if h.submessageCount > 1 {
          Push(h.messageHash, h.submessageCount - 1, id.value, h.serviceHash, Deadline(h, now));
          Copy(id.value, h, data);
        } else {
          Copy(id.value, h, data);
          Publish(id.value, h.serviceHash, from);
        }
      }
    }

    /** The user data callback: the datagram as the transport delivered it. */
    method Receive(bytes: seq<byte>, from: DeviceIndex, now: int) returns (terminated: bool, ghost loan: Reassembly.Loan)
      requires Valid() && Conserved(State())
      requires Serialization.DecodeHeader(bytes).Some? ==>
                 var h := Serialization.DecodeHeader(bytes).value;
                 |bytes| == h.submessageSize + 44 && h.serviceHash in State().channels ==> InBounds(State(), h, bytes[44..])
      modifies Repr
      ensures Valid() && Conserved(State()) && fresh(Repr - old(Repr))
      ensures terminated <==> Serialization.DecodeHeader(bytes).None?
      ensures terminated || |bytes| != Serialization.DecodeHeader(bytes).value.submessageSize + 44 ==> State() == old(State())
      ensures Serialization.DecodeHeader(bytes).Some? ==>
                ValidLoan(old(State()), Serialization.DecodeHeader(bytes).value, loan)
      ensures terminated <==> ReceiveBytes(old(State()), bytes, loan, now, from) == None
      ensures !terminated ==> ReceiveBytes(old(State()), bytes, loan, now, from) == Some(State())
    {
      hide Transport2Iceoryx.State, Separate, VectorMaps.Distinct, Arrays, Conserved, Reassembly.Receive, CopyInBounds;
      ConservedClosed(State());
      loan := Refused;
      var header := Serialization.DeserializeHeader(bytes);
      if header.None? {
        return true, loan;
      }
      terminated := false;
      var h := header.value;
      TakenExactly(State(), bytes, loan, now, from);
      if |bytes| != Wrap32(h.submessageSize + 44) {
        return;
      }
      loan := ReceiveSegment(h, bytes[44..], from, now);
    }

    method ReceiveSegment(h: DatagramHeader, data: seq<byte>, from: DeviceIndex, now: int) returns (ghost loan: Reassembly.Loan)
      requires Valid() && Conserved(State()) && Closed(State())
      requires h.serviceHash in State().channels ==> InBounds(State(), h, data)
      modifies Repr
      ensures Valid() && Conserved(State()) && fresh(Repr - old(Repr))
      ensures ValidLoan(old(State()), h, loan)
      ensures State() == Reassembly.Receive(old(State()), h, data, loan, now, from)
    {
      hide Separate, VectorMaps.Distinct, Arrays, Conserved, CopyInBounds, Reassembly.Copy, Reassembly.CountDown;
      loan := Refused;
      ghost var r := State();
      if h.serviceHash in channels {
        var found, _ := Lookup(h.messageHash);
        if found {
          Continue(h, data, from);
        } else {
          loan := Begin(h, data, from, now);
        }
      }
      ReceiveConserves(r, h, data, loan, now, from);
    }

    /** The buffer-needed callback: the chunk whose buffer the transport may write to. */
    method LoanBuffer(bytes: seq<byte>, now: int)
      returns (terminated: bool, buffer: Option<ChunkId>, ghost loan: Reassembly.Loan)
      requires Valid() && Conserved(State())
      modifies Repr
      ensures Valid() && Conserved(State()) && fresh(Repr - old(Repr))
      ensures terminated <==> Serialization.DecodeHeader(bytes) == None
      ensures terminated ==> State() == old(State())
      ensures !terminated ==>
                && ValidLoan(old(State()), Serialization.DecodeHeader(bytes).value, loan)
                && (State(), buffer)
                   == Reassembly.LoanBuffer(old(State()), Serialization.DecodeHeader(bytes).value, loan, now)
    {
      hide Separate, VectorMaps.Distinct, Arrays, VectorMaps.AsMap, Views,
           EntriesOwn, HeldHasEntry, GivenUpOnce, PublishedOnce;
      loan := Refused;
      buffer := None;
      ghost var r := State();
      ConservedClosed(r);
      var header := Serialization.DeserializeHeader(bytes);
      if header.None? {
        return true, None, Refused;
      }
      terminated := false;
      var h := header.value;
      if h.serviceHash in channels {
        var found, id := Lookup(h.messageHash);
        if found {
          buffer := Some(id);
        } else {
          buffer, loan := Loan(h);
          if buffer.Some? {
            Push(h.messageHash, h.submessageCount, buffer.value, h.serviceHash, Deadline(h, now));
          }
        }
      }
      LoanBufferConserves(r, h, loan, now);
    }

    method Release(hash: Hash)
      requires Valid() && Closed(State())
      modifies segments.m_segmentedMessages, pool
      ensures Valid()
      ensures State() == if hash in old(State()).table then Reassembly.Release(old(State()), hash) else old(State())
    {
      hide Views, VectorMaps.AsMap, VectorMaps.Distinct, Separate, Arrays;
      ghost var m, t := pool.chunks, segments.Table();
      segments.Release(hash, pool);
      if hash in t {
        GaveUpArrays(m, t[hash].chunk, Released);
        GaveUpViews(m, t[hash].chunk, Released);
      }
    }

    /** The buffer-released callback. */
    method ReleaseBuffer(bytes: seq<byte>, shouldRelease: bool, from: DeviceIndex) returns (terminated: bool)
      requires Valid() && Conserved(State())
      modifies Repr
      ensures Valid() && Conserved(State()) && fresh(Repr - old(Repr))
      ensures terminated <==> Serialization.DecodeHeader(bytes) == None
      ensures State() == if terminated then old(State())
                         else Reassembly.ReleaseBuffer(old(State()), Serialization.DecodeHeader(bytes).value, shouldRelease, from)
    {
      hide Separate, VectorMaps.Distinct, Arrays, VectorMaps.AsMap, Views,
           EntriesOwn, HeldHasEntry, GivenUpOnce, PublishedOnce;
      ghost var r := State();
      ConservedClosed(r);
      var header := Serialization.DeserializeHeader(bytes);
      if header.None? {
        return true;
      }
      terminated := false;
      var h := header.value;
      if h.serviceHash in channels {
        if shouldRelease {
          Release(h.messageHash);
        } else {
          var _, id, shouldPublish := CountDown(h.messageHash);
          if shouldPublish {
            Publish(id, h.serviceHash, from);
          }
        }
      }
      ReleaseBufferConserves(r, h, shouldRelease, from);
    }

    /** deleteChannel: the entries of the channel go, then the endpoint. */
    method DeleteChannel(service: ClassHash)
      requires Valid() && Conserved(State())
      modifies Repr
      ensures Valid() && Conserved(State()) && Repr == old(Repr)
      ensures State() == CloseChannel(old(State()), service)
    {
      hide Views, VectorMaps.AsMap, VectorMaps.Distinct, Separate, Arrays, Keep, KeepKeys, Dropped,
           EntriesOwn, HeldHasEntry, GivenUpOnce, PublishedOnce, Discard, ReleaseAllOf;
      CloseChannelConserves(State(), service);
      ghost var p := (e: Entry) => e.service != service;
      ghost var v := segments.m_segmentedMessages;
      FilterIsDiscard(State(), v.m_keys, v.m_elems, pool.chunks, p, Gone(State(), service));
      segments.ReleaseAll(service, pool);
      assert forall a :: a in Arrays(pool.chunks) ==> unchanged(a);
      assert Views(pool.chunks) == old(Views(ReleaseAllOf(pool.chunks, Dropped(v.m_elems, p))));
      channels := channels - {service};
    }

    /** The timeout sweep, run to its end. */
    method CheckSegmentedMessages(now: int)
      requires Valid() && Conserved(State())
      modifies Repr
      ensures Valid() && Conserved(State()) && Repr == old(Repr)
      ensures State() == Sweep(old(State()), now)
    {
      hide Views, VectorMaps.AsMap, VectorMaps.Distinct, Separate, Arrays, Keep, KeepKeys, Dropped,
           EntriesOwn, HeldHasEntry, GivenUpOnce, PublishedOnce, Discard, ReleaseAllOf;
      DiscardConserves(State(), Expired(State(), now));
      ghost var p := (e: Entry) => !(e.deadline < now);
      ghost var v := segments.m_segmentedMessages;
      FilterIsDiscard(State(), v.m_keys, v.m_elems, pool.chunks, p, Expired(State(), now));
      segments.CheckSegmentedMessages(now, pool);
      assert forall a :: a in Arrays(pool.chunks) ==> unchanged(a);
      assert Views(pool.chunks) == old(Views(ReleaseAllOf(pool.chunks, Dropped(v.m_elems, p))));
    }
  }

  /** A table whose entries are kept or dropped, chunks released with them, seen as maps. */
  lemma FilterIsDiscard(r: Receiver, ks: seq<Hash>, es: seq<Entry>, m: Pool, p: Entry -> bool, gone: set<Hash>)
    requires |ks| == |es| && VectorMaps.Distinct(ks) && Conserved(r)
    requires r.table == VectorMaps.AsMap(ks, es) && r.chunks == Views(m)
    requires gone == set h | h in r.table && !p(r.table[h])
    ensures OwnChunks(es, m)
    ensures |KeepKeys(ks, es, p)| == |Keep(es, p)| && VectorMaps.Distinct(KeepKeys(ks, es, p))
    ensures Discard(r, gone).table == VectorMaps.AsMap(KeepKeys(ks, es, p), Keep(es, p))
    ensures Arrays(ReleaseAllOf(m, Dropped(es, p))) == Arrays(m)
    ensures Discard(r, gone).chunks == Views(ReleaseAllOf(m, Dropped(es, p)))
    ensures Discard(r, gone).channels == r.channels && Discard(r, gone).published == r.published
  {
    OwnFromConserved(r, ks, es, m);
    KeepIsFilter(ks, es, p);
    DroppedIsGone(r, ks, es, p, gone);
    ReleasedViews(m, Dropped(es, p));
  }
}

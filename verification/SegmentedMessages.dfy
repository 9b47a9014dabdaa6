/** The table of partly received messages. */
module SegmentedMessages {
  import opened Types
  import opened Reassembly
  import opened Chunks
  import opened VectorMaps

  /** The elements that satisfy `p`, in order. */
  function Keep(es: seq<Entry>, p: Entry -> bool): seq<Entry> {
    if es == [] then []
    else if p(es[0]) then [es[0]] + Keep(es[1..], p)
    else Keep(es[1..], p)
  }

  function KeepKeys(ks: seq<Hash>, es: seq<Entry>, p: Entry -> bool): seq<Hash>
    requires |ks| == |es|
  {
    if es == [] then []
    else if p(es[0]) then [ks[0]] + KeepKeys(ks[1..], es[1..], p)
    else KeepKeys(ks[1..], es[1..], p)
  }

  /** The chunks of the entries that are not kept. */
  function Dropped(es: seq<Entry>, p: Entry -> bool): set<ChunkId> {
    set i | 0 <= i < |es| && !p(es[i]) :: es[i].chunk
  }

  function ReleaseAllOf(m: Pool, ids: set<ChunkId>): Pool {
    map id | id in m :: if id in ids then m[id].(owner := Released, givenUp := m[id].givenUp + 1) else m[id]
  }

  /** Entries have known chunks, each its own. */
  ghost predicate OwnChunks(es: seq<Entry>, m: Pool) {
    && (forall i :: 0 <= i < |es| ==> es[i].chunk in m)
    && (forall i, j :: 0 <= i < j < |es| ==> es[i].chunk != es[j].chunk)
  }

  /** Filtering this table and releasing what it drops ends as it does for that table. */
  ghost predicate EndsAs(ks: seq<Hash>, es: seq<Entry>, m: Pool, ks': seq<Hash>, es': seq<Entry>, m': Pool, p: Entry -> bool) {
    && |ks| == |es| && |ks'| == |es'|
    && Keep(es, p) == Keep(es', p)
    && KeepKeys(ks, es, p) == KeepKeys(ks', es', p)
    && ReleaseAllOf(m, Dropped(es, p)) == ReleaseAllOf(m', Dropped(es', p))
  }

  lemma EndsAsItself(ks: seq<Hash>, es: seq<Entry>, m: Pool, p: Entry -> bool)
    requires |ks| == |es|
    ensures EndsAs(ks, es, m, ks, es, m, p)
  {}

  lemma EndsAsTrans(ks: seq<Hash>, es: seq<Entry>, m: Pool, ks': seq<Hash>, es': seq<Entry>, m': Pool,
                    ks'': seq<Hash>, es'': seq<Entry>, m'': Pool, p: Entry -> bool)
    requires EndsAs(ks, es, m, ks', es', m', p) && EndsAs(ks', es', m', ks'', es'', m'', p)
    ensures EndsAs(ks, es, m, ks'', es'', m'', p)
  {}

  lemma {:induction false} KeepWithout(ks: seq<Hash>, es: seq<Entry>, i: nat, p: Entry -> bool)
    requires |ks| == |es| && i < |es| && !p(es[i])
    ensures Keep(Without(es, i), p) == Keep(es, p)
    ensures KeepKeys(Without(ks, i), Without(es, i), p) == KeepKeys(ks, es, p)
  {
    if i == 0 {
      assert Without(es, 0) == es[1..] && Without(ks, 0) == ks[1..];
    } else {
      KeepWithout(ks[1..], es[1..], i - 1, p);
      assert Without(es, i)[1..] == Without(es[1..], i - 1);
      assert Without(ks, i)[1..] == Without(ks[1..], i - 1);
    }
  }

  lemma OwnWithout(es: seq<Entry>, m: Pool, i: nat)
    requires i < |es| && OwnChunks(es, m)
    ensures OwnChunks(Without(es, i), m)
    ensures forall j :: 0 <= j < |es| - 1 ==> Without(es, i)[j].chunk != es[i].chunk
  {}

  lemma DroppedWithout(es: seq<Entry>, i: nat, p: Entry -> bool)
    requires i < |es| && !p(es[i])
    ensures Dropped(es, p) == Dropped(Without(es, i), p) + {es[i].chunk}
  {
    var es' := Without(es, i);
    forall id | id in Dropped(es, p) ensures id in Dropped(es', p) + {es[i].chunk} {
      var j :| 0 <= j < |es| && !p(es[j]) && es[j].chunk == id;
      if j != i {
        assert es'[if j < i then j else j - 1] == es[j];
      }
    }
  }

  lemma ReleaseOneMore(m: Pool, id: ChunkId, ids: set<ChunkId>)
    requires id in m && id !in ids
    ensures ReleaseAllOf(GaveUp(m, id, Released), ids) == ReleaseAllOf(m, ids + {id})
  {}

  /** Both loops' step: taking out one entry that is not kept, and releasing its chunk. */
  lemma EraseOne(ks: seq<Hash>, es: seq<Entry>, m: Pool, i: nat, p: Entry -> bool)
    requires |ks| == |es| && i < |es| && !p(es[i]) && OwnChunks(es, m)
    ensures OwnChunks(Without(es, i), GaveUp(m, es[i].chunk, Released))
    ensures EndsAs(Without(ks, i), Without(es, i), GaveUp(m, es[i].chunk, Released), ks, es, m, p)
  {
    hide Keep, KeepKeys;
    KeepWithout(ks, es, i, p);
    OwnWithout(es, m, i);
    DroppedWithout(es, i, p);
    ReleaseOneMore(m, es[i].chunk, Dropped(Without(es, i), p));
  }

  /** A loop that only took out entries not to be kept, and left none of those, is a filter. */
  lemma FilterDone(ks: seq<Hash>, es: seq<Entry>, m: Pool, ks': seq<Hash>, es': seq<Entry>, m': Pool, p: Entry -> bool)
    requires EndsAs(ks, es, m, ks', es', m', p) && forall i :: 0 <= i < |es| ==> p(es[i])
    ensures |ks'| == |es'| && es == Keep(es', p) && ks == KeepKeys(ks', es', p)
    ensures m == ReleaseAllOf(m', Dropped(es', p))
  {
    AllKept(ks, es, m, p);
  }

  lemma {:induction false} AllKept(ks: seq<Hash>, es: seq<Entry>, m: Pool, p: Entry -> bool)
    requires |ks| == |es| && forall i :: 0 <= i < |es| ==> p(es[i])
    ensures Keep(es, p) == es && KeepKeys(ks, es, p) == ks
    ensures ReleaseAllOf(m, Dropped(es, p)) == m
  {
    if es != [] {
      AllKept(ks[1..], es[1..], m, p);
    }
  }

  function Filter(m: map<Hash, Entry>, p: Entry -> bool): map<Hash, Entry> {
    map h | h in m && p(m[h]) :: m[h]
  }

  lemma {:induction false} KeptFrom(ks: seq<Hash>, es: seq<Entry>, p: Entry -> bool, i: nat) returns (j: nat)
    requires |ks| == |es| && i < |Keep(es, p)|
    ensures j < |es| && p(es[j]) && i < |KeepKeys(ks, es, p)|
    ensures Keep(es, p)[i] == es[j] && KeepKeys(ks, es, p)[i] == ks[j]
  {
    if p(es[0]) && i == 0 {
      j := 0;
    } else {
      j := KeptFrom(ks[1..], es[1..], p, if p(es[0]) then i - 1 else i);
      j := j + 1;
    }
  }

  lemma {:induction false} KeptHas(ks: seq<Hash>, es: seq<Entry>, p: Entry -> bool, j: nat)
    requires |ks| == |es| && j < |es| && p(es[j])
    ensures ks[j] in KeepKeys(ks, es, p)
  {
    if j > 0 {
      KeptHas(ks[1..], es[1..], p, j - 1);
    }
  }

  lemma {:induction false} KeptDistinct(ks: seq<Hash>, es: seq<Entry>, p: Entry -> bool)
    requires |ks| == |es| && Distinct(ks)
    ensures |KeepKeys(ks, es, p)| == |Keep(es, p)| && Distinct(KeepKeys(ks, es, p))
  {
    if es != [] {
      KeptDistinct(ks[1..], es[1..], p);
      forall i | 0 <= i < |Keep(es[1..], p)| ensures KeepKeys(ks[1..], es[1..], p)[i] != ks[0] {
        var j := KeptFrom(ks[1..], es[1..], p, i);
      }
    }
  }

  /** What the two vectors stand for after a filter is the filtered map. */
  lemma KeepIsFilter(ks: seq<Hash>, es: seq<Entry>, p: Entry -> bool)
    requires |ks| == |es| && Distinct(ks)
    ensures |KeepKeys(ks, es, p)| == |Keep(es, p)| && Distinct(KeepKeys(ks, es, p))
    ensures AsMap(KeepKeys(ks, es, p), Keep(es, p)) == Filter(AsMap(ks, es), p)
  {
    hide Keep, KeepKeys;
    var ks', es', m := KeepKeys(ks, es, p), Keep(es, p), Filter(AsMap(ks, es), p);
    KeptDistinct(ks, es, p);
    forall i | 0 <= i < |ks'| ensures ks'[i] in m && m[ks'[i]] == es'[i] {
      var j := KeptFrom(ks, es, p, i);
      AsMapAt(ks, es, j);
    }
    forall k | k in m ensures k in ks' {
      KeptHas(ks, es, p, Index(ks, k));
    }
    AsMapIs(ks', es', m);
  }

  class SegmentedMessageManager {
    const m_segmentedMessages: VectorMap<Hash, Entry>

    constructor ()
      ensures fresh(m_segmentedMessages) && Valid() && Table() == map[]
    {
      m_segmentedMessages := new VectorMap(MAX_SEGMENTED_MESSAGE_COUNT);
    }

    ghost predicate Valid()
      reads m_segmentedMessages
    {
      m_segmentedMessages.Valid() && m_segmentedMessages.capacity == MAX_SEGMENTED_MESSAGE_COUNT
    }

    ghost function Table(): map<Hash, Entry>
      requires Valid()
      reads m_segmentedMessages
    {
      m_segmentedMessages.Map()
    }

    /** Callers have looked the hash up. With the table full the chunk is released. */
    method Push(hash: Hash, remaining: uint32, id: ChunkId, service: ClassHash, deadline: int, pool: ChunkPool)
      requires Valid() && hash !in Table() && pool.Valid() && id in pool.chunks
      modifies m_segmentedMessages, pool`chunks
      ensures Valid() && pool.Valid()
      ensures if |old(Table())| < MAX_SEGMENTED_MESSAGE_COUNT then
                Table() == old(Table())[hash := Entry(remaining, id, service, deadline)] && pool.chunks == old(pool.chunks)
              else
                Table() == old(Table()) && pool.chunks == GaveUp(old(pool.chunks), id, Released)
    {
      hide AsMap, Distinct, Separate;
      AsMapSize(m_segmentedMessages.m_keys, m_segmentedMessages.m_elems);
      var emplaced := m_segmentedMessages.Emplace(hash, Entry(remaining, id, service, deadline));
      if !emplaced {
        pool.GiveUpChunk(id, Released);
      }
    }

    method FindAndDecrement(hash: Hash) returns (found: bool, id: ChunkId, shouldPublish: bool)
      requires Valid()
      modifies m_segmentedMessages
      ensures Valid()
      ensures found <==> hash in old(Table())
      ensures !found ==> Table() == old(Table()) && !shouldPublish
      ensures found ==>
                var e := old(Table())[hash];
                var left := Wrap32(e.remaining - 1);
                && id == e.chunk && (shouldPublish <==> left == 0)
                && Table() == if left == 0 then old(Table()) - {hash}
                              else old(Table())[hash := e.(remaining := left)]
    {
      hide AsMap, Distinct;
      id, shouldPublish := 0, false;
      var it := m_segmentedMessages.Find(hash);
      found := it != |m_segmentedMessages.m_elems|;
      if found {
        var e := m_segmentedMessages.m_elems[it];
        id := e.chunk;
        var left := Wrap32(e.remaining - 1);
        if left == 0 {
          m_segmentedMessages.Erase(it);
          shouldPublish := true;
        } else {
          m_segmentedMessages.Set(it, e.(remaining := left));
        }
      }
    }

    method Find(hash: Hash) returns (found: bool, id: ChunkId)
      requires Valid()
      ensures found <==> hash in Table()
      ensures found ==> id == Table()[hash].chunk
    {
      hide AsMap, Distinct;
      var it := m_segmentedMessages.Find(hash);
      found := it != |m_segmentedMessages.m_elems|;
      id := if found then m_segmentedMessages.m_elems[it].chunk else 0;
    }

    method Release(hash: Hash, pool: ChunkPool)
      requires Valid() && pool.Valid()
      requires hash in Table() ==> Table()[hash].chunk in pool.chunks
      modifies m_segmentedMessages, pool`chunks
      ensures Valid() && pool.Valid()
      ensures Table() == old(Table()) - {hash}
      ensures pool.chunks == if hash in old(Table()) then GaveUp(old(pool.chunks), old(Table())[hash].chunk, Released)
                             else old(pool.chunks)
    {
      hide AsMap, Distinct, Separate;
      var it := m_segmentedMessages.Find(hash);
      if it != |m_segmentedMessages.m_elems| {
        pool.GiveUpChunk(m_segmentedMessages.m_elems[it].chunk, Released);
        m_segmentedMessages.Erase(it);
      }
    }

    /** Erases while walking backwards: exactly this publisher's entries go, with their chunks
        released, and the others keep their order. */
    method ReleaseAll(service: ClassHash, pool: ChunkPool)
      requires Valid() && pool.Valid() && OwnChunks(m_segmentedMessages.m_elems, pool.chunks)
      modifies m_segmentedMessages, pool`chunks
      ensures Valid() && pool.Valid()
      ensures var p := (e: Entry) => e.service != service;
              var ks, es := old(m_segmentedMessages.m_keys), old(m_segmentedMessages.m_elems);
              && m_segmentedMessages.m_elems == Keep(es, p) && m_segmentedMessages.m_keys == KeepKeys(ks, es, p)
              && pool.chunks == ReleaseAllOf(old(pool.chunks), Dropped(es, p))
    {
      hide EndsAs, OwnChunks, Distinct, Separate;
      ghost var p := (e: Entry) => e.service != service;
      var v := m_segmentedMessages;
      var it: nat := |v.m_elems|;
      EndsAsItself(v.m_keys, v.m_elems, pool.chunks, p);
      while it != 0
        invariant Valid() && pool.Valid() && OwnChunks(v.m_elems, pool.chunks)
        invariant it <= |v.m_elems| && forall j :: it <= j < |v.m_elems| ==> p(v.m_elems[j])
        invariant EndsAs(v.m_keys, v.m_elems, pool.chunks,
                         old(v.m_keys), old(v.m_elems), old(pool.chunks), p)
      {
        if v.m_elems[it - 1].service == service {
          ghost var ks, es, m := v.m_keys, v.m_elems, pool.chunks;
          EraseAndRelease(it - 1, pool, p);
          EndsAsTrans(v.m_keys, v.m_elems, pool.chunks, ks, es, m, old(v.m_keys), old(v.m_elems), old(pool.chunks), p);
        }
        it := it - 1;
      }
      FilterDone(v.m_keys, v.m_elems, pool.chunks, old(v.m_keys), old(v.m_elems), old(pool.chunks), p);
    }

    /** Takes expired entries out one at a time, the first one in table order at each pass, until
        a pass finds none. */
    method CheckSegmentedMessages(now: int, pool: ChunkPool)
      requires Valid() && pool.Valid() && OwnChunks(m_segmentedMessages.m_elems, pool.chunks)
      modifies m_segmentedMessages, pool`chunks
      ensures Valid() && pool.Valid()
      ensures var p := (e: Entry) => !(e.deadline < now);
              var ks, es := old(m_segmentedMessages.m_keys), old(m_segmentedMessages.m_elems);
              && m_segmentedMessages.m_elems == Keep(es, p) && m_segmentedMessages.m_keys == KeepKeys(ks, es, p)
              && pool.chunks == ReleaseAllOf(old(pool.chunks), Dropped(es, p))
    {
      hide EndsAs, OwnChunks, Distinct, Separate;
      ghost var p := (e: Entry) => !(e.deadline < now);
      var v := m_segmentedMessages;
      var found := true;
      EndsAsItself(v.m_keys, v.m_elems, pool.chunks, p);
      while found
        invariant Valid() && pool.Valid() && OwnChunks(v.m_elems, pool.chunks)
        invariant !found ==> forall j :: 0 <= j < |v.m_elems| ==> p(v.m_elems[j])
        invariant EndsAs(v.m_keys, v.m_elems, pool.chunks,
                         old(v.m_keys), old(v.m_elems), old(pool.chunks), p)
        decreases |v.m_elems|, found
      {
        ghost var ks, es, m := v.m_keys, v.m_elems, pool.chunks;
        var it := FirstExpired(now);
        found := it != |v.m_elems|;
        if found {
          EraseAndRelease(it, pool, p);
          EndsAsTrans(v.m_keys, v.m_elems, pool.chunks, ks, es, m, old(v.m_keys), old(v.m_elems), old(pool.chunks), p);
        }
      }
      FilterDone(v.m_keys, v.m_elems, pool.chunks, old(v.m_keys), old(v.m_elems), old(pool.chunks), p);
    }

    method FirstExpired(now: int) returns (it: nat)
      requires Valid()
      ensures it <= |m_segmentedMessages.m_elems|
      ensures it < |m_segmentedMessages.m_elems| ==> m_segmentedMessages.m_elems[it].deadline < now
      ensures forall j :: 0 <= j < it ==> m_segmentedMessages.m_elems[j].deadline >= now
    {
      it := 0;
      while it < |m_segmentedMessages.m_elems| && m_segmentedMessages.m_elems[it].deadline >= now
        invariant it <= |m_segmentedMessages.m_elems|
        invariant forall j :: 0 <= j < it ==> m_segmentedMessages.m_elems[j].deadline >= now
      {
        it := it + 1;
      }
    }

    method EraseAndRelease(it: nat, pool: ChunkPool, ghost p: Entry -> bool)
      requires Valid() && pool.Valid() && OwnChunks(m_segmentedMessages.m_elems, pool.chunks)
      requires it < |m_segmentedMessages.m_elems| && !p(m_segmentedMessages.m_elems[it])
      modifies m_segmentedMessages, pool`chunks
      ensures Valid() && pool.Valid() && OwnChunks(m_segmentedMessages.m_elems, pool.chunks)
      ensures m_segmentedMessages.m_elems == Without(old(m_segmentedMessages.m_elems), it)
      ensures EndsAs(m_segmentedMessages.m_keys, m_segmentedMessages.m_elems, pool.chunks,
                     old(m_segmentedMessages.m_keys), old(m_segmentedMessages.m_elems), old(pool.chunks), p)
    {
      hide EndsAs, Without, Distinct, Separate;
      var v := m_segmentedMessages;
      EraseOne(v.m_keys, v.m_elems, pool.chunks, it, p);
      pool.GiveUpChunk(v.m_elems[it].chunk, Released);
      v.Erase(it);
    }
  }
}

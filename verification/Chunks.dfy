/** The chunks iceoryx has loaned to the gateway: their buffers are arrays written in place. */
module Chunks {
  import opened Types
  import opened Reassembly

  /** A loaned chunk: the buffers behind the pointers the gateway holds, and who has it. */
  datatype Buffers = Buffers(owner: Owner, givenUp: nat, userHeader: array<byte>, userPayload: array<byte>)

  type Pool = map<ChunkId, Buffers>

  /** No two buffers overlap. */
  ghost predicate Separate(m: Pool) {
    && (forall id :: id in m ==> m[id].userHeader != m[id].userPayload)
    && (forall i, j :: i in m && j in m && i != j ==>
          && m[i].userHeader != m[j].userHeader
          && m[i].userPayload != m[j].userPayload
          && m[i].userHeader != m[j].userPayload)
  }

  ghost function Arrays(m: Pool): set<array<byte>> {
    (set id | id in m :: m[id].userHeader) + (set id | id in m :: m[id].userPayload)
  }

  /** The chunks with the present contents of their buffers. */
  ghost function Views(m: Pool): (v: map<ChunkId, Chunk>)
    reads Arrays(m)
    ensures v.Keys == m.Keys
  {
    map id | id in m :: Chunk(m[id].owner, m[id].userHeader[..], m[id].userPayload[..], m[id].givenUp)
  }

  function GaveUp(m: Pool, id: ChunkId, owner: Owner): Pool
    requires id in m
  {
    m[id := m[id].(owner := owner, givenUp := m[id].givenUp + 1)]
  }

  lemma GaveUpSeparate(m: Pool, id: ChunkId, owner: Owner)
    requires Separate(m) && id in m
    ensures Separate(GaveUp(m, id, owner))
  {
    var m' := GaveUp(m, id, owner);
    assert forall i :: i in m' ==>
      i in m && m'[i].userHeader == m[i].userHeader && m'[i].userPayload == m[i].userPayload;
  }

  lemma GaveUpViews(m: Pool, id: ChunkId, owner: Owner)
    requires id in m
    ensures Views(GaveUp(m, id, owner)) == Views(m)[id := GiveUp(Views(m)[id], owner)]
  {}

  lemma GaveUpArrays(m: Pool, id: ChunkId, owner: Owner)
    requires id in m
    ensures Arrays(GaveUp(m, id, owner)) == Arrays(m)
  {
    var m' := GaveUp(m, id, owner);
    assert forall i :: i in m ==>
      i in m' && m'[i].userHeader == m[i].userHeader && m'[i].userPayload == m[i].userPayload;
    assert m'.Keys == m.Keys;
  }

  lemma InsertViews(m: Pool, id: ChunkId, b: Buffers)
    requires id !in m
    ensures Views(m[id := b]) == Views(m)[id := Chunk(b.owner, b.userHeader[..], b.userPayload[..], b.givenUp)]
    ensures Arrays(m[id := b]) == Arrays(m) + {b.userHeader, b.userPayload}
  {
    var m' := m[id := b];
    assert m'[id] == b && forall i :: i in m ==> m'[i] == m[i];
  }

  class ChunkPool {
    var chunks: Pool
    var next: ChunkId
    var published: seq<Publication>

    constructor ()
      ensures Valid() && chunks == map[] && published == []
    {
      chunks, next, published := map[], 0, [];
    }

    /** Ids are not reused. */
    ghost predicate Valid()
      reads this
    {
      (forall id :: id in chunks ==> id < next) && Separate(chunks)
    }

    method Insert(b: Buffers) returns (id: ChunkId)
      requires Valid() && b.userHeader != b.userPayload
      requires b.userHeader !in Arrays(chunks) && b.userPayload !in Arrays(chunks)
      modifies this`chunks, this`next
      ensures Valid() && id !in old(chunks) && chunks == old(chunks)[id := b]
    {
      id := next;
      chunks := chunks[next := b];
      next := next + 1;
    }

    /** iceoryx may refuse; a granted chunk has new buffers with arbitrary contents. */
    method LoanChunk(headerSize: nat, payloadSize: nat) returns (id: Option<ChunkId>)
      requires Valid()
      modifies this`chunks, this`next
      ensures Valid()
      ensures id.None? ==> chunks == old(chunks)
      ensures id.Some? ==>
                && id.value !in old(chunks) && id.value in chunks
                && chunks == old(chunks)[id.value := chunks[id.value]]
                && chunks[id.value].owner == Held && chunks[id.value].givenUp == 0
                && fresh(chunks[id.value].userHeader) && fresh(chunks[id.value].userPayload)
                && chunks[id.value].userHeader.Length == headerSize
                && chunks[id.value].userPayload.Length == payloadSize
    {
      if * {
        return None;
      }
      var h, p := new byte[headerSize], new byte[payloadSize];
      var i := Insert(Buffers(Held, 0, h, p));
      id := Some(i);
    }

    method GiveUpChunk(id: ChunkId, owner: Owner)
      requires Valid() && id in chunks
      modifies this`chunks
      ensures Valid() && chunks == GaveUp(old(chunks), id, owner)
    {
      GaveUpSeparate(chunks, id, owner);
      chunks := chunks[id := chunks[id].(owner := owner, givenUp := chunks[id].givenUp + 1)];
    }

    method PublishChunk(id: ChunkId, service: ClassHash, from: DeviceIndex)
      requires Valid() && id in chunks
      modifies this`chunks, this`published
      ensures Valid() && chunks == GaveUp(old(chunks), id, Published)
      ensures published == old(published) + [Publication(service, id, from)]
    {
      GiveUpChunk(id, Published);
      published := published + [Publication(service, id, from)];
    }

    /** takeNext on the buffers of one chunk. A chunk without user header has a null header
        pointer; here its header buffer is empty. */
    method CopySegment(id: ChunkId, h: DatagramHeader, data: seq<byte>)
      requires Valid() && id in chunks
      requires CopyInBounds(Views(chunks)[id], h, data)
      modifies chunks[id].userHeader, chunks[id].userPayload
      ensures Views(chunks) == old(Views(chunks))[id := TakeNext(old(Views(chunks))[id], h, data)]
    {
      var c := chunks[id];
      if h.submessageOffset < h.userHeaderSize {
        if c.userHeader.Length != 0 {
          CopyBytes(c.userHeader, h.submessageOffset, data);
        }
      } else {
        CopyBytes(c.userPayload, h.submessageOffset - h.userHeaderSize, data);
      }
    }
  }

  method CopyBytes(buffer: array<byte>, at: nat, data: seq<byte>)
    requires at + |data| <= buffer.Length
    modifies buffer
    ensures buffer[..] == Place(old(buffer[..]), at, data)
  {
    forall i | 0 <= i < |data| {
      buffer[at + i] := data[i];
    }
  }
}

/** The receiving side as operations on values: the table of partly received messages, the
    chunks loaned from iceoryx, and what has been published. The class in TransportToIox is
    proved to do exactly these operations. */
module Reassembly {
  import opened Types
  import Serialization
  import Seqs

  type ChunkId = nat

  /** Who has a chunk: the gateway with an entry for it in the table, the timeout sweep that
      took the entry out but has not released the chunk yet, or iceoryx again. */
  datatype Owner = Held | Detached | Published | Released

  /** The buffers of a loaned chunk; a chunk without user header has an empty one. `givenUp`
      counts the publish and release calls made for it. */
  datatype Chunk = Chunk(owner: Owner, userHeader: seq<byte>, userPayload: seq<byte>, givenUp: nat)

  datatype Entry = Entry(remaining: uint32, chunk: ChunkId, service: ClassHash, deadline: int)

  datatype Publication = Publication(service: ClassHash, chunk: ChunkId, from: DeviceIndex)

  /** The answer of iceoryx to a loan: refused, or a new chunk with arbitrary contents. */
  datatype Loan = Refused | Granted(id: ChunkId, userHeader: seq<byte>, userPayload: seq<byte>)

  datatype Receiver = Receiver(
    channels: set<ClassHash>,
    table: map<Hash, Entry>,
    chunks: map<ChunkId, Chunk>,
    published: seq<Publication>)

  const MAX_SEGMENTED_MESSAGE_COUNT := 64
  const NS_PER_BYTE := 500

  // ---------- placing a segment ----------

  function Place(buffer: seq<byte>, at: nat, data: seq<byte>): (r: seq<byte>)
    ensures |r| == |buffer|
  {
    if at + |data| <= |buffer| then buffer[..at] + data + buffer[at + |data|..] else buffer
  }

  /** The copy of a segment stays inside the buffer it goes to. */
  predicate CopyInBounds(c: Chunk, h: DatagramHeader, data: seq<byte>) {
    if h.submessageOffset < h.userHeaderSize then
      c.userHeader == [] || h.submessageOffset + |data| <= |c.userHeader|
    else
      h.submessageOffset - h.userHeaderSize + |data| <= |c.userPayload|
  }

  /** The segment goes to the user header or to the user payload, by its offset. Out of bounds
      the program's copy is undefined; see CopyInBounds. */
  function TakeNext(c: Chunk, h: DatagramHeader, data: seq<byte>): (r: Chunk)
    ensures |r.userHeader| == |c.userHeader| && |r.userPayload| == |c.userPayload|
    ensures r.owner == c.owner && r.givenUp == c.givenUp
  {
    if h.submessageOffset < h.userHeaderSize then
      c.(userHeader := Place(c.userHeader, h.submessageOffset, data))
    else
      c.(userPayload := Place(c.userPayload, h.submessageOffset - h.userHeaderSize, data))
  }

  /** The segment lies inside the buffer it will be copied to. */
  predicate InBounds(r: Receiver, h: DatagramHeader, data: seq<byte>) {
    && (h.messageHash in r.table && r.table[h.messageHash].chunk in r.chunks ==>
          CopyInBounds(r.chunks[r.table[h.messageHash].chunk], h, data))
    && (h.messageHash !in r.table ==>
          if h.submessageOffset < h.userHeaderSize then h.submessageOffset + |data| <= h.userHeaderSize
          else h.submessageOffset - h.userHeaderSize + |data| <= h.userPayloadSize)
  }

  function GiveUp(c: Chunk, owner: Owner): Chunk {
    c.(owner := owner, givenUp := c.givenUp + 1)
  }

  function NewChunk(loan: Loan): Chunk
    requires loan.Granted?
  {
    Chunk(Held, loan.userHeader, loan.userPayload, 0)
  }

  /** A loan answers the request of this datagram header, with a chunk not seen before. */
  predicate ValidLoan(r: Receiver, h: DatagramHeader, loan: Loan) {
    loan.Granted? ==>
      && loan.id !in r.chunks
      && |loan.userHeader| == h.userHeaderSize
      && |loan.userPayload| == h.userPayloadSize
  }

  function Deadline(h: DatagramHeader, now: int): int {
    now + NS_PER_BYTE * Wrap32(h.userHeaderSize + h.userPayloadSize)
  }

  // ---------- the operations ----------

  /** SegmentedMessageManager.push: with the table full the chunk is released at once. */
  function Push(r: Receiver, hash: Hash, remaining: uint32, id: ChunkId, service: ClassHash, deadline: int): Receiver
    requires id in r.chunks
  {
    if |r.table| < MAX_SEGMENTED_MESSAGE_COUNT then
      r.(table := r.table[hash := Entry(remaining, id, service, deadline)])
    else
      r.(chunks := r.chunks[id := GiveUp(r.chunks[id], Released)])
  }

  /** Publishing hands the chunk to iceoryx and tells the forwarder where it came from. */
  function Publish(r: Receiver, id: ChunkId, service: ClassHash, from: DeviceIndex): Receiver
    requires id in r.chunks
  {
    r.(chunks := r.chunks[id := GiveUp(r.chunks[id], Published)],
       published := r.published + [Publication(service, id, from)])
  }

  /** findAndDecrement on a hash that is in the table; publishing follows when `left` is 0. */
  function Decrement(r: Receiver, hash: Hash): Receiver
    requires hash in r.table
  {
    var e := r.table[hash];
    var left := Wrap32(e.remaining - 1);
    r.(table := if left == 0 then r.table - {hash} else r.table[hash := e.(remaining := left)])
  }

  predicate Completes(r: Receiver, hash: Hash)
    requires hash in r.table
  {
    Wrap32(r.table[hash].remaining - 1) == 0
  }

  function Copy(r: Receiver, id: ChunkId, h: DatagramHeader, data: seq<byte>): Receiver
    requires id in r.chunks
  {
    r.(chunks := r.chunks[id := TakeNext(r.chunks[id], h, data)])
  }

  /** Every entry's chunk is known. */
  predicate Closed(r: Receiver) {
    forall hash :: hash in r.table ==> r.table[hash].chunk in r.chunks
  }

  /** One more segment of `hash` is complete; the last one publishes the message. */
  function CountDown(r: Receiver, hash: Hash, service: ClassHash, from: DeviceIndex): Receiver
    requires Closed(r) && hash in r.table
  {
    var s := Decrement(r, hash);
    if Completes(r, hash) then Publish(s, r.table[hash].chunk, service, from) else s
  }

  function Receive(r: Receiver, h: DatagramHeader, data: seq<byte>, loan: Loan, now: int, from: DeviceIndex): Receiver
    requires Closed(r)
  {
    var hash := h.messageHash;
    if h.serviceHash !in r.channels then r
    else if hash in r.table then
      CountDown(Copy(r, r.table[hash].chunk, h, data), hash, h.serviceHash, from)
    else if loan.Refused? then r
    else
      var s := r.(chunks := r.chunks[loan.id := NewChunk(loan)]);
      if h.submessageCount > 1 then
        Copy(Push(s, hash, h.submessageCount - 1, loan.id, h.serviceHash, Deadline(h, now)), loan.id, h, data)
      else
        Publish(Copy(s, loan.id, h, data), loan.id, h.serviceHash, from)
  }

  /** `receive` on the bytes of a datagram: None is where the program terminates. */
  function ReceiveBytes(r: Receiver, bytes: seq<byte>, loan: Loan, now: int, from: DeviceIndex): Option<Receiver>
    requires Closed(r)
  {
    match Serialization.DecodeHeader(bytes)
    case None => None
    case Some(h) =>
      if |bytes| != Wrap32(h.submessageSize + 44) then Some(r)
      else Some(Receive(r, h, bytes[44..], loan, now, from))
  }

  /** A datagram is taken exactly when it has as many bytes as its header says, fewer than 2^32; any
      other one with a header changes nothing. */
  lemma TakenExactly(r: Receiver, bytes: seq<byte>, loan: Loan, now: int, from: DeviceIndex)
    requires Closed(r) && Serialization.DecodeHeader(bytes).Some?
    ensures var h := Serialization.DecodeHeader(bytes).value;
            && |bytes| >= 44
            && ReceiveBytes(r, bytes, loan, now, from)
               == Some(if |bytes| == h.submessageSize + 44 && |bytes| < TWO32 then Receive(r, h, bytes[44..], loan, now, from) else r)
  {
    hide Receive;
  }

  /** `loanBuffer`: the new state and the chunk whose buffer is returned. */
  function LoanBuffer(r: Receiver, h: DatagramHeader, loan: Loan, now: int): (Receiver, Option<ChunkId>)
    requires Closed(r)
  {
    if h.serviceHash !in r.channels then (r, None)
    else if h.messageHash in r.table then (r, Some(r.table[h.messageHash].chunk))
    else if loan.Refused? then (r, None)
    else
      var s := r.(chunks := r.chunks[loan.id := NewChunk(loan)]);
      (Push(s, h.messageHash, h.submessageCount, loan.id, h.serviceHash, Deadline(h, now)), Some(loan.id))
  }

  /** Takes the entry out of the table and releases its chunk. */
  function Release(r: Receiver, hash: Hash): Receiver
    requires Closed(r) && hash in r.table
  {
    var id := r.table[hash].chunk;
    r.(table := r.table - {hash}, chunks := r.chunks[id := GiveUp(r.chunks[id], Released)])
  }

  function ReleaseBuffer(r: Receiver, h: DatagramHeader, shouldRelease: bool, from: DeviceIndex): Receiver
    requires Closed(r)
  {
    var hash := h.messageHash;
    if h.serviceHash !in r.channels || hash !in r.table then r
    else if shouldRelease then Release(r, hash)
    else CountDown(r, hash, h.serviceHash, from)
  }

  /** The two halves of one sweep step: take an expired entry out, later release its chunk. */
  function Detach(r: Receiver, hash: Hash): Receiver
    requires Closed(r) && hash in r.table
  {
    var id := r.table[hash].chunk;
    r.(table := r.table - {hash}, chunks := r.chunks[id := r.chunks[id].(owner := Detached)])
  }

  function GiveBack(r: Receiver, id: ChunkId): Receiver
    requires id in r.chunks
  {
    r.(chunks := r.chunks[id := GiveUp(r.chunks[id], Released)])
  }

  function Gone(r: Receiver, service: ClassHash): set<Hash> {
    set hash | hash in r.table && r.table[hash].service == service
  }

  function Expired(r: Receiver, now: int): set<Hash> {
    set hash | hash in r.table && r.table[hash].deadline < now
  }

  function ChunksOf(r: Receiver, hashes: set<Hash>): set<ChunkId> {
    set hash | hash in hashes && hash in r.table :: r.table[hash].chunk
  }

  /** Takes these entries out and releases their chunks. */
  function Discard(r: Receiver, gone: set<Hash>): Receiver {
    r.(table := r.table - gone,
       chunks := map id | id in r.chunks :: if id in ChunksOf(r, gone) then GiveUp(r.chunks[id], Released) else r.chunks[id])
  }

  /** Deleting a channel releases the chunks of all its entries. */
  function CloseChannel(r: Receiver, service: ClassHash): Receiver {
    Discard(r, Gone(r, service)).(channels := r.channels - {service})
  }

  /** checkSegmentedMessages from start to end, with nothing in between. */
  function Sweep(r: Receiver, now: int): Receiver {
    Discard(r, Expired(r, now))
  }

  function OpenChannel(r: Receiver, service: ClassHash): Receiver {
    r.(channels := r.channels + {service})
  }

  // ---------- conservation ----------

  /** Entries name held chunks, each its own, and belong to open channels. */
  ghost predicate EntriesOwn(r: Receiver, loose: set<ChunkId>) {
    && (forall hash :: hash in r.table ==>
          && r.table[hash].chunk in r.chunks
          && r.chunks[r.table[hash].chunk].owner == Held
          && r.table[hash].chunk !in loose
          && r.table[hash].service in r.channels)
    && (forall g, h :: g in r.table && h in r.table && r.table[g].chunk == r.table[h].chunk ==> g == h)
  }

  /** A held chunk has an entry, unless it is one of the `loose` ones an operation has at hand. */
  ghost predicate HeldHasEntry(r: Receiver, loose: set<ChunkId>) {
    && (forall id :: id in r.chunks && r.chunks[id].owner == Held && id !in loose ==>
          exists hash :: hash in r.table && r.table[hash].chunk == id)
    && (forall id :: id in loose ==> id in r.chunks && r.chunks[id].owner == Held)
  }

  ghost predicate GivenUpOnce(r: Receiver) {
    forall id :: id in r.chunks ==>
      r.chunks[id].givenUp == if r.chunks[id].owner.Held? || r.chunks[id].owner.Detached? then 0 else 1
  }

  ghost predicate PublishedOnce(r: Receiver) {
    && (forall k :: 0 <= k < |r.published| ==>
          r.published[k].chunk in r.chunks && r.chunks[r.published[k].chunk].owner == Published)
    && (forall j, k :: 0 <= j < k < |r.published| ==> r.published[j].chunk != r.published[k].chunk)
    && (forall id :: id in r.chunks && r.chunks[id].owner == Published ==>
          exists k :: 0 <= k < |r.published| && r.published[k].chunk == id)
  }

  ghost predicate ConservedBut(r: Receiver, loose: set<ChunkId>) {
    EntriesOwn(r, loose) && HeldHasEntry(r, loose) && GivenUpOnce(r) && PublishedOnce(r)
  }

  /** A chunk is Held exactly while one entry names it; it has been given up once when it is
      Published or Released and not at all before; each published chunk is published once.
      So no chunk is lost and none is given up twice. */
  ghost predicate Conserved(r: Receiver) {
    ConservedBut(r, {})
  }

  lemma InitiallyConserved(channels: set<ClassHash>)
    ensures Conserved(Receiver(channels, map[], map[], []))
  {}

  lemma CopyConserves(r: Receiver, loose: set<ChunkId>, id: ChunkId, h: DatagramHeader, data: seq<byte>)
    requires ConservedBut(r, loose) && id in r.chunks
    ensures ConservedBut(Copy(r, id, h, data), loose)
  {
    hide Place;
    var s := Copy(r, id, h, data);
    assert forall i :: i in r.chunks ==>
      s.chunks[i].owner == r.chunks[i].owner && s.chunks[i].givenUp == r.chunks[i].givenUp;
    assert HeldHasEntry(s, loose);
    assert EntriesOwn(s, loose);
  }

  lemma GrantConserves(r: Receiver, h: DatagramHeader, loan: Loan)
    requires Conserved(r) && ValidLoan(r, h, loan) && loan.Granted?
    ensures ConservedBut(r.(chunks := r.chunks[loan.id := NewChunk(loan)]), {loan.id})
  {
    var s := r.(chunks := r.chunks[loan.id := NewChunk(loan)]);
    assert HeldHasEntry(s, {loan.id});
    assert PublishedOnce(s);
  }

  /** Giving a chunk at hand an entry of its own. */
  lemma AdmitConserves(r: Receiver, hash: Hash, e: Entry)
    requires ConservedBut(r, {e.chunk}) && hash !in r.table && e.service in r.channels
    ensures Conserved(r.(table := r.table[hash := e]))
  {
    var s := r.(table := r.table[hash := e]);
    assert forall g :: g in r.table ==> s.table[g] == r.table[g];
    assert s.table[hash].chunk == e.chunk;
    assert HeldHasEntry(s, {});
  }

  lemma PushConserves(r: Receiver, hash: Hash, remaining: uint32, id: ChunkId, service: ClassHash, deadline: int)
    requires ConservedBut(r, {id}) && hash !in r.table && service in r.channels
    ensures Conserved(Push(r, hash, remaining, id, service, deadline))
  {
    hide EntriesOwn, HeldHasEntry, GivenUpOnce, PublishedOnce;
    if |r.table| < MAX_SEGMENTED_MESSAGE_COUNT {
      AdmitConserves(r, hash, Entry(remaining, id, service, deadline));
    } else {
      ReleaseConserves(r, id);
    }
  }

  lemma PublishConserves(r: Receiver, id: ChunkId, service: ClassHash, from: DeviceIndex)
    requires ConservedBut(r, {id})
    ensures Conserved(Publish(r, id, service, from))
  {
    var s := Publish(r, id, service, from);
    var n := |r.published|;
    assert s.published[n].chunk == id;
    assert forall k :: 0 <= k < n ==> s.published[k] == r.published[k];
    assert PublishedOnce(s);
    assert HeldHasEntry(s, {});
  }

  lemma ReleaseConserves(r: Receiver, id: ChunkId)
    requires ConservedBut(r, {id})
    ensures id in r.chunks && Conserved(GiveBack(r, id))
  {
    var s := GiveBack(r, id);
    assert PublishedOnce(s) && HeldHasEntry(s, {});
  }

  lemma SetAsideConserves(r: Receiver, id: ChunkId)
    requires ConservedBut(r, {id})
    ensures Conserved(r.(chunks := r.chunks[id := r.chunks[id].(owner := Detached)]))
  {
    var s := r.(chunks := r.chunks[id := r.chunks[id].(owner := Detached)]);
    assert PublishedOnce(s) && HeldHasEntry(s, {});
  }

  /** Taking an entry out leaves its chunk at hand. */
  lemma EraseConserves(r: Receiver, hash: Hash)
    requires Conserved(r) && hash in r.table
    ensures ConservedBut(r.(table := r.table - {hash}), {r.table[hash].chunk})
  {
    var id := r.table[hash].chunk;
    var s := r.(table := r.table - {hash});
    forall i | i in s.chunks && s.chunks[i].owner == Held && i != id
      ensures exists g :: g in s.table && s.table[g].chunk == i
    {
      var g :| g in r.table && r.table[g].chunk == i;
      assert g in s.table;
    }
    assert HeldHasEntry(s, {id});
  }

  lemma UpdateConserves(r: Receiver, hash: Hash, left: uint32)
    requires Conserved(r) && hash in r.table
    ensures Conserved(r.(table := r.table[hash := r.table[hash].(remaining := left)]))
  {
    var s := r.(table := r.table[hash := r.table[hash].(remaining := left)]);
    assert forall g :: g in r.table ==> g in s.table && s.table[g].chunk == r.table[g].chunk;
    assert HeldHasEntry(s, {});
  }

  lemma DecrementConserves(r: Receiver, hash: Hash)
    requires Conserved(r) && hash in r.table
    ensures ConservedBut(Decrement(r, hash), if Completes(r, hash) then {r.table[hash].chunk} else {})
  {
    EraseConserves(r, hash);
    UpdateConserves(r, hash, Wrap32(r.table[hash].remaining - 1));
  }

  lemma CountDownConserves(r: Receiver, hash: Hash, service: ClassHash, from: DeviceIndex)
    requires Conserved(r) && hash in r.table
    ensures Closed(r) && Conserved(CountDown(r, hash, service, from))
  {
    hide EntriesOwn, HeldHasEntry, GivenUpOnce, PublishedOnce;
    EntriesKnown(r, {});
    DecrementConserves(r, hash);
    if Completes(r, hash) {
      PublishConserves(Decrement(r, hash), r.table[hash].chunk, service, from);
    }
  }

  lemma ReceiveConserves(r: Receiver, h: DatagramHeader, data: seq<byte>, loan: Loan, now: int, from: DeviceIndex)
    requires Conserved(r) && ValidLoan(r, h, loan)
    ensures Conserved(Receive(r, h, data, loan, now, from))
  {
    hide EntriesOwn, HeldHasEntry, GivenUpOnce, PublishedOnce, TakeNext;
    var hash := h.messageHash;
    EntriesKnown(r, {});
    if h.serviceHash !in r.channels {
    } else if hash in r.table {
      CopyConserves(r, {}, r.table[hash].chunk, h, data);
      CountDownConserves(Copy(r, r.table[hash].chunk, h, data), hash, h.serviceHash, from);
    } else if loan.Granted? {
      GrantConserves(r, h, loan);
      var s := r.(chunks := r.chunks[loan.id := NewChunk(loan)]);
      if h.submessageCount > 1 {
        PushConserves(s, hash, h.submessageCount - 1, loan.id, h.serviceHash, Deadline(h, now));
        CopyConserves(Push(s, hash, h.submessageCount - 1, loan.id, h.serviceHash, Deadline(h, now)),
                      {}, loan.id, h, data);
      } else {
        CopyConserves(s, {loan.id}, loan.id, h, data);
        PublishConserves(Copy(s, loan.id, h, data), loan.id, h.serviceHash, from);
      }
    }
  }

  lemma EntriesKnown(r: Receiver, loose: set<ChunkId>)
    requires ConservedBut(r, loose)
    ensures Closed(r)
  {}

  lemma LoanBufferConserves(r: Receiver, h: DatagramHeader, loan: Loan, now: int)
    requires Conserved(r) && ValidLoan(r, h, loan)
    ensures Conserved(LoanBuffer(r, h, loan, now).0)
  {
    hide EntriesOwn, HeldHasEntry, GivenUpOnce, PublishedOnce;
    EntriesKnown(r, {});
    if h.serviceHash in r.channels && h.messageHash !in r.table && loan.Granted? {
      GrantConserves(r, h, loan);
      PushConserves(r.(chunks := r.chunks[loan.id := NewChunk(loan)]), h.messageHash, h.submessageCount,
                    loan.id, h.serviceHash, Deadline(h, now));
    }
  }

  lemma ReleaseBufferConserves(r: Receiver, h: DatagramHeader, shouldRelease: bool, from: DeviceIndex)
    requires Conserved(r)
    ensures Conserved(ReleaseBuffer(r, h, shouldRelease, from))
  {
    hide EntriesOwn, HeldHasEntry, GivenUpOnce, PublishedOnce;
    EntriesKnown(r, {});
    var hash := h.messageHash;
    if h.serviceHash in r.channels && hash in r.table {
      var id := r.table[hash].chunk;
      if shouldRelease {
        EraseConserves(r, hash);
        ReleaseConserves(r.(table := r.table - {hash}), id);
      } else {
        CountDownConserves(r, hash, h.serviceHash, from);
      }
    }
  }

  lemma DetachConserves(r: Receiver, hash: Hash)
    requires Conserved(r) && hash in r.table
    ensures Conserved(Detach(r, hash))
  {
    EraseConserves(r, hash);
    SetAsideConserves(r.(table := r.table - {hash}), r.table[hash].chunk);
  }

  lemma GiveBackConserves(r: Receiver, id: ChunkId)
    requires Conserved(r) && id in r.chunks && r.chunks[id].owner == Detached
    ensures Conserved(GiveBack(r, id))
  {
    var s := GiveBack(r, id);
    assert HeldHasEntry(s, {}) && PublishedOnce(s);
  }

  lemma DiscardKeepsHeld(r: Receiver, gone: set<Hash>)
    requires Conserved(r) && gone <= r.table.Keys
    ensures HeldHasEntry(Discard(r, gone), {})
  {
    hide GivenUpOnce, PublishedOnce;
    var s := Discard(r, gone);
    forall id | id in s.chunks && s.chunks[id].owner == Held
      ensures exists hash :: hash in s.table && s.table[hash].chunk == id
    {
      assert id !in ChunksOf(r, gone);
      var hash :| hash in r.table && r.table[hash].chunk == id;
      assert hash !in gone;
      assert hash in s.table;
    }
  }

  lemma DiscardKeepsEntries(r: Receiver, gone: set<Hash>)
    requires Conserved(r) && gone <= r.table.Keys
    ensures EntriesOwn(Discard(r, gone), {})
  {
    hide HeldHasEntry, GivenUpOnce, PublishedOnce;
    forall hash | hash in r.table && hash !in gone
      ensures r.table[hash].chunk !in ChunksOf(r, gone)
    {}
  }

  lemma DiscardGivesUpOnce(r: Receiver, gone: set<Hash>)
    requires Conserved(r) && gone <= r.table.Keys
    ensures GivenUpOnce(Discard(r, gone)) && PublishedOnce(Discard(r, gone))
  {
    hide HeldHasEntry;
    assert forall id :: id in ChunksOf(r, gone) ==> r.chunks[id].owner == Held;
  }

  lemma DiscardConserves(r: Receiver, gone: set<Hash>)
    requires Conserved(r) && gone <= r.table.Keys
    ensures Conserved(Discard(r, gone))
  {
    hide EntriesOwn, HeldHasEntry, GivenUpOnce, PublishedOnce, Discard;
    DiscardKeepsEntries(r, gone);
    DiscardKeepsHeld(r, gone);
    DiscardGivesUpOnce(r, gone);
  }

  lemma CloseChannelConserves(r: Receiver, service: ClassHash)
    requires Conserved(r)
    ensures Conserved(CloseChannel(r, service))
  {
    hide GivenUpOnce, PublishedOnce;
    DiscardConserves(r, Gone(r, service));
    ClosePublications(Discard(r, Gone(r, service)), r.channels - {service});
  }

  /** What has been published and given up does not depend on the channels. */
  lemma ClosePublications(r: Receiver, channels: set<ClassHash>)
    ensures PublishedOnce(r.(channels := channels)) == PublishedOnce(r)
    ensures GivenUpOnce(r.(channels := channels)) == GivenUpOnce(r)
  {}

  // ---------- the two ways a message may start ----------

  /** The entry a message would have before its first segment. */
  function Admitted(r: Receiver, h: DatagramHeader, loan: Loan, now: int): Receiver
    requires loan.Granted?
  {
    r.(chunks := r.chunks[loan.id := NewChunk(loan)],
       table := r.table[h.messageHash := Entry(h.submessageCount, loan.id, h.serviceHash, Deadline(h, now))])
  }

  lemma MapTwice<K, V>(m: map<K, V>, k: K, u: V, v: V)
    ensures m[k := u][k := v] == m[k := v]
    ensures k !in m ==> m[k := u] - {k} == m
  {}

  /** An entry created with the first copied segment (count less one) is the entry that would
      have counted that segment down from the full count; for a message of one segment no entry
      is needed at all. */
  lemma FirstSegment(r: Receiver, h: DatagramHeader, data: seq<byte>, loan: Loan, now: int, from: DeviceIndex)
    requires Closed(r) && loan.Granted? && h.serviceHash in r.channels && h.messageHash !in r.table
    requires 1 <= h.submessageCount
    requires h.submessageCount > 1 ==> |r.table| < MAX_SEGMENTED_MESSAGE_COUNT
    ensures Closed(Admitted(r, h, loan, now))
    ensures CountDown(Copy(Admitted(r, h, loan, now), loan.id, h, data), h.messageHash, h.serviceHash, from)
            == Receive(r, h, data, loan, now, from)
  {
    hide TakeNext;
    var e := Entry(h.submessageCount, loan.id, h.serviceHash, Deadline(h, now));
    MapTwice(r.table, h.messageHash, e, e.(remaining := h.submessageCount - 1));
  }

  // ---------- conservation over every run ----------

  /** Anything that can happen to the receiver, in any order: its datagrams need not be segments
      of a message anybody sent. */
  datatype Action =
    | DoReceive(h: DatagramHeader, data: seq<byte>, loan: Loan, now: int, from: DeviceIndex)
    | DoLoan(h: DatagramHeader, loan: Loan, now: int)
    | DoRelease(h: DatagramHeader, shouldRelease: bool, from: DeviceIndex)
    | DoWrite(id: ChunkId, h: DatagramHeader, data: seq<byte>)
    | DoExpire(hash: Hash)
    | DoGiveBack(id: ChunkId)
    | DoClose(service: ClassHash)
    | DoOpen(service: ClassHash)

  /** Every copy stays inside its buffer: past the end, what the program's copy does is undefined. */
  predicate Possible(r: Receiver, x: Action) {
    Closed(r) &&
    match x
    case DoReceive(h, data, loan, _, _) =>
      ValidLoan(r, h, loan)
      && (h.serviceHash in r.channels && (h.messageHash in r.table || loan.Granted?) ==> InBounds(r, h, data))
    case DoLoan(h, loan, _) => ValidLoan(r, h, loan)
    case DoWrite(id, h, data) => id in r.chunks && CopyInBounds(r.chunks[id], h, data)
    case DoExpire(hash) => hash in r.table
    case DoGiveBack(id) => id in r.chunks && r.chunks[id].owner == Detached
    case _ => true
  }

  function Effect(r: Receiver, x: Action): Receiver
    requires Possible(r, x)
  {
    match x
    case DoReceive(h, data, loan, now, from) => Receive(r, h, data, loan, now, from)
    case DoLoan(h, loan, now) => LoanBuffer(r, h, loan, now).0
    case DoRelease(h, shouldRelease, from) => ReleaseBuffer(r, h, shouldRelease, from)
    case DoWrite(id, h, data) => Copy(r, id, h, data)
    case DoExpire(hash) => Detach(r, hash)
    case DoGiveBack(id) => GiveBack(r, id)
    case DoClose(service) => CloseChannel(r, service)
    case DoOpen(service) => OpenChannel(r, service)
  }

  predicate Happens(r: Receiver, xs: seq<Action>, s: Receiver)
    decreases |xs|
  {
    if xs == [] then r == s else Possible(r, xs[0]) && Happens(Effect(r, xs[0]), xs[1..], s)
  }

  lemma OpenConserves(r: Receiver, service: ClassHash)
    requires Conserved(r)
    ensures Conserved(OpenChannel(r, service))
  {
    hide GivenUpOnce;
    var s := OpenChannel(r, service);
    ClosePublications(r, s.channels);
    assert HeldHasEntry(s, {}) && EntriesOwn(s, {});
  }

  lemma EffectConserves(r: Receiver, x: Action)
    requires Conserved(r) && Possible(r, x)
    ensures Conserved(Effect(r, x))
  {
    hide ConservedBut, Receive, LoanBuffer, ReleaseBuffer, Copy, Detach, GiveBack, CloseChannel, OpenChannel;
    match x
    case DoReceive(h, data, loan, now, from) => ReceiveConserves(r, h, data, loan, now, from);
    case DoLoan(h, loan, now) => LoanBufferConserves(r, h, loan, now);
    case DoRelease(h, shouldRelease, from) => ReleaseBufferConserves(r, h, shouldRelease, from);
    case DoWrite(id, h, data) => CopyConserves(r, {}, id, h, data);
    case DoExpire(hash) => DetachConserves(r, hash);
    case DoGiveBack(id) => GiveBackConserves(r, id);
    case DoClose(service) => CloseChannelConserves(r, service);
    case DoOpen(service) => OpenConserves(r, service);
  }

  /** Over every run in which copies stay inside their buffers, full tables and contradictory headers
      included: no chunk is lost, and none is given up twice. */
  lemma {:induction false} AlwaysConserved(r: Receiver, xs: seq<Action>, s: Receiver)
    requires Conserved(r) && Happens(r, xs, s)
    ensures Conserved(s)
    decreases |xs|
  {
    hide Conserved, Possible, Effect;
    if xs != [] {
      EffectConserves(r, xs[0]);
      AlwaysConserved(Effect(r, xs[0]), xs[1..], s);
    }
  }

  // ---------- what a publication says ----------

  /** At most one publication is added: for the service in the header, and with the device the completing
      datagram or transfer came from, which is what the forwarder is told. */
  predicate AddsOne(before: seq<Publication>, after: seq<Publication>, service: ClassHash, from: DeviceIndex) {
    || after == before
    || (|after| == |before| + 1 && after[..|before|] == before
        && after[|before|].service == service && after[|before|].from == from)
  }

  lemma PublishedAsItCame(r: Receiver, h: DatagramHeader, data: seq<byte>, loan: Loan, now: int, shouldRelease: bool,
                          from: DeviceIndex)
    requires Closed(r)
    ensures AddsOne(r.published, Receive(r, h, data, loan, now, from).published, h.serviceHash, from)
    ensures AddsOne(r.published, ReleaseBuffer(r, h, shouldRelease, from).published, h.serviceHash, from)
  {
    hide TakeNext;
  }

  // ---------- when an entry expires ----------

  /** 500 ns for each byte, header and payload; a sum of 2^32 or more wraps and lets the entry expire
      earlier. It makes no difference whether the first segment came by copy or asked for a buffer. */
  lemma ExpiresExactly(r: Receiver, h: DatagramHeader, data: seq<byte>, loan: Loan, now: int, from: DeviceIndex, later: int)
    requires Closed(r) && loan.Granted? && h.serviceHash in r.channels && h.messageHash !in r.table
    requires |r.table| < MAX_SEGMENTED_MESSAGE_COUNT
    ensures var n := h.userHeaderSize + h.userPayloadSize;
            var due := now + 500 * (if n < TWO32 then n else n - TWO32);
            && (h.messageHash in Expired(LoanBuffer(r, h, loan, now).0, later) <==> later > due)
            && (h.submessageCount > 1 ==> (h.messageHash in Expired(Receive(r, h, data, loan, now, from), later) <==> later > due))
  {
    hide TakeNext;
  }

  /** The deadline of an entry is not put off, nor brought forward, by what happens to it. */
  lemma DeadlineKept(r: Receiver, x: Action, hash: Hash)
    requires Possible(r, x) && hash in r.table && hash in Effect(r, x).table
    ensures Effect(r, x).table[hash].deadline == r.table[hash].deadline
  {
    hide TakeNext;
  }

  predicate StaysIn(r: Receiver, xs: seq<Action>, s: Receiver, hash: Hash)
    requires Happens(r, xs, s)
    decreases |xs|
  {
    hash in r.table && (xs == [] || StaysIn(Effect(r, xs[0]), xs[1..], s, hash))
  }

  /** Over any run, for as long as the entry is there. */
  lemma {:induction false} DeadlineStays(r: Receiver, xs: seq<Action>, s: Receiver, hash: Hash)
    requires Happens(r, xs, s) && StaysIn(r, xs, s, hash)
    ensures hash in s.table && s.table[hash].deadline == r.table[hash].deadline
    decreases |xs|
  {
    hide Effect, Possible;
    if xs != [] {
      assert hash in Effect(r, xs[0]).table;
      DeadlineKept(r, xs[0], hash);
      DeadlineStays(Effect(r, xs[0]), xs[1..], s, hash);
    }
  }
}

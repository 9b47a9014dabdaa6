/** What keeps the end-to-end guarantee. Senders cut messages into datagrams; a network and DMA engines
    bring the segments to a receiver in any order, interleaved, with losses; the receiver's loans may
    fail, its entries may time out, its channels may close and open again. An invariant, kept by every
    careful event, says that whatever is published is a message that was sent, byte for byte, and no
    message twice. Here each chunk has memory of its own; runs, in which memory is loaned again, are
    those of MemoryPool. */
module EndToEnd {
  import opened Types
  import opened DataWriter
  import opened Reassembly
  import Serialization
  import Seqs

  /** A message and the payload size of the transport it is sent over. */
  datatype Shipment = Shipment(m: Message, max: uint32)
  {
    predicate Proper() {
      m.Valid() && max > 0 && CountFits(m, max) && OffsetsFit(m, max)
    }

    function Segs(): seq<Segment>
      requires max > 0
    {
      Segments(m, max)
    }

    function Header(i: nat): DatagramHeader
      requires m.Valid() && max > 0 && OffsetsFit(m, max) && i < |Segs()|
    {
      CutsAreGood(m, max, 0, i);
      HeaderOf(m, max, Segs()[i])
    }

    function Bytes(i: nat): seq<byte>
      requires m.Valid() && max > 0 && OffsetsFit(m, max) && i < |Segs()|
    {
      CutsAreGood(m, max, 0, i);
      Datagram(m, max, Segs()[i])
    }
  }

  /** A segment under way by DMA: the chunk it was given, and whether it is in place yet. */
  datatype Transfer = Transfer(chunk: ChunkId, written: bool)

  /** `used` are the segments that have reached this receiver in some way; since the network
      makes no duplicates, each does so at most once. */
  datatype World = World(
    sent: map<Hash, Shipment>,
    recv: Receiver,
    used: set<(Hash, nat)>,
    dma: map<(Hash, nat), Transfer>)
  {
    ghost predicate Proper() {
      forall h :: h in sent ==> sent[h].Proper() && sent[h].m.hash == h
    }
  }

  datatype Event =
    | Deliver(hash: Hash, i: nat, loan: Loan, now: int, from: DeviceIndex)
    | Request(hash: Hash, i: nat, loan: Loan, now: int)
    | Write(hash: Hash, i: nat)
    | Complete(hash: Hash, i: nat, from: DeviceIndex)
    | Abort(hash: Hash, i: nat, from: DeviceIndex)
    | Expire(hash: Hash, now: int)
    | ReleaseExpired(id: ChunkId)
    | Close(service: ClassHash)
    | Open(service: ClassHash)

  ghost predicate Sound(w: World) {
    Closed(w.recv) && w.Proper()
  }

  predicate IsSegment(w: World, h: Hash, i: nat)
    requires w.Proper()
  {
    h in w.sent && i < |w.sent[h].Segs()|
  }

  ghost predicate Enabled(w: World, e: Event) {
    Sound(w) &&
    match e
    case Deliver(h, i, loan, _, _) =>
      IsSegment(w, h, i) && (h, i) !in w.used && ValidLoan(w.recv, w.sent[h].Header(i), loan)
    case Request(h, i, loan, _) =>
      IsSegment(w, h, i) && (h, i) !in w.used && ValidLoan(w.recv, w.sent[h].Header(i), loan)
    case Write(h, i) =>
      IsSegment(w, h, i) && (h, i) in w.dma && !w.dma[(h, i)].written && w.dma[(h, i)].chunk in w.recv.chunks
    case Complete(h, i, _) => IsSegment(w, h, i) && (h, i) in w.dma && w.dma[(h, i)].written
    case Abort(h, i, _) => IsSegment(w, h, i) && (h, i) in w.dma
    case Expire(h, now) => h in w.recv.table && w.recv.table[h].deadline < now
    case ReleaseExpired(id) => id in w.recv.chunks && w.recv.chunks[id].owner == Detached
    case Close(_) => true
    case Open(_) => true
  }

  ghost function After(w: World, e: Event): World
    requires Enabled(w, e)
  {
    match e
    case Deliver(h, i, loan, now, from) =>
      var r := ReceiveBytes(w.recv, w.sent[h].Bytes(i), loan, now, from);
      w.(recv := if r.Some? then r.value else w.recv, used := w.used + {(h, i)})
    case Request(h, i, loan, now) =>
      var (r, buffer) := LoanBuffer(w.recv, w.sent[h].Header(i), loan, now);
      World(w.sent, r, w.used + {(h, i)},
            if buffer.Some? then w.dma[(h, i) := Transfer(buffer.value, false)] else w.dma)
    case Write(h, i) =>
      var t := w.dma[(h, i)];
      w.(recv := Copy(w.recv, t.chunk, w.sent[h].Header(i), w.sent[h].Segs()[i].data),
         dma := w.dma[(h, i) := t.(written := true)])
    case Complete(h, i, from) =>
      w.(recv := ReleaseBuffer(w.recv, w.sent[h].Header(i), false, from), dma := w.dma - {(h, i)})
    case Abort(h, i, from) =>
      w.(recv := ReleaseBuffer(w.recv, w.sent[h].Header(i), true, from), dma := w.dma - {(h, i)})
    case Expire(h, _) => w.(recv := Detach(w.recv, h))
    case ReleaseExpired(id) => w.(recv := GiveBack(w.recv, id))
    case Close(service) => w.(recv := CloseChannel(w.recv, service))
    case Open(service) => w.(recv := OpenChannel(w.recv, service))
  }

  // ---------- when a buffer may be taken away from the DMA engine ----------

  ghost predicate Finished(w: World, h: Hash, k: nat) {
    (h, k) in w.used && (h, k) !in w.dma
  }

  /** Giving up the entry of `h` cannot mislead the receiver later: no transfer for `h` is under
      way, or some segment of `h` is over and done with, or none is left to restart it. */
  ghost predicate Harmless(w: World, h: Hash)
    requires w.Proper()
  {
    || (forall k: nat :: (h, k) !in w.dma)
    || (exists k: nat :: IsSegment(w, h, k) && Finished(w, h, k))
    || (forall k: nat :: IsSegment(w, h, k) ==> (h, k) in w.used)
  }

  /** The event takes no buffer of an untouched message away from a transfer under way. Only
      timeouts, channel deletion and a full table at a buffer request can do so. What else a run must
      not do once memory is loaned again, MemoryPool.Careful says. */
  ghost predicate Careful(w: World, e: Event)
    requires Enabled(w, e)
  {
    match e
    case Expire(h, _) => Harmless(w, h)
    case Close(service) =>
      forall h :: h in w.recv.table && w.recv.table[h].service == service ==> Harmless(w, h)
    case Request(h, i, _, _) =>
      var w' := After(w, e);
      (h, i) in w'.dma && h !in w'.recv.table ==> Harmless(w', h)
    case _ => true
  }

  // ---------- the invariant ----------

  /** What the proof remembers: the message a chunk was loaned for, and the segments whose
      completion was counted while it was in the table. */
  datatype Aux = Aux(msgOf: map<ChunkId, Hash>, counted: map<ChunkId, set<nat>>)

  predicate InBuffer(buffer: seq<byte>, at: nat, data: seq<byte>) {
    at + |data| <= |buffer| && buffer[at..at + |data|] == data
  }

  predicate SegHolds(c: Chunk, m: Message, s: Segment) {
    if s.offset < |m.header| then InBuffer(c.userHeader, s.offset, s.data)
    else InBuffer(c.userPayload, s.offset - |m.header|, s.data)
  }

  predicate SizesOk(c: Chunk, m: Message) {
    |c.userHeader| == |m.header| && |c.userPayload| == |m.payload|
  }

  /** Chunk `id` was loaned for message `g`. */
  ghost predicate Mine(w: World, a: Aux, g: Hash, id: ChunkId) {
    id in w.recv.chunks && id in a.msgOf && id in a.counted && a.msgOf[id] == g
  }

  /** The segments counted for the chunk are in place. */
  ghost predicate Filled(w: World, a: Aux, g: Hash, id: ChunkId)
    requires w.Proper()
  {
    && g in w.sent && Mine(w, a, g, id)
    && forall i :: i in a.counted[id] && IsSegment(w, g, i) ==>
         SegHolds(w.recv.chunks[id], w.sent[g].m, w.sent[g].Segs()[i])
  }

  ghost predicate Whole(w: World, a: Aux, g: Hash, id: ChunkId)
    requires w.Proper()
  {
    && Filled(w, a, g, id)
    && forall i: nat :: IsSegment(w, g, i) ==> i in a.counted[id]
  }

  ghost predicate ChunkOk(w: World, a: Aux, g: Hash, id: ChunkId)
    requires w.Proper() && g in w.sent && Mine(w, a, g, id)
  {
    && SizesOk(w.recv.chunks[id], w.sent[g].m)
    && (forall i :: i in a.counted[id] ==> IsSegment(w, g, i) && Finished(w, g, i))
    && (w.recv.chunks[id].owner == Published ==> Whole(w, a, g, id))
  }

  /** The segment counter: what remains is the message's count less the completions counted,
      and never 0 in the table. */
  ghost predicate EntryOk(w: World, a: Aux, g: Hash)
    requires w.Proper() && g in w.sent && g in w.recv.table
  {
    var e := w.recv.table[g];
    && Mine(w, a, g, e.chunk)
    && e.service == w.sent[g].m.serviceHash
    && 1 <= e.remaining
    && e.remaining + |a.counted[e.chunk]| == |w.sent[g].Segs()|
  }

  ghost predicate TransferOk(w: World, a: Aux, g: Hash, i: nat)
    requires w.Proper() && (g, i) in w.dma
  {
    var t := w.dma[(g, i)];
    && IsSegment(w, g, i) && (g, i) in w.used
    && Mine(w, a, g, t.chunk)
    && i !in a.counted[t.chunk]
    && (t.written ==> SegHolds(w.recv.chunks[t.chunk], w.sent[g].m, w.sent[g].Segs()[i]))
  }

  /** What holds of message `g` whatever has become of it. */
  ghost predicate Facts(w: World, a: Aux, g: Hash)
    requires w.Proper() && g in w.sent
  {
    && (forall id :: Mine(w, a, g, id) ==> ChunkOk(w, a, g, id))
    && (forall i, j ::
          (Mine(w, a, g, i) && Mine(w, a, g, j)
           && w.recv.chunks[i].owner == Published == w.recv.chunks[j].owner) ==> i == j)
    && (g in w.recv.table ==> EntryOk(w, a, g))
    && (forall i: nat :: (g, i) in w.dma ==> TransferOk(w, a, g, i))
  }

  /** All transfers of `g` write into its current chunk, which holds all that was counted. */
  ghost predicate Healthy(w: World, a: Aux, g: Hash)
    requires w.Proper() && g in w.sent
  {
    && (forall k: nat :: (g, k) in w.dma ==> g in w.recv.table && w.dma[(g, k)].chunk == w.recv.table[g].chunk)
    && (g in w.recv.table ==> Filled(w, a, g, w.recv.table[g].chunk))
  }

  /** Segment `k` of `g` is over without being counted for the current entry. */
  ghost predicate LostSegment(w: World, a: Aux, g: Hash, k: nat)
    requires w.Proper() && g in w.sent
  {
    && IsSegment(w, g, k) && Finished(w, g, k)
    && (g in w.recv.table ==> Mine(w, a, g, w.recv.table[g].chunk) && k !in a.counted[w.recv.table[g].chunk])
  }

  ghost predicate Lost(w: World, a: Aux, g: Hash)
    requires w.Proper() && g in w.sent
  {
    exists k: nat :: LostSegment(w, a, g, k)
  }

  ghost predicate Exhausted(w: World, g: Hash)
    requires w.Proper() && g in w.sent
  {
    g !in w.recv.table && forall k: nat :: IsSegment(w, g, k) ==> (g, k) in w.used
  }

  ghost predicate Mode(w: World, a: Aux, g: Hash)
    requires w.Proper() && g in w.sent
  {
    Healthy(w, a, g) || Lost(w, a, g) || Exhausted(w, g)
  }

  ghost predicate Bookkeeping(w: World, a: Aux) {
    && w.Proper()
    && (forall id :: id in w.recv.chunks ==> id in a.msgOf && id in a.counted && a.msgOf[id] in w.sent)
    && (forall h :: h in w.recv.table ==> h in w.sent)
    && (forall h, i: nat :: (h, i) in w.dma ==> h in w.sent)
    && (forall k :: 0 <= k < |w.recv.published| ==>
          var p := w.recv.published[k];
          p.chunk in w.recv.chunks && p.service == w.sent[a.msgOf[p.chunk]].m.serviceHash)
  }

  ghost predicate InvBut(w: World, a: Aux, but: set<Hash>) {
    && Bookkeeping(w, a)
    && Conserved(w.recv)
    && (forall g :: g in w.sent ==> Facts(w, a, g))
    && (forall g :: g in w.sent && g !in but ==> Mode(w, a, g))
  }

  ghost predicate Inv(w: World, a: Aux) {
    InvBut(w, a, {})
  }

  // ---------- a step about one message leaves the others alone ----------

  ghost predicate Agree(w: World, a: Aux, w': World, a': Aux, g: Hash) {
    && (g in w.recv.table <==> g in w'.recv.table)
    && (g in w.recv.table ==> w.recv.table[g] == w'.recv.table[g])
    && (forall k: nat :: (g, k) in w.used <==> (g, k) in w'.used)
    && (forall k: nat :: (g, k) in w.dma <==> (g, k) in w'.dma)
    && (forall k: nat :: (g, k) in w.dma ==> w.dma[(g, k)] == w'.dma[(g, k)])
    && (forall id :: Mine(w, a, g, id) <==> Mine(w', a', g, id))
    && (forall id :: Mine(w, a, g, id) ==>
          w.recv.chunks[id] == w'.recv.chunks[id] && a.counted[id] == a'.counted[id])
  }

  lemma AgreeFacts(w: World, a: Aux, w': World, a': Aux, g: Hash)
    requires w.Proper() && g in w.sent && w'.sent == w.sent
    requires Agree(w, a, w', a', g) && Facts(w, a, g)
    ensures Facts(w', a', g)
  {
    hide Shipment.Segs, SegHolds, SizesOk;
    forall id | Mine(w', a', g, id) ensures ChunkOk(w', a', g, id) {
      assert ChunkOk(w, a, g, id);
    }
    forall i: nat | (g, i) in w'.dma ensures TransferOk(w', a', g, i) {
      assert TransferOk(w, a, g, i);
    }
  }

  lemma AgreeMode(w: World, a: Aux, w': World, a': Aux, g: Hash)
    requires w.Proper() && g in w.sent && w'.sent == w.sent
    requires Agree(w, a, w', a', g) && Facts(w, a, g) && Mode(w, a, g)
    ensures Mode(w', a', g)
  {
    hide Shipment.Segs, SegHolds, SizesOk;
    if Healthy(w, a, g) {
      assert Healthy(w', a', g);
    } else if Lost(w, a, g) {
      var k: nat :| LostSegment(w, a, g, k);
      assert LostSegment(w', a', g, k);
    }
  }

  /** The invariant after a step that concerns only message `h`. */
  lemma OthersAgree(w: World, a: Aux, w': World, a': Aux, h: Hash)
    requires InvBut(w, a, {h}) && w'.sent == w.sent
    requires Bookkeeping(w', a') && Conserved(w'.recv)
    requires forall g :: g in w.sent && g != h ==> Agree(w, a, w', a', g)
    requires h in w.sent ==> Facts(w', a', h)
    ensures InvBut(w', a', {h})
    ensures h in w.sent && Mode(w', a', h) ==> Inv(w', a')
  {
    hide Agree, Facts, Mode, Conserved, Bookkeeping;
    assert w.Proper() by { ProperBook(w, a); }
    forall g | g in w.sent && g != h ensures Facts(w', a', g) && Mode(w', a', g) {
      AgreeFacts(w, a, w', a', g);
      AgreeMode(w, a, w', a', g);
    }
  }

  lemma ProperBook(w: World, a: Aux)
    requires Bookkeeping(w, a)
    ensures w.Proper()
  {}

  // ---------- facts about one message's segments ----------

  lemma SegmentFacts(s: Shipment, i: nat)
    requires s.Proper() && i < |s.Segs()|
    ensures GoodSegment(s.m, s.max, s.Segs()[i])
    ensures var g := s.Segs()[i];
            && g.offset + |g.data| <= |s.m.header| + |s.m.payload|
            && (g.offset < |s.m.header| ==> g.offset + |g.data| <= |s.m.header|)
    ensures s.Header(i).messageHash == s.m.hash && s.Header(i).serviceHash == s.m.serviceHash
    ensures s.Header(i).submessageCount == |s.Segs()|
    ensures s.Header(i).submessageOffset == s.Segs()[i].offset
    ensures s.Header(i).userHeaderSize == |s.m.header| && s.Header(i).userPayloadSize == |s.m.payload|
  {
    CutsAreGood(s.m, s.max, 0, i);
    CountExact(s.m, s.max);
  }

  /** Two segments of a message do not overlap. */
  lemma SegmentsApart(s: Shipment, i: nat, j: nat)
    requires s.Proper() && i < |s.Segs()| && j < |s.Segs()| && i != j
    ensures var p, q := s.Segs()[i], s.Segs()[j];
            p.offset + |p.data| <= q.offset || q.offset + |q.data| <= p.offset
  {
    if i < j {
      CutsDisjoint(s.m, s.max, 0, i, j);
    } else {
      CutsDisjoint(s.m, s.max, 0, j, i);
    }
  }

  lemma PlaceAt(buffer: seq<byte>, at: nat, data: seq<byte>)
    requires at + |data| <= |buffer|
    ensures InBuffer(Place(buffer, at, data), at, data)
  {}

  lemma PlaceElsewhere(buffer: seq<byte>, at: nat, data: seq<byte>, at': nat, data': seq<byte>)
    requires InBuffer(buffer, at', data')
    requires at' + |data'| <= at || at + |data| <= at'
    ensures InBuffer(Place(buffer, at, data), at', data')
  {
    var r := Place(buffer, at, data);
    assert r[at'..at' + |data'|] == buffer[at'..at' + |data'|];
  }

  /** After the copy the segment is in place, inside the buffer. */
  lemma TakeNextPlaces(c: Chunk, s: Shipment, i: nat)
    requires s.Proper() && i < |s.Segs()| && SizesOk(c, s.m)
    ensures CopyInBounds(c, s.Header(i), s.Segs()[i].data)
    ensures SegHolds(TakeNext(c, s.Header(i), s.Segs()[i].data), s.m, s.Segs()[i])
  {
    hide Cuts, InBuffer, Place;
    SegmentFacts(s, i);
    var g := s.Segs()[i];
    if g.offset < |s.m.header| {
      PlaceAt(c.userHeader, g.offset, g.data);
    } else {
      PlaceAt(c.userPayload, g.offset - |s.m.header|, g.data);
    }
  }

  lemma TakeNextKeeps(c: Chunk, s: Shipment, i: nat, j: nat)
    requires s.Proper() && i < |s.Segs()| && j < |s.Segs()| && i != j && SizesOk(c, s.m)
    requires SegHolds(c, s.m, s.Segs()[j])
    ensures SegHolds(TakeNext(c, s.Header(i), s.Segs()[i].data), s.m, s.Segs()[j])
  {
    hide Place, InBuffer, GoodSegment, Shipment.Segs, Shipment.Header, Shipment.Proper, Message.Content;
    SegmentFacts(s, i);
    SegmentsApart(s, i, j);
    var p, q, h := s.Segs()[i], s.Segs()[j], |s.m.header|;
    if p.offset < h && q.offset < h {
      PlaceElsewhere(c.userHeader, p.offset, p.data, q.offset, q.data);
    } else if p.offset >= h && q.offset >= h {
      PlaceElsewhere(c.userPayload, p.offset - h, p.data, q.offset - h, q.data);
    }
  }

  /** The byte at position `p` of a chunk's user header followed by its user payload. */
  lemma ByteHeld(c: Chunk, s: Shipment, p: nat)
    requires s.Proper() && SizesOk(c, s.m) && p < |s.m.Content()|
    requires forall i :: 0 <= i < |s.Segs()| ==> SegHolds(c, s.m, s.Segs()[i])
    ensures (c.userHeader + c.userPayload)[p] == s.m.Content()[p]
  {
    hide Cuts, OffsetsFit, CountFits, HeaderOf;
    var h := |s.m.header|;
    var i := CutsCover(s.m, s.max, 0, p);
    SegmentFacts(s, i);
    var g := s.Segs()[i];
    assert SegHolds(c, s.m, g);
    assert g.data[p - g.offset] == s.m.Content()[p];
    if g.offset < h {
      assert c.userHeader[g.offset..g.offset + |g.data|][p - g.offset] == c.userHeader[p];
    } else {
      assert c.userPayload[g.offset - h..g.offset - h + |g.data|][p - g.offset] == c.userPayload[p - h];
    }
  }

  /** A chunk that holds every segment holds the message. */
  lemma AllSegmentsHeld(c: Chunk, s: Shipment)
    requires s.Proper() && SizesOk(c, s.m)
    requires forall i :: 0 <= i < |s.Segs()| ==> SegHolds(c, s.m, s.Segs()[i])
    ensures c.userHeader == s.m.header && c.userPayload == s.m.payload
  {
    hide Cuts, OffsetsFit, CountFits, SegHolds;
    forall p | 0 <= p < |s.m.Content()|
      ensures (c.userHeader + c.userPayload)[p] == s.m.Content()[p]
    {
      ByteHeld(c, s, p);
    }
    assert c.userHeader + c.userPayload == s.m.Content();
    Seqs.TakeDrop(c.userHeader, c.userPayload);
    Seqs.TakeDrop(s.m.header, s.m.payload);
  }

  /** What the receiver makes of a sent datagram: it takes it, or discards it as invalid when
      its length does not fit the 32-bit check. */
  lemma DatagramParses(r: Receiver, s: Shipment, i: nat, loan: Loan, now: int, from: DeviceIndex)
    requires Closed(r) && s.Proper() && i < |s.Segs()|
    ensures var t := ReceiveBytes(r, s.Bytes(i), loan, now, from);
            t == Some(r) || t == Some(Receive(r, s.Header(i), s.Segs()[i].data, loan, now, from))
  {
    hide Receive, Serialization.EncodeHeader, Serialization.DecodeHeader;
    Serialization.HeaderRoundTrip(s.Header(i), s.Segs()[i].data);
    Seqs.TakeDrop(Serialization.EncodeHeader(s.Header(i)), s.Segs()[i].data);
  }

  /** A sent datagram is taken exactly when its length is less than 2^32; a longer one is sent but
      fails the receiver's 32-bit length check. */
  lemma DatagramTakenExactly(r: Receiver, s: Shipment, i: nat, loan: Loan, now: int, from: DeviceIndex)
    requires Closed(r) && s.Proper() && i < |s.Segs()|
    ensures ReceiveBytes(r, s.Bytes(i), loan, now, from)
            == Some(if |s.Segs()[i].data| + 44 < TWO32 then Receive(r, s.Header(i), s.Segs()[i].data, loan, now, from) else r)
  {
    Serialization.HeaderRoundTrip(s.Header(i), s.Segs()[i].data);
    BytesSplit(s, i);
    LengthCheck(|s.Segs()[i].data|);
    hide Receive, Serialization.EncodeHeader, Serialization.DecodeHeader, Shipment.Segs, Wrap32, Cuts;
  }

  lemma BytesSplit(s: Shipment, i: nat)
    requires s.Proper() && i < |s.Segs()|
    ensures var bytes := s.Bytes(i);
            && bytes == Serialization.EncodeHeader(s.Header(i)) + s.Segs()[i].data
            && |bytes| == 44 + |s.Segs()[i].data| && bytes[44..] == s.Segs()[i].data
            && s.Header(i).submessageSize == |s.Segs()[i].data|
  {
    hide Serialization.EncodeHeader;
    Serialization.HeaderRoundTrip(s.Header(i), s.Segs()[i].data);
    Seqs.TakeDrop(Serialization.EncodeHeader(s.Header(i)), s.Segs()[i].data);
  }

  lemma LengthCheck(n: uint32)
    ensures Wrap32(n + 44) == n + 44 <==> n + 44 < TWO32
  {}

  // ---------- the steps of the proof ----------

  ghost function Placed(w: World, h: Hash, i: nat, id: ChunkId): World
    requires w.Proper() && IsSegment(w, h, i) && id in w.recv.chunks
  {
    w.(recv := Copy(w.recv, id, w.sent[h].Header(i), w.sent[h].Segs()[i].data))
  }

  /** What a copy of segment `i` of `h` into its chunk `id` does to segment `j` there. */
  lemma PlacedHolds(w: World, h: Hash, i: nat, id: ChunkId, j: nat)
    requires w.Proper() && IsSegment(w, h, i) && IsSegment(w, h, j)
    requires id in w.recv.chunks && SizesOk(w.recv.chunks[id], w.sent[h].m)
    ensures var s, c, c' := w.sent[h], w.recv.chunks[id], Placed(w, h, i, id).recv.chunks[id];
            && SizesOk(c', s.m) && c'.owner == c.owner
            && (j == i || SegHolds(c, s.m, s.Segs()[j]) ==> SegHolds(c', s.m, s.Segs()[j]))
  {
    hide Shipment.Segs, Shipment.Header, SegHolds;
    var s := w.sent[h];
    if i == j {
      TakeNextPlaces(w.recv.chunks[id], s, i);
    } else if SegHolds(w.recv.chunks[id], s.m, s.Segs()[j]) {
      TakeNextKeeps(w.recv.chunks[id], s, i, j);
    }
  }

  /** A copy of a segment that is not counted yet keeps what holds of its message. */
  lemma PlaceFacts(w: World, a: Aux, h: Hash, i: nat, id: ChunkId)
    requires w.Proper() && IsSegment(w, h, i)
    requires Facts(w, a, h) && Mine(w, a, h, id) && i !in a.counted[id]
    ensures Facts(Placed(w, h, i, id), a, h)
    ensures Healthy(w, a, h) ==> Healthy(Placed(w, h, i, id), a, h)
    ensures Lost(w, a, h) ==> Lost(Placed(w, h, i, id), a, h)
    ensures SegHolds(Placed(w, h, i, id).recv.chunks[id], w.sent[h].m, w.sent[h].Segs()[i])
  {
    hide Shipment.Segs, Shipment.Header, SegHolds, SizesOk, TakeNext;
    var w' := Placed(w, h, i, id);
    assert ChunkOk(w, a, h, id);
    PlacedHolds(w, h, i, id, i);
    forall c | Mine(w, a, h, c) ensures Mine(w', a, h, c) && (Filled(w, a, h, c) ==> Filled(w', a, h, c)) {
      if c == id && Filled(w, a, h, c) {
        forall j | j in a.counted[id] && IsSegment(w, h, j)
          ensures SegHolds(w'.recv.chunks[id], w.sent[h].m, w.sent[h].Segs()[j])
        {
          PlacedHolds(w, h, i, id, j);
        }
      }
    }
    forall c | Mine(w', a, h, c) ensures ChunkOk(w', a, h, c) {
      assert ChunkOk(w, a, h, c);
    }
    forall j: nat | (h, j) in w.dma ensures TransferOk(w', a, h, j) {
      assert TransferOk(w, a, h, j);
      PlacedHolds(w, h, i, id, j);
    }
    if Lost(w, a, h) {
      var k: nat :| LostSegment(w, a, h, k);
      assert LostSegment(w', a, h, k);
    }
  }

  lemma PlaceKeeps(w: World, a: Aux, h: Hash, i: nat, id: ChunkId)
    requires Inv(w, a) && IsSegment(w, h, i)
    requires Mine(w, a, h, id) && i !in a.counted[id]
    ensures Inv(Placed(w, h, i, id), a)
    ensures SegHolds(Placed(w, h, i, id).recv.chunks[id], w.sent[h].m, w.sent[h].Segs()[i])
  {
    hide Shipment.Segs, Shipment.Header, SegHolds, SizesOk, TakeNext, ConservedBut, Facts, Healthy, Lost;
    var w' := Placed(w, h, i, id);
    CopyConserves(w.recv, {}, id, w.sent[h].Header(i), w.sent[h].Segs()[i].data);
    PlaceFacts(w, a, h, i, id);
    forall g | g in w.sent && g != h ensures Agree(w, a, w', a, g) {
      PlaceAgrees(w, a, h, i, id, g);
    }
    hide Agree, Mode;
    assert Bookkeeping(w', a);
    OthersAgree(w, a, w', a, h);
  }

  lemma PlaceAgrees(w: World, a: Aux, h: Hash, i: nat, id: ChunkId, g: Hash)
    requires w.Proper() && IsSegment(w, h, i) && Mine(w, a, h, id) && g != h
    ensures Agree(w, a, Placed(w, h, i, id), a, g)
  {
    hide Shipment.Segs, Shipment.Header, TakeNext;
  }

  ghost function Finish(w: World, h: Hash, i: nat): World {
    w.(used := w.used + {(h, i)}, dma := w.dma - {(h, i)})
  }

  lemma NotCounted(w: World, a: Aux, h: Hash, i: nat)
    requires w.Proper() && IsSegment(w, h, i) && !Finished(w, h, i) && Facts(w, a, h)
    ensures forall id :: Mine(w, a, h, id) ==> i !in a.counted[id]
  {
    hide SizesOk, Whole;
    forall id | Mine(w, a, h, id) ensures i !in a.counted[id] {
      assert ChunkOk(w, a, h, id);
    }
  }

  /** Segment `i` of `h` is over; as long as it is not counted it is lost. */
  lemma FinishKeeps(w: World, a: Aux, h: Hash, i: nat)
    requires Inv(w, a) && IsSegment(w, h, i) && !Finished(w, h, i)
    ensures Inv(Finish(w, h, i), a)
  {
    hide Shipment.Segs, ConservedBut, Facts, Healthy;
    var w' := Finish(w, h, i);
    NotCounted(w, a, h, i);
    FinishFacts(w, a, h, i);
    EntryIsMine(w, a, h);
    assert LostSegment(w', a, h, i);
    forall g | g in w.sent && g != h ensures Agree(w, a, w', a, g) {}
    hide Agree, LostSegment;
    OthersAgree(w, a, w', a, h);
  }

  lemma EntryIsMine(w: World, a: Aux, h: Hash)
    requires w.Proper() && h in w.sent && Facts(w, a, h)
    ensures h in w.recv.table ==> Mine(w, a, h, w.recv.table[h].chunk)
  {}

  lemma FinishFacts(w: World, a: Aux, h: Hash, i: nat)
    requires w.Proper() && IsSegment(w, h, i) && Facts(w, a, h)
    ensures Facts(Finish(w, h, i), a, h)
  {
    hide Shipment.Segs, SegHolds, SizesOk;
    var w' := Finish(w, h, i);
    forall id | Mine(w', a, h, id) ensures ChunkOk(w', a, h, id) {
      assert ChunkOk(w, a, h, id);
    }
    forall j: nat | (h, j) in w'.dma ensures TransferOk(w', a, h, j) {
      assert TransferOk(w, a, h, j);
    }
  }

  /** What releasing operations do: entries disappear, chunks change hands, nothing else. */
  ghost predicate Releasing(w: World, w': World) {
    && w'.sent == w.sent && w'.used == w.used && w'.dma == w.dma
    && w'.recv.published == w.recv.published
    && (forall h :: h in w'.recv.table ==> h in w.recv.table && w'.recv.table[h] == w.recv.table[h])
    && w'.recv.chunks.Keys == w.recv.chunks.Keys
    && (forall id :: id in w.recv.chunks ==>
          && w'.recv.chunks[id].userHeader == w.recv.chunks[id].userHeader
          && w'.recv.chunks[id].userPayload == w.recv.chunks[id].userPayload
          && (w'.recv.chunks[id].owner == Published ==> w.recv.chunks[id].owner == Published))
  }

  lemma ReleasingFacts(w: World, a: Aux, w': World, g: Hash)
    requires w.Proper() && g in w.sent && Releasing(w, w') && Facts(w, a, g)
    ensures Facts(w', a, g)
  {
    hide Shipment.Segs, InBuffer;
    forall id | Mine(w', a, g, id) ensures ChunkOk(w', a, g, id) {
      assert ChunkOk(w, a, g, id);
    }
    forall i: nat | (g, i) in w'.dma ensures TransferOk(w', a, g, i) {
      assert TransferOk(w, a, g, i);
    }
  }

  lemma ReleasingMode(w: World, a: Aux, w': World, g: Hash)
    requires w.Proper() && g in w.sent && Releasing(w, w') && Facts(w, a, g) && Mode(w, a, g)
    requires g in w.recv.table && g !in w'.recv.table ==> Harmless(w, g)
    ensures Mode(w', a, g)
  {
    hide Shipment.Segs, InBuffer;
    if g in w.recv.table && g !in w'.recv.table {
      if k: nat :| IsSegment(w, g, k) && Finished(w, g, k) {
        assert LostSegment(w', a, g, k);
      } else if forall k: nat :: (g, k) !in w.dma {
        assert Healthy(w', a, g);
      } else {
        assert Exhausted(w', g);
      }
    } else if Healthy(w, a, g) {
      assert Healthy(w', a, g);
    } else if Lost(w, a, g) {
      var k: nat :| LostSegment(w, a, g, k);
      assert LostSegment(w', a, g, k);
    } else {
      assert Exhausted(w', g);
    }
  }

  lemma ReleasingKeeps(w: World, a: Aux, w': World)
    requires Inv(w, a) && Releasing(w, w') && Conserved(w'.recv)
    requires forall g :: g in w.recv.table && g !in w'.recv.table ==> Harmless(w, g)
    ensures Inv(w', a)
  {
    hide Facts, Mode, Harmless, ConservedBut;
    forall g | g in w.sent ensures Facts(w', a, g) && Mode(w', a, g) {
      ReleasingFacts(w, a, w', g);
      ReleasingMode(w, a, w', g);
    }
  }

  // ---------- counting a completed segment ----------

  ghost function Counted(w: World, h: Hash, from: DeviceIndex): World
    requires Closed(w.recv) && h in w.recv.table
  {
    w.(recv := CountDown(w.recv, h, w.recv.table[h].service, from))
  }

  ghost function CountedAux(w: World, a: Aux, h: Hash, i: nat): Aux
    requires h in w.recv.table && w.recv.table[h].chunk in a.counted
  {
    var id := w.recv.table[h].chunk;
    a.(counted := a.counted[id := a.counted[id] + {i}])
  }

  /** Segment `i` may be counted for the entry of `h`: it is over and not counted yet; and
      either all is well and it is in place, or some other segment is lost. */
  ghost predicate Ready(w: World, a: Aux, h: Hash, i: nat)
    requires w.Proper()
  {
    && IsSegment(w, h, i) && Finished(w, h, i)
    && h in w.recv.table && Facts(w, a, h)
    && (forall id :: Mine(w, a, h, id) ==> i !in a.counted[id])
    && (|| (Healthy(w, a, h) && SegHolds(w.recv.chunks[w.recv.table[h].chunk], w.sent[h].m, w.sent[h].Segs()[i]))
        || (exists k: nat :: k != i && LostSegment(w, a, h, k)))
  }

  lemma {:induction false} AllCounted(s: set<nat>, n: nat)
    requires forall i :: i in s ==> i < n
    ensures |s| <= n
    ensures |s| == n ==> forall i: nat :: i < n ==> i in s
  {
    if n > 0 {
      var t := s - {n - 1};
      AllCounted(t, n - 1);
      if n - 1 in s {
        assert s == t + {n - 1};
      } else {
        assert s == t;
      }
    } else {
      assert s == {};
    }
  }

  /** The counter says "last" exactly when every segment has been counted; then none is lost
      and the chunk is whole. */
  lemma LastCount(w: World, a: Aux, h: Hash, i: nat)
    requires w.Proper() && Ready(w, a, h, i)
    ensures var id := w.recv.table[h].chunk;
            var a' := CountedAux(w, a, h, i);
            && w.recv.table[h].remaining - 1 + |a'.counted[id]| == |w.sent[h].Segs()|
            && ((Healthy(w, a, h) && SegHolds(w.recv.chunks[id], w.sent[h].m, w.sent[h].Segs()[i]))
                ==> Filled(w, a', h, id))
            && (w.recv.table[h].remaining == 1 ==> Whole(w, a', h, id))
  {
    hide Shipment.Segs, SegHolds, SizesOk;
    var id := w.recv.table[h].chunk;
    var n := |w.sent[h].Segs()|;
    var a' := CountedAux(w, a, h, i);
    assert EntryOk(w, a, h);
    assert ChunkOk(w, a, h, id);
    AllCounted(a'.counted[id], n);
    assert |a'.counted[id]| == |a.counted[id]| + 1;
    if Healthy(w, a, h) && SegHolds(w.recv.chunks[id], w.sent[h].m, w.sent[h].Segs()[i]) {
      assert Filled(w, a', h, id);
    } else {
      var k: nat :| k != i && LostSegment(w, a, h, k);
      assert k !in a'.counted[id];
    }
  }

  /** Two chunks of a message cannot both have all its segments counted; so before the last
      count none is published. */
  lemma NonePublished(w: World, a: Aux, h: Hash, i: nat)
    requires w.Proper() && Ready(w, a, h, i)
    ensures forall id :: Mine(w, a, h, id) ==> w.recv.chunks[id].owner != Published
  {
    hide Shipment.Segs, Filled, SizesOk;
    forall id | Mine(w, a, h, id) ensures w.recv.chunks[id].owner != Published {
      assert ChunkOk(w, a, h, id);
    }
  }

  /** The chunk that was counted for, after the count. */
  lemma CountedChunk(w: World, a: Aux, h: Hash, i: nat, from: DeviceIndex)
    requires w.Proper() && Closed(w.recv) && Ready(w, a, h, i)
    ensures var id := w.recv.table[h].chunk;
            && Mine(Counted(w, h, from), CountedAux(w, a, h, i), h, id)
            && ChunkOk(Counted(w, h, from), CountedAux(w, a, h, i), h, id)
            && (Filled(w, CountedAux(w, a, h, i), h, id)
                ==> Filled(Counted(w, h, from), CountedAux(w, a, h, i), h, id))
  {
    hide Shipment.Segs, InBuffer;
    var id := w.recv.table[h].chunk;
    var w', a' := Counted(w, h, from), CountedAux(w, a, h, i);
    LastCount(w, a, h, i);
    assert EntryOk(w, a, h);
    assert ChunkOk(w, a, h, id);
    if Completes(w.recv, h) {
      assert Whole(w', a', h, id);
    } else {
      NonePublished(w, a, h, i);
    }
  }

  lemma CountFacts(w: World, a: Aux, h: Hash, i: nat, from: DeviceIndex)
    requires w.Proper() && Closed(w.recv) && Ready(w, a, h, i)
    ensures w.recv.table[h].chunk in a.counted
    ensures Facts(Counted(w, h, from), CountedAux(w, a, h, i), h)
  {
    hide Shipment.Segs, SegHolds, SizesOk, Filled, Healthy;
    var id := w.recv.table[h].chunk;
    var w', a' := Counted(w, h, from), CountedAux(w, a, h, i);
    LastCount(w, a, h, i);
    NonePublished(w, a, h, i);
    CountedChunk(w, a, h, i, from);
    assert EntryOk(w, a, h);
    forall c | Mine(w', a', h, c) ensures ChunkOk(w', a', h, c) {
      if c != id {
        assert ChunkOk(w, a, h, c);
      }
    }
    forall j: nat | (h, j) in w'.dma ensures TransferOk(w', a', h, j) {
      assert TransferOk(w, a, h, j);
    }
  }

  lemma CountMode(w: World, a: Aux, h: Hash, i: nat, from: DeviceIndex)
    requires w.Proper() && Closed(w.recv) && Ready(w, a, h, i)
    ensures w.recv.table[h].chunk in a.counted
    ensures Mode(Counted(w, h, from), CountedAux(w, a, h, i), h)
  {
    hide Shipment.Segs, SegHolds, SizesOk;
    var id := w.recv.table[h].chunk;
    var w', a' := Counted(w, h, from), CountedAux(w, a, h, i);
    LastCount(w, a, h, i);
    CountedChunk(w, a, h, i, from);
    assert EntryOk(w, a, h);
    if Completes(w.recv, h) {
      assert ChunkOk(w', a', h, id);
      assert Exhausted(w', h);
    } else if k: nat :| k != i && LostSegment(w, a, h, k) {
      assert LostSegment(w', a', h, k);
    } else {
      assert Healthy(w', a', h);
    }
  }

  lemma CountConserves(w: World, h: Hash, from: DeviceIndex)
    requires Conserved(w.recv) && h in w.recv.table
    ensures Closed(w.recv) && Conserved(Counted(w, h, from).recv)
    ensures Counted(w, h, from).sent == w.sent
  {
    hide EntriesOwn, HeldHasEntry, GivenUpOnce, PublishedOnce;
    CountDownConserves(w.recv, h, w.recv.table[h].service, from);
  }

  lemma CountAgrees(w: World, a: Aux, h: Hash, i: nat, from: DeviceIndex, g: Hash)
    requires w.Proper() && Closed(w.recv) && Ready(w, a, h, i) && g != h
    ensures w.recv.table[h].chunk in a.counted
    ensures Agree(w, a, Counted(w, h, from), CountedAux(w, a, h, i), g)
  {
    hide Shipment.Segs, SegHolds;
    assert EntryOk(w, a, h);
  }

  lemma CountBook(w: World, a: Aux, h: Hash, i: nat, from: DeviceIndex)
    requires Bookkeeping(w, a) && Closed(w.recv) && Ready(w, a, h, i)
    ensures w.recv.table[h].chunk in a.counted
    ensures Bookkeeping(Counted(w, h, from), CountedAux(w, a, h, i))
  {
    hide Shipment.Segs, SegHolds;
    assert EntryOk(w, a, h);
    var w' := Counted(w, h, from);
    forall k | 0 <= k < |w'.recv.published|
      ensures w'.recv.published[k].chunk in w'.recv.chunks
              && w'.recv.published[k].service == w.sent[a.msgOf[w'.recv.published[k].chunk]].m.serviceHash
    {
      if k < |w.recv.published| {
        assert w'.recv.published[k] == w.recv.published[k];
      }
    }
  }

  lemma ReadyFacts(w: World, a: Aux, h: Hash, i: nat)
    requires w.Proper() && Ready(w, a, h, i)
    ensures h in w.recv.table
  {}

  lemma CountKeeps(w: World, a: Aux, h: Hash, i: nat, from: DeviceIndex)
    requires Inv(w, a) && Ready(w, a, h, i)
    ensures Closed(w.recv) && h in w.recv.table && w.recv.table[h].chunk in a.counted
    ensures Inv(Counted(w, h, from), CountedAux(w, a, h, i))
  {
    hide Ready, Agree, Facts, Mode, Bookkeeping, ConservedBut, Counted, CountedAux;
    ProperBook(w, a);
    ReadyFacts(w, a, h, i);
    CountConserves(w, h, from);
    CountBook(w, a, h, i, from);
    CountFacts(w, a, h, i, from);
    CountMode(w, a, h, i, from);
    forall g | g in w.sent && g != h
      ensures Agree(w, a, Counted(w, h, from), CountedAux(w, a, h, i), g)
    {
      CountAgrees(w, a, h, i, from, g);
    }
    OthersAgree(w, a, Counted(w, h, from), CountedAux(w, a, h, i), h);
  }

  // ---------- new entries and new transfers ----------

  ghost function Admit(w: World, h: Hash, i: nat, loan: Loan, now: int): World
    requires w.Proper() && IsSegment(w, h, i) && loan.Granted?
  {
    w.(recv := Admitted(w.recv, w.sent[h].Header(i), loan, now))
  }

  ghost function AdmittedAux(a: Aux, h: Hash, id: ChunkId): Aux {
    Aux(a.msgOf[id := h], a.counted[id := {}])
  }

  lemma AdmitFacts(w: World, a: Aux, h: Hash, i: nat, loan: Loan, now: int)
    requires Bookkeeping(w, a) && IsSegment(w, h, i) && Facts(w, a, h)
    requires loan.Granted? && ValidLoan(w.recv, w.sent[h].Header(i), loan)
    ensures Facts(Admit(w, h, i, loan, now), AdmittedAux(a, h, loan.id), h)
  {
    hide InBuffer;
    var w', a' := Admit(w, h, i, loan, now), AdmittedAux(a, h, loan.id);
    SegmentFacts(w.sent[h], i);
    hide Shipment.Segs, Shipment.Header;
    forall c | Mine(w', a', h, c) ensures ChunkOk(w', a', h, c) {
      if c != loan.id {
        assert ChunkOk(w, a, h, c);
      }
    }
    forall j: nat | (h, j) in w'.dma ensures TransferOk(w', a', h, j) {
      assert TransferOk(w, a, h, j);
    }
  }

  lemma AdmitMode(w: World, a: Aux, h: Hash, i: nat, loan: Loan, now: int)
    requires Bookkeeping(w, a) && IsSegment(w, h, i) && (h, i) !in w.used && h !in w.recv.table
    requires Mode(w, a, h) && loan.Granted? && loan.id !in w.recv.chunks
    ensures Mode(Admit(w, h, i, loan, now), AdmittedAux(a, h, loan.id), h)
  {
    SegmentFacts(w.sent[h], i);
    hide Shipment.Segs, Shipment.Header, SegHolds;
    var w', a' := Admit(w, h, i, loan, now), AdmittedAux(a, h, loan.id);
    if Healthy(w, a, h) {
      assert Healthy(w', a', h);
    } else if k: nat :| LostSegment(w, a, h, k) {
      assert LostSegment(w', a', h, k);
    }
  }

  lemma AdmitAgrees(w: World, a: Aux, h: Hash, i: nat, loan: Loan, now: int, g: Hash)
    requires w.Proper() && IsSegment(w, h, i) && g != h && loan.Granted? && loan.id !in w.recv.chunks
    ensures Agree(w, a, Admit(w, h, i, loan, now), AdmittedAux(a, h, loan.id), g)
  {
    SegmentFacts(w.sent[h], i);
    hide Shipment.Segs, Shipment.Header;
  }

  lemma AdmitBook(w: World, a: Aux, h: Hash, i: nat, loan: Loan, now: int)
    requires Bookkeeping(w, a) && IsSegment(w, h, i) && loan.Granted? && loan.id !in w.recv.chunks
    ensures Bookkeeping(Admit(w, h, i, loan, now), AdmittedAux(a, h, loan.id))
  {
    SegmentFacts(w.sent[h], i);
    hide Shipment.Segs, Shipment.Header;
  }

  lemma AdmitConserved(w: World, h: Hash, i: nat, loan: Loan, now: int)
    requires w.Proper() && IsSegment(w, h, i) && Conserved(w.recv) && h !in w.recv.table
    requires loan.Granted? && ValidLoan(w.recv, w.sent[h].Header(i), loan)
    requires w.sent[h].m.serviceHash in w.recv.channels
    ensures Conserved(Admit(w, h, i, loan, now).recv)
    ensures Admit(w, h, i, loan, now).sent == w.sent
  {
    SegmentFacts(w.sent[h], i);
    hide EntriesOwn, HeldHasEntry, GivenUpOnce, PublishedOnce, Shipment.Segs, Shipment.Header;
    GrantConserves(w.recv, w.sent[h].Header(i), loan);
    var w' := Admit(w, h, i, loan, now);
    AdmitConserves(w.recv.(chunks := w.recv.chunks[loan.id := NewChunk(loan)]), h, w'.recv.table[h]);
  }

  /** A fresh entry for `h`, with nothing counted yet. */
  lemma AdmitKeeps(w: World, a: Aux, h: Hash, i: nat, loan: Loan, now: int)
    requires Inv(w, a) && IsSegment(w, h, i) && (h, i) !in w.used && h !in w.recv.table
    requires loan.Granted? && ValidLoan(w.recv, w.sent[h].Header(i), loan)
    requires w.sent[h].m.serviceHash in w.recv.channels
    ensures Inv(Admit(w, h, i, loan, now), AdmittedAux(a, h, loan.id))
  {
    hide Agree, Facts, Mode, Bookkeeping, ConservedBut, Admit, AdmittedAux, Shipment.Header, Shipment.Segs;
    ProperBook(w, a);
    AdmitConserved(w, h, i, loan, now);
    AdmitBook(w, a, h, i, loan, now);
    AdmitFacts(w, a, h, i, loan, now);
    AdmitMode(w, a, h, i, loan, now);
    forall g | g in w.sent && g != h
      ensures Agree(w, a, Admit(w, h, i, loan, now), AdmittedAux(a, h, loan.id), g)
    {
      AdmitAgrees(w, a, h, i, loan, now, g);
    }
    OthersAgree(w, a, Admit(w, h, i, loan, now), AdmittedAux(a, h, loan.id), h);
  }

  /** Segment `i` is handed the chunk of its message's entry, to be written by DMA. */
  ghost function Asked(w: World, h: Hash, i: nat): World
    requires h in w.recv.table
  {
    w.(used := w.used + {(h, i)}, dma := w.dma[(h, i) := Transfer(w.recv.table[h].chunk, false)])
  }

  lemma AskFacts(w: World, a: Aux, h: Hash, i: nat)
    requires w.Proper() && IsSegment(w, h, i) && (h, i) !in w.used && h in w.recv.table
    requires Facts(w, a, h) && Mode(w, a, h)
    ensures Facts(Asked(w, h, i), a, h) && Mode(Asked(w, h, i), a, h)
  {
    hide Shipment.Segs, SegHolds, SizesOk;
    var w' := Asked(w, h, i);
    NotCounted(w, a, h, i);
    assert EntryOk(w, a, h);
    forall c | Mine(w', a, h, c) ensures ChunkOk(w', a, h, c) {
      assert ChunkOk(w, a, h, c);
    }
    forall j: nat | (h, j) in w'.dma ensures TransferOk(w', a, h, j) {
      if j != i {
        assert TransferOk(w, a, h, j);
      }
    }
    if Healthy(w, a, h) {
      assert Healthy(w', a, h);
    } else {
      var k: nat :| LostSegment(w, a, h, k);
      assert LostSegment(w', a, h, k);
    }
  }

  lemma AskKeeps(w: World, a: Aux, h: Hash, i: nat)
    requires Inv(w, a) && IsSegment(w, h, i) && (h, i) !in w.used && h in w.recv.table
    ensures Inv(Asked(w, h, i), a)
  {
    hide Shipment.Segs, Facts, Mode, ConservedBut;
    AskFacts(w, a, h, i);
    forall g | g in w.sent && g != h ensures Agree(w, a, Asked(w, h, i), a, g) {}
    hide Agree;
    OthersAgree(w, a, Asked(w, h, i), a, h);
  }

  /** The DMA engine has put segment `i` in place. */
  ghost function Marked(w: World, h: Hash, i: nat): World
    requires (h, i) in w.dma
  {
    w.(dma := w.dma[(h, i) := w.dma[(h, i)].(written := true)])
  }

  lemma MarkFacts(w: World, a: Aux, h: Hash, i: nat)
    requires w.Proper() && IsSegment(w, h, i) && (h, i) in w.dma && w.dma[(h, i)].chunk in w.recv.chunks
    requires SegHolds(w.recv.chunks[w.dma[(h, i)].chunk], w.sent[h].m, w.sent[h].Segs()[i])
    requires Facts(w, a, h) && Mode(w, a, h)
    ensures Facts(Marked(w, h, i), a, h) && Mode(Marked(w, h, i), a, h)
  {
    hide Shipment.Segs, SegHolds, SizesOk;
    var w' := Marked(w, h, i);
    forall c | Mine(w', a, h, c) ensures ChunkOk(w', a, h, c) {
      assert ChunkOk(w, a, h, c);
    }
    forall j: nat | (h, j) in w'.dma ensures TransferOk(w', a, h, j) {
      assert TransferOk(w, a, h, j);
    }
    if Healthy(w, a, h) {
      assert Healthy(w', a, h);
    } else if k: nat :| LostSegment(w, a, h, k) {
      assert LostSegment(w', a, h, k);
    }
  }

  lemma MarkKeeps(w: World, a: Aux, h: Hash, i: nat)
    requires Inv(w, a) && IsSegment(w, h, i) && (h, i) in w.dma && w.dma[(h, i)].chunk in w.recv.chunks
    requires SegHolds(w.recv.chunks[w.dma[(h, i)].chunk], w.sent[h].m, w.sent[h].Segs()[i])
    ensures Inv(Marked(w, h, i), a)
  {
    hide Shipment.Segs, SegHolds, Facts, Mode, ConservedBut;
    MarkFacts(w, a, h, i);
    forall g | g in w.sent && g != h ensures Agree(w, a, Marked(w, h, i), a, g) {}
    hide Agree;
    OthersAgree(w, a, Marked(w, h, i), a, h);
  }

  // ---------- the events ----------

  /** Segment `i` goes straight into the chunk of its message's entry and is counted. */
  ghost function Stored(w: World, h: Hash, i: nat, from: DeviceIndex): World
    requires Sound(w) && IsSegment(w, h, i) && h in w.recv.table
  {
    Counted(Finish(Placed(w, h, i, w.recv.table[h].chunk), h, i), h, from)
  }

  /** A segment in place that is over is ready to be counted. */
  lemma FinishReady(w: World, a: Aux, h: Hash, i: nat)
    requires Inv(w, a) && IsSegment(w, h, i) && !Finished(w, h, i) && h in w.recv.table
    requires w.recv.table[h].chunk in w.recv.chunks
    requires Healthy(w, a, h) ==>
               SegHolds(w.recv.chunks[w.recv.table[h].chunk], w.sent[h].m, w.sent[h].Segs()[i])
    ensures Inv(Finish(w, h, i), a) && Ready(Finish(w, h, i), a, h, i)
  {
    hide Shipment.Segs, SegHolds, ConservedBut, ChunkOk, LostSegment, Filled, EntryOk, TransferOk;
    NotCounted(w, a, h, i);
    FinishKeeps(w, a, h, i);
    LostOther(w, a, h, i);
  }

  lemma LostOther(w: World, a: Aux, h: Hash, i: nat)
    requires w.Proper() && IsSegment(w, h, i) && !Finished(w, h, i) && Mode(w, a, h) && h in w.recv.table
    ensures !Healthy(w, a, h) ==> exists k: nat :: k != i && LostSegment(Finish(w, h, i), a, h, k)
    ensures Healthy(w, a, h) ==> Healthy(Finish(w, h, i), a, h)
  {
    hide Shipment.Segs, SegHolds;
    if !Healthy(w, a, h) {
      var k: nat :| LostSegment(w, a, h, k);
      assert LostSegment(Finish(w, h, i), a, h, k);
    }
  }

  lemma StoreReady(w: World, a: Aux, h: Hash, i: nat)
    requires Inv(w, a) && IsSegment(w, h, i) && (h, i) !in w.used && h in w.recv.table
    ensures Sound(w)
    ensures var w2 := Finish(Placed(w, h, i, w.recv.table[h].chunk), h, i);
            Inv(w2, a) && Ready(w2, a, h, i)
  {
    hide Shipment.Segs, Shipment.Header, SegHolds, TakeNext, ConservedBut, Facts, Healthy, Ready, Mode;
    InvSound(w, a);
    NotCounted(w, a, h, i);
    EntryIsMine(w, a, h);
    PlaceKeeps(w, a, h, i, w.recv.table[h].chunk);
    FinishReady(Placed(w, h, i, w.recv.table[h].chunk), a, h, i);
  }

  lemma InvSound(w: World, a: Aux)
    requires Inv(w, a)
    ensures Sound(w)
  {
    EntriesKnown(w.recv, {});
  }

  lemma StoreKeeps(w: World, a: Aux, h: Hash, i: nat, from: DeviceIndex) returns (a': Aux)
    requires Inv(w, a) && IsSegment(w, h, i) && (h, i) !in w.used && h in w.recv.table
    ensures Sound(w) && Inv(Stored(w, h, i, from), a') && a'.msgOf == a.msgOf
  {
    hide Inv, Ready, Finish, Placed;
    InvSound(w, a);
    StoreReady(w, a, h, i);
    var w2 := Finish(Placed(w, h, i, w.recv.table[h].chunk), h, i);
    CountKeeps(w2, a, h, i, from);
    a' := CountedAux(w2, a, h, i);
  }

  /** What `receive` does with a segment whose message has an entry. */
  lemma ReceiveStores(w: World, a: Aux, h: Hash, i: nat, loan: Loan, now: int, from: DeviceIndex)
    requires Inv(w, a) && IsSegment(w, h, i) && (h, i) !in w.used && h in w.recv.table
    ensures Sound(w)
    ensures Stored(w, h, i, from)
            == Finish(w, h, i).(recv := Receive(w.recv, w.sent[h].Header(i), w.sent[h].Segs()[i].data, loan, now, from))
  {
    InvSound(w, a);
    SegmentFacts(w.sent[h], i);
    assert EntryOk(w, a, h);
    assert w.sent[h].m.serviceHash in w.recv.channels;
    hide Shipment.Segs, Shipment.Header, CountDown, TakeNext, HeldHasEntry, GivenUpOnce, PublishedOnce;
  }

  /** What `receive` does with the first segment of a message, when there is room for an entry
      or none is needed. */
  lemma ReceiveAdmits(w: World, h: Hash, i: nat, loan: Loan, now: int, from: DeviceIndex)
    requires Sound(w) && IsSegment(w, h, i) && h !in w.recv.table && loan.Granted?
    requires w.sent[h].m.serviceHash in w.recv.channels
    requires |w.sent[h].Segs()| > 1 ==> |w.recv.table| < MAX_SEGMENTED_MESSAGE_COUNT
    ensures var w1 := Admit(w, h, i, loan, now);
            && Sound(w1) && h in w1.recv.table
            && Stored(w1, h, i, from)
               == Finish(w, h, i).(recv := Receive(w.recv, w.sent[h].Header(i), w.sent[h].Segs()[i].data, loan, now, from))
  {
    hide Shipment.Segs, Shipment.Header, CountDown, TakeNext, Receive;
    SegmentFacts(w.sent[h], i);
    FirstSegment(w.recv, w.sent[h].Header(i), w.sent[h].Segs()[i].data, loan, now, from);
  }

  /** What `receive` does with the first segment of a longer message when the table is full:
      the chunk is released at once and the segment is lost. */
  lemma ReceiveDrops(w: World, h: Hash, i: nat, loan: Loan, now: int, from: DeviceIndex)
    requires Sound(w) && IsSegment(w, h, i) && h !in w.recv.table && loan.Granted?
    requires w.sent[h].m.serviceHash in w.recv.channels
    requires |w.sent[h].Segs()| > 1 && |w.recv.table| >= MAX_SEGMENTED_MESSAGE_COUNT
    ensures var w1 := Finish(Placed(Admit(w, h, i, loan, now), h, i, loan.id), h, i);
            Releasing(w1, Finish(w, h, i).(recv :=
              Receive(w.recv, w.sent[h].Header(i), w.sent[h].Segs()[i].data, loan, now, from)))
  {
    hide Shipment.Segs, Shipment.Header, Place;
    SegmentFacts(w.sent[h], i);
  }

  lemma DropKeeps(w: World, a: Aux, h: Hash, i: nat, loan: Loan, now: int, from: DeviceIndex) returns (a': Aux)
    requires Inv(w, a) && IsSegment(w, h, i) && (h, i) !in w.used && h !in w.recv.table && loan.Granted?
    requires ValidLoan(w.recv, w.sent[h].Header(i), loan)
    requires w.sent[h].m.serviceHash in w.recv.channels
    requires |w.sent[h].Segs()| > 1 && |w.recv.table| >= MAX_SEGMENTED_MESSAGE_COUNT
    ensures Sound(w)
    ensures Inv(Finish(w, h, i).(recv :=
              Receive(w.recv, w.sent[h].Header(i), w.sent[h].Segs()[i].data, loan, now, from)), a')
    ensures a'.msgOf == a.msgOf[loan.id := h]
  {
    hide InvBut, Shipment.Segs, Shipment.Header, TakeNext, Receive, Releasing, ConservedBut;
    InvSound(w, a);
    AdmitKeeps(w, a, h, i, loan, now);
    a' := AdmittedAux(a, h, loan.id);
    var w1 := Admit(w, h, i, loan, now);
    SegmentFacts(w.sent[h], i);
    PlaceKeeps(w1, a', h, i, loan.id);
    var w2 := Placed(w1, h, i, loan.id);
    FinishKeeps(w2, a', h, i);
    var w3 := Finish(w2, h, i);
    ReceiveDrops(w, h, i, loan, now, from);
    InvConserved(w, a);
    ReceiveConserves(w.recv, w.sent[h].Header(i), w.sent[h].Segs()[i].data, loan, now, from);
    assert Finished(w3, h, i);
    OnlyOneGone(w, a, h, i, loan, now, from);
    ReleasingKeeps(w3, a', Finish(w, h, i).(recv :=
      Receive(w.recv, w.sent[h].Header(i), w.sent[h].Segs()[i].data, loan, now, from)));
  }

  lemma OnlyOneGone(w: World, a: Aux, h: Hash, i: nat, loan: Loan, now: int, from: DeviceIndex)
    requires Sound(w) && IsSegment(w, h, i) && h !in w.recv.table && loan.Granted?
    requires w.sent[h].m.serviceHash in w.recv.channels
    requires |w.sent[h].Segs()| > 1 && |w.recv.table| >= MAX_SEGMENTED_MESSAGE_COUNT
    ensures var r := Receive(w.recv, w.sent[h].Header(i), w.sent[h].Segs()[i].data, loan, now, from);
            forall g :: g in Admit(w, h, i, loan, now).recv.table && g !in r.table ==> g == h
  {
    hide Shipment.Segs, Shipment.Header, TakeNext;
    SegmentFacts(w.sent[h], i);
  }

  lemma InvConserved(w: World, a: Aux)
    requires Inv(w, a)
    ensures Conserved(w.recv) && Bookkeeping(w, a)
  {}

  lemma ServiceOpen(w: World, a: Aux, h: Hash)
    requires Inv(w, a) && h in w.recv.table
    ensures h in w.sent && w.sent[h].m.serviceHash in w.recv.channels
  {
    assert EntryOk(w, a, h);
  }

  lemma DeliverKeeps(w: World, a: Aux, e: Event) returns (a': Aux)
    requires Inv(w, a) && e.Deliver? && Enabled(w, e)
    ensures Inv(After(w, e), a') && Names(w, a, e, a')
  {
    hide InvBut, Shipment.Segs, Shipment.Header, Receive, ReceiveBytes, TakeNext, Stored, Admit, Releasing;
    var h, i, loan, now, from := e.hash, e.i, e.loan, e.now, e.from;
    var s := w.sent[h];
    DatagramParses(w.recv, s, i, loan, now, from);
    var r := Receive(w.recv, s.Header(i), s.Segs()[i].data, loan, now, from);
    var w' := After(w, e);
    NoTransfer(w, a, h, i);
    assert w' == Finish(w, h, i) || w' == Finish(w, h, i).(recv := r);
    if w' == Finish(w, h, i) {
      FinishKeeps(w, a, h, i);
      a' := a;
    } else if h in w.recv.table {
      ReceiveStores(w, a, h, i, loan, now, from);
      a' := StoreKeeps(w, a, h, i, from);
    } else {
      a' := StartKeeps(w, a, h, i, loan, now, from);
    }
  }

  lemma NoTransfer(w: World, a: Aux, h: Hash, i: nat)
    requires Inv(w, a) && (h, i) !in w.used
    ensures (h, i) !in w.dma
  {
    assert (h, i) in w.dma ==> TransferOk(w, a, h, i);
  }

  lemma StartKeeps(w: World, a: Aux, h: Hash, i: nat, loan: Loan, now: int, from: DeviceIndex) returns (a': Aux)
    requires Inv(w, a) && IsSegment(w, h, i) && (h, i) !in w.used && h !in w.recv.table
    requires ValidLoan(w.recv, w.sent[h].Header(i), loan)
    ensures Sound(w)
    ensures Inv(Finish(w, h, i).(recv :=
              Receive(w.recv, w.sent[h].Header(i), w.sent[h].Segs()[i].data, loan, now, from)), a')
    ensures if loan.Granted? && a'.msgOf == a.msgOf[loan.id := h] then true
            else a'.msgOf == a.msgOf
                 && Receive(w.recv, w.sent[h].Header(i), w.sent[h].Segs()[i].data, loan, now, from) == w.recv
  {
    hide InvBut, Shipment.Segs, Shipment.Header, TakeNext, Stored, Admit, Releasing;
    InvSound(w, a);
    SegmentFacts(w.sent[h], i);
    if w.sent[h].m.serviceHash !in w.recv.channels || loan.Refused? {
      FinishKeeps(w, a, h, i);
      a' := a;
    } else if |w.sent[h].Segs()| > 1 && |w.recv.table| >= MAX_SEGMENTED_MESSAGE_COUNT {
      a' := DropKeeps(w, a, h, i, loan, now, from);
    } else {
      AdmitKeeps(w, a, h, i, loan, now);
      ReceiveAdmits(w, h, i, loan, now, from);
      AdmitSame(w, h, i, loan, now);
      a' := StoreKeeps(Admit(w, h, i, loan, now), AdmittedAux(a, h, loan.id), h, i, from);
    }
  }

  lemma AdmitSame(w: World, h: Hash, i: nat, loan: Loan, now: int)
    requires w.Proper() && IsSegment(w, h, i) && loan.Granted?
    ensures Admit(w, h, i, loan, now).sent == w.sent && Admit(w, h, i, loan, now).used == w.used
  {}

  lemma RequestKeeps(w: World, a: Aux, e: Event) returns (a': Aux)
    requires Inv(w, a) && e.Request? && Enabled(w, e) && Careful(w, e)
    ensures Inv(After(w, e), a') && Names(w, a, e, a')
  {
    hide InvBut, Shipment.Segs, Shipment.Header, Releasing, Harmless, Push;
    var h, i, loan, now := e.hash, e.i, e.loan, e.now;
    NoTransfer(w, a, h, i);
    SegmentFacts(w.sent[h], i);
    var (r, buffer) := LoanBuffer(w.recv, w.sent[h].Header(i), loan, now);
    a' := a;
    if buffer.None? {
      assert After(w, e) == Finish(w, h, i);
      FinishKeeps(w, a, h, i);
    } else if h in w.recv.table {
      assert After(w, e) == Asked(w, h, i);
      AskKeeps(w, a, h, i);
    } else {
      a' := AdmittedAux(a, h, loan.id);
      AdmitKeeps(w, a, h, i, loan, now);
      var w1 := Admit(w, h, i, loan, now);
      AskKeeps(w1, a', h, i);
      PushAfterLoan(w, h, i, loan, now);
      if |w.recv.table| >= MAX_SEGMENTED_MESSAGE_COUNT {
        InvConserved(w, a);
        LoanBufferConserves(w.recv, w.sent[h].Header(i), loan, now);
        SameHarmless(After(w, e), Asked(w1, h, i), h);
        ReleasingKeeps(Asked(w1, h, i), a', After(w, e));
      }
    }
  }

  lemma SameHarmless(v: World, w: World, h: Hash)
    requires v.Proper() && v.sent == w.sent && v.used == w.used && v.dma == w.dma && Harmless(v, h)
    ensures Harmless(w, h)
  {
    hide Shipment.Segs;
    if k: nat :| IsSegment(v, h, k) && Finished(v, h, k) {
      assert IsSegment(w, h, k) && Finished(w, h, k);
    } else if forall k: nat :: IsSegment(v, h, k) ==> (h, k) in v.used {
      forall k: nat | IsSegment(w, h, k) ensures (h, k) in w.used {
        assert IsSegment(v, h, k);
      }
    }
  }

  /** A buffer request for a new message: with room it is a fresh entry and a transfer into its
      chunk; with the table full the entry is missing and the chunk already released. */
  lemma PushAfterLoan(w: World, h: Hash, i: nat, loan: Loan, now: int)
    requires Sound(w) && IsSegment(w, h, i) && h !in w.recv.table && loan.Granted?
    requires w.sent[h].m.serviceHash in w.recv.channels
    ensures var (r, buffer) := LoanBuffer(w.recv, w.sent[h].Header(i), loan, now);
            var w1 := Asked(Admit(w, h, i, loan, now), h, i);
            var w' := World(w.sent, r, w.used + {(h, i)}, w.dma[(h, i) := Transfer(loan.id, false)]);
            && buffer == Some(loan.id)
            && (|w.recv.table| < MAX_SEGMENTED_MESSAGE_COUNT ==> w' == w1)
            && (|w.recv.table| >= MAX_SEGMENTED_MESSAGE_COUNT ==>
                  Releasing(w1, w') && h !in r.table && forall g :: g in w1.recv.table && g !in r.table ==> g == h)
  {
    hide Shipment.Segs, Shipment.Header;
    SegmentFacts(w.sent[h], i);
  }

  lemma WriteKeeps(w: World, a: Aux, e: Event)
    requires Inv(w, a) && e.Write? && Enabled(w, e)
    ensures Inv(After(w, e), a)
  {
    hide InvBut, Shipment.Segs, Shipment.Header, SegHolds, TakeNext;
    var h, i := e.hash, e.i;
    var id := w.dma[(h, i)].chunk;
    TransferFact(w, a, h, i);
    PlaceKeeps(w, a, h, i, id);
    MarkKeeps(Placed(w, h, i, id), a, h, i);
    assert After(w, e) == Marked(Placed(w, h, i, id), h, i);
  }

  lemma TransferFact(w: World, a: Aux, h: Hash, i: nat)
    requires Inv(w, a) && (h, i) in w.dma
    ensures TransferOk(w, a, h, i)
  {}

  lemma CompleteKeeps(w: World, a: Aux, e: Event) returns (a': Aux)
    requires Inv(w, a) && e.Complete? && Enabled(w, e)
    ensures Inv(After(w, e), a') && a'.msgOf == a.msgOf
  {
    hide InvBut, Shipment.Segs, Shipment.Header, SegHolds, Finish, Ready, CountDown;
    var h, i, from := e.hash, e.i, e.from;
    SegmentFacts(w.sent[h], i);
    TransferFact(w, a, h, i);
    CompleteShape(w, e);
    if h in w.recv.table && w.sent[h].m.serviceHash in w.recv.channels {
      EntryFact(w, a, h);
      FinishReady(w, a, h, i);
      FinishSame(w, h, i);
      CountKeeps(Finish(w, h, i), a, h, i, from);
      a' := CountedAux(Finish(w, h, i), a, h, i);
      assert After(w, e) == Counted(Finish(w, h, i), h, from);
    } else {
      FinishKeeps(w, a, h, i);
      a' := a;
    }
  }

  lemma EntryFact(w: World, a: Aux, h: Hash)
    requires Inv(w, a) && h in w.recv.table
    ensures w.Proper() && h in w.sent && EntryOk(w, a, h)
  {}

  lemma FinishSame(w: World, h: Hash, i: nat)
    ensures Finish(w, h, i).recv == w.recv && Finish(w, h, i).sent == w.sent
  {}

  lemma CompleteShape(w: World, e: Event)
    requires (e.Complete? || e.Abort?) && Enabled(w, e) && (e.hash, e.i) in w.used
    ensures var w1 := Finish(w, e.hash, e.i);
            var s := w.sent[e.hash];
            if s.m.serviceHash !in w.recv.channels || e.hash !in w.recv.table then After(w, e) == w1
            else After(w, e).(recv := w.recv) == w1
                 && After(w, e).recv == if e.Complete? then CountDown(w.recv, e.hash, s.m.serviceHash, e.from)
                                        else Release(w.recv, e.hash)
  {
    hide Shipment.Segs, Shipment.Header, CountDown;
    SegmentFacts(w.sent[e.hash], e.i);
  }

  lemma ReleaseReleases(w: World, h: Hash)
    requires Conserved(w.recv) && Closed(w.recv) && h in w.recv.table
    ensures var v := w.(recv := Release(w.recv, h));
            && Releasing(w, v) && Conserved(v.recv)
            && forall g :: g in w.recv.table && g !in v.recv.table ==> g == h
  {
    hide ConservedBut;
    EraseConserves(w.recv, h);
    ReleaseConserves(w.recv.(table := w.recv.table - {h}), w.recv.table[h].chunk);
  }

  lemma AbortKeeps(w: World, a: Aux, e: Event)
    requires Inv(w, a) && e.Abort? && Enabled(w, e)
    ensures Inv(After(w, e), a)
  {
    hide InvBut, Shipment.Segs, Shipment.Header, ConservedBut, Releasing, Release;
    var h, i := e.hash, e.i;
    TransferFact(w, a, h, i);
    CompleteShape(w, e);
    hide After, Enabled;
    FinishKeeps(w, a, h, i);
    if After(w, e) != Finish(w, h, i) {
      assert Finished(Finish(w, h, i), h, i);
      InvConserved(w, a);
      InvSound(w, a);
      ReleaseReleases(Finish(w, h, i), h);
      ReleasingKeeps(Finish(w, h, i), a, After(w, e));
    }
  }

  lemma ExpireKeeps(w: World, a: Aux, e: Event)
    requires Inv(w, a) && e.Expire? && Enabled(w, e) && Careful(w, e)
    ensures Inv(After(w, e), a)
  {
    hide InvBut, Harmless, ConservedBut;
    InvConserved(w, a);
    DetachConserves(w.recv, e.hash);
    ReleasingKeeps(w, a, After(w, e));
  }

  lemma ReleaseExpiredKeeps(w: World, a: Aux, e: Event)
    requires Inv(w, a) && e.ReleaseExpired? && Enabled(w, e)
    ensures Inv(After(w, e), a)
  {
    hide InvBut, Harmless, ConservedBut;
    InvConserved(w, a);
    GiveBackConserves(w.recv, e.id);
    ReleasingKeeps(w, a, After(w, e));
  }

  /** Taking entries out and releasing their chunks, whatever the channels become. */
  lemma DiscardReleases(w: World, gone: set<Hash>, channels: set<ClassHash>)
    ensures Releasing(w, w.(recv := Discard(w.recv, gone).(channels := channels)))
  {}

  lemma CloseKeeps(w: World, a: Aux, e: Event)
    requires Inv(w, a) && e.Close? && Enabled(w, e) && Careful(w, e)
    ensures Inv(After(w, e), a)
  {
    hide InvBut, Harmless, ConservedBut, Releasing;
    InvConserved(w, a);
    CloseChannelConserves(w.recv, e.service);
    DiscardReleases(w, Gone(w.recv, e.service), w.recv.channels - {e.service});
    ReleasingKeeps(w, a, After(w, e));
  }

  lemma OpenKeeps(w: World, a: Aux, e: Event)
    requires Inv(w, a) && e.Open? && Enabled(w, e)
    ensures Inv(After(w, e), a)
  {
    hide InvBut, Harmless, ConservedBut;
    InvConserved(w, a);
    OpenConserves(w.recv, e.service);
    ReleasingKeeps(w, a, After(w, e));
  }

  /** A step either names no chunk, or gives the chunk it was granted to its own message; a receive
      that names none of either kind leaves the receiver as it was. */
  ghost predicate Names(w: World, a: Aux, e: Event, a': Aux)
    requires Enabled(w, e)
  {
    || ((e.Deliver? || e.Request?) && e.loan.Granted? && a'.msgOf == a.msgOf[e.loan.id := e.hash])
    || (a'.msgOf == a.msgOf && (e.Deliver? && e.hash !in w.recv.table ==> After(w, e).recv == w.recv))
  }

  lemma StepKeeps(w: World, a: Aux, e: Event) returns (a': Aux)
    requires Inv(w, a) && Enabled(w, e) && Careful(w, e)
    ensures Inv(After(w, e), a') && Names(w, a, e, a')
  {
    hide InvBut, After;
    a' := a;
    match e
    case Deliver(_, _, _, _, _) => a' := DeliverKeeps(w, a, e);
    case Request(_, _, _, _) => a' := RequestKeeps(w, a, e);
    case Write(_, _) => WriteKeeps(w, a, e);
    case Complete(_, _, _) => a' := CompleteKeeps(w, a, e);
    case Abort(_, _, _) => AbortKeeps(w, a, e);
    case Expire(_, _) => ExpireKeeps(w, a, e);
    case ReleaseExpired(_) => ReleaseExpiredKeeps(w, a, e);
    case Close(_) => CloseKeeps(w, a, e);
    case Open(_) => OpenKeeps(w, a, e);
  }

  // ---------- runs ----------

  ghost predicate Init(w: World) {
    w.Proper() && w.recv.table == map[] && w.recv.chunks == map[] && w.recv.published == []
    && w.used == {} && w.dma == map[]
  }

  lemma InitInv(w: World) returns (a: Aux)
    requires Init(w)
    ensures Inv(w, a)
  {
    a := Aux(map[], map[]);
    InitiallyConserved(w.recv.channels);
    forall g | g in w.sent ensures Facts(w, a, g) && Mode(w, a, g) {
      assert Healthy(w, a, g);
    }
  }

  /** Publication `p` is message `m`: through the publisher of its service, and with its user
      header and user payload byte for byte. */
  predicate Delivers(r: Receiver, p: Publication, m: Message) {
    && p.chunk in r.chunks
    && p.service == m.serviceHash
    && r.chunks[p.chunk].userHeader == m.header
    && r.chunks[p.chunk].userPayload == m.payload
  }

  lemma PublishedWhole(w: World, a: Aux, k: nat)
    requires Inv(w, a) && k < |w.recv.published|
    ensures var p := w.recv.published[k];
            && p.chunk in a.msgOf && a.msgOf[p.chunk] in w.sent
            && Mine(w, a, a.msgOf[p.chunk], p.chunk) && w.recv.chunks[p.chunk].owner == Published
            && Delivers(w.recv, p, w.sent[a.msgOf[p.chunk]].m)
  {
    hide Shipment.Segs, SegHolds, EntriesOwn, HeldHasEntry, GivenUpOnce;
    var p := w.recv.published[k];
    var h := a.msgOf[p.chunk];
    assert ChunkOk(w, a, h, p.chunk);
    forall i | 0 <= i < |w.sent[h].Segs()|
      ensures SegHolds(w.recv.chunks[p.chunk], w.sent[h].m, w.sent[h].Segs()[i])
    {
      assert IsSegment(w, h, i);
    }
    AllSegmentsHeld(w.recv.chunks[p.chunk], w.sent[h]);
  }

  lemma PublishedApart(w: World, a: Aux, j: nat, k: nat)
    requires Inv(w, a) && j < k < |w.recv.published|
    ensures w.recv.published[j].chunk in a.msgOf && w.recv.published[k].chunk in a.msgOf
    ensures a.msgOf[w.recv.published[j].chunk] != a.msgOf[w.recv.published[k].chunk]
  {
    hide ChunkOk, EntryOk, TransferOk;
    PublishedWhole(w, a, j);
    PublishedWhole(w, a, k);
    assert PublishedOnce(w.recv);
    assert Facts(w, a, a.msgOf[w.recv.published[j].chunk]);
  }

  /** Which message each publication is. */
  lemma Origins(w: World, a: Aux) returns (which: seq<Hash>)
    requires Inv(w, a)
    ensures |which| == |w.recv.published|
    ensures forall k :: 0 <= k < |which| ==>
              && w.recv.published[k].chunk in a.msgOf && which[k] == a.msgOf[w.recv.published[k].chunk]
              && which[k] in w.sent && Delivers(w.recv, w.recv.published[k], w.sent[which[k]].m)
    ensures forall j, k :: 0 <= j < k < |which| ==> which[j] != which[k]
  {
    hide Inv, Delivers, Facts;
    which := [];
    while |which| < |w.recv.published|
      invariant |which| <= |w.recv.published|
      invariant forall k :: 0 <= k < |which| ==>
                  && w.recv.published[k].chunk in a.msgOf && which[k] == a.msgOf[w.recv.published[k].chunk]
                  && which[k] in w.sent && Delivers(w.recv, w.recv.published[k], w.sent[which[k]].m)
    {
      PublishedWhole(w, a, |which|);
      which := which + [a.msgOf[w.recv.published[|which|].chunk]];
    }
    forall j, k | 0 <= j < k < |which| ensures which[j] != which[k] {
      PublishedApart(w, a, j, k);
    }
  }

  /** Every segment of a sent message fits the buffer it is copied to. */
  lemma ArrivalFits(w: World, a: Aux, h: Hash, i: nat)
    requires Inv(w, a) && w.Proper() && IsSegment(w, h, i)
    ensures InBounds(w.recv, w.sent[h].Header(i), w.sent[h].Segs()[i].data)
  {
    hide Mode, ConservedBut;
    SegmentFacts(w.sent[h], i);
    if h in w.recv.table {
      assert EntryOk(w, a, h) && ChunkOk(w, a, h, w.recv.table[h].chunk);
      TakeNextPlaces(w.recv.chunks[w.recv.table[h].chunk], w.sent[h], i);
    }
  }
}

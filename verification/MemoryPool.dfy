/** The end-to-end guarantee with memory that is loaned again. A chunk that was published or released
    goes back to the pool of iceoryx, which hands its memory out for another chunk, while a DMA engine
    goes on writing where it was told to. Messages are sent as the run goes on. */
module MemoryPool {
  import opened Types
  import opened DataWriter
  import opened Reassembly
  import E = EndToEnd
  import X = EndToEndExact
  import Serialization

  /** Each loan is a chunk of its own in `world`; `moved` says of the chunks whose memory has been
      loaned again which chunk is there now. */
  datatype Pool = Pool(world: E.World, moved: map<ChunkId, ChunkId>)

  /** `reuse` is the chunk whose memory a loan gets, if it is not fresh memory; `spill` is what a write
      that goes astray makes of the chunk it hits. Besides whole datagrams of sent messages, any bytes may
      arrive that are not as many as their header says. */
  datatype Step =
    | Send(hash: Hash, shipment: E.Shipment)
    | Mangled(bytes: seq<byte>, loan: Loan, now: int, from: DeviceIndex)
    | Do(e: E.Event, reuse: Option<ChunkId>, spill: Chunk)

  predicate GivenUp(c: Chunk) {
    c.owner == Released || c.owner == Published
  }

  /** The memory of chunk c may be handed out. */
  predicate Free(s: Pool, c: ChunkId) {
    c in s.world.recv.chunks && GivenUp(s.world.recv.chunks[c]) && c !in s.moved
  }

  predicate SameSizes(c: Chunk, d: Chunk) {
    |c.userHeader| == |d.userHeader| && |c.userPayload| == |d.userPayload|
  }

  /** A write meant for a chunk whose memory belongs to another one now. */
  predicate Astray(s: Pool, e: E.Event) {
    e.Write? && (e.hash, e.i) in s.world.dma && s.world.dma[(e.hash, e.i)].chunk in s.moved
  }

  /** What a write of segment i of h, meant for chunk c, makes of chunk d: chunks with buffers of the
      same sizes are laid out alike; what it does to another one is left open. */
  ghost predicate Spills(w: E.World, h: Hash, i: nat, c: ChunkId, d: ChunkId, spill: Chunk)
    requires w.Proper() && E.IsSegment(w, h, i)
  {
    && c in w.recv.chunks && d in w.recv.chunks
    && spill.owner == w.recv.chunks[d].owner && spill.givenUp == w.recv.chunks[d].givenUp
    && SameSizes(spill, w.recv.chunks[d])
    && (SameSizes(w.recv.chunks[c], w.recv.chunks[d]) ==>
          spill == TakeNext(w.recv.chunks[d], w.sent[h].Header(i), w.sent[h].Segs()[i].data))
  }

  /** The bytes have a header, and are not as many as it says. */
  predicate IsMangled(bytes: seq<byte>) {
    var h := Serialization.DecodeHeader(bytes);
    h.Some? && |bytes| != h.value.submessageSize + 44
  }

  ghost predicate Enabled(s: Pool, x: Step) {
    match x
    case Send(h, shipment) => E.Sound(s.world) && h !in s.world.sent && shipment.Proper() && shipment.m.hash == h
    case Mangled(bytes, _, _, _) => E.Sound(s.world) && IsMangled(bytes)
    case Do(e, reuse, spill) =>
      && E.Enabled(s.world, e)
      && (reuse.Some? ==> Free(s, reuse.value))
      && (Astray(s, e) ==>
            var c := s.world.dma[(e.hash, e.i)].chunk;
            Spills(s.world, e.hash, e.i, c, s.moved[c], spill))
  }

  /** The event took the chunk it was granted. */
  predicate Loans(w: E.World, v: E.World, e: E.Event) {
    (e.Deliver? || e.Request?) && e.loan.Granted? && e.loan.id !in w.recv.chunks && e.loan.id in v.recv.chunks
  }

  /** Chunk d gets the memory of chunk c, and of those that had it before. */
  function MoveOn(moved: map<ChunkId, ChunkId>, c: ChunkId, d: ChunkId): map<ChunkId, ChunkId> {
    map x | x in moved.Keys + {c} :: if x == c || moved[x] == c then d else moved[x]
  }

  ghost function Stray(w: E.World, h: Hash, i: nat, d: ChunkId, spill: Chunk): E.World
    requires (h, i) in w.dma
  {
    w.(recv := w.recv.(chunks := w.recv.chunks[d := spill]),
       dma := w.dma[(h, i) := w.dma[(h, i)].(written := true)])
  }

  ghost function After(s: Pool, x: Step): Pool
    requires Enabled(s, x)
  {
    match x
    case Send(h, shipment) => s.(world := s.world.(sent := s.world.sent[h := shipment]))
    case Mangled(bytes, loan, now, from) =>
      var r := ReceiveBytes(s.world.recv, bytes, loan, now, from);
      s.(world := s.world.(recv := if r.Some? then r.value else s.world.recv))
    case Do(e, reuse, spill) =>
      if Astray(s, e) then
        s.(world := Stray(s.world, e.hash, e.i, s.moved[s.world.dma[(e.hash, e.i)].chunk], spill))
      else
        var v := E.After(s.world, e);
        Pool(v, if reuse.Some? && Loans(s.world, v, e) then MoveOn(s.moved, reuse.value, e.loan.id) else s.moved)
  }

  /** Segment i of h is being written by DMA. */
  predicate Writing(w: E.World, h: Hash, i: nat) {
    (h, i) in w.dma && !w.dma[(h, i)].written
  }

  /** No chunk is released by the step while a segment is being written into it. */
  ghost predicate Quiet(w: E.World, v: E.World) {
    forall h: Hash, i: nat :: Writing(v, h, i) && X.IsReleased(v, v.dma[(h, i)].chunk) ==>
      X.IsReleased(w, v.dma[(h, i)].chunk)
  }

  /** The step neither releases a chunk that is being written into, nor takes an untouched message's
      buffer away from a transfer under way (see EndToEnd.Careful). Only timeouts, channel deletion,
      an aborted transfer and a full table at a buffer request can do so. */
  ghost predicate Careful(s: Pool, x: Step)
    requires Enabled(s, x)
  {
    x.Do? ==> E.Careful(s.world, x.e) && Quiet(s.world, After(s, x).world)
  }

  // ---------- what arrives mangled ----------

  /** It publishes nothing, counts nothing and copies nothing. */
  lemma MangledChangesNothing(s: Pool, x: Step)
    requires Enabled(s, x) && x.Mangled?
    ensures After(s, x) == s
  {
    TakenExactly(s.world.recv, x.bytes, x.loan, x.now, x.from);
    hide ReceiveBytes, Serialization.DecodeHeader, E.Shipment.Proper;
  }

  /** A sent datagram that lost its end, but not its header, or that has gained some bytes is mangled. */
  lemma CutOrExtended(s: E.Shipment, i: nat, n: nat, tail: seq<byte>)
    requires s.Proper() && i < |s.Segs()| && 44 <= n <= |s.Bytes(i)| && n + |tail| != |s.Bytes(i)|
    ensures IsMangled(s.Bytes(i)[..n] + tail)
  {
    E.BytesSplit(s, i);
    var header, data := Serialization.EncodeHeader(s.Header(i)), s.Segs()[i].data;
    Serialization.HeaderRoundTrip(s.Header(i), data[..n - 44] + tail);
    hide Serialization.EncodeHeader, Serialization.DecodeHeader, E.Shipment.Segs, E.Shipment.Header, E.Shipment.Bytes;
    assert (header + data)[..n] + tail == header + (data[..n - 44] + tail);
  }

  // ---------- what every step keeps, careful or not ----------

  ghost predicate MovedOk(moved: map<ChunkId, ChunkId>, r: Receiver) {
    forall c :: c in moved ==> c in r.chunks && GivenUp(r.chunks[c]) && moved[c] in r.chunks
  }

  ghost predicate UsedSent(w: E.World) {
    && (forall h, i: nat :: (h, i) in w.used ==> h in w.sent)
    && (forall h :: h in w.recv.table ==> h in w.sent)
    && (forall h, i: nat :: (h, i) in w.dma ==> h in w.sent)
  }

  ghost predicate Base(s: Pool) {
    && s.world.Proper() && Conserved(s.world.recv) && MovedOk(s.moved, s.world.recv) && UsedSent(s.world)
  }

  /** Chunks given up stay so, with the same owner and sizes; and those not in `but` stay as they are. */
  predicate OwnersStay(r: Receiver, s: Receiver, but: set<ChunkId>) {
    && r.chunks.Keys <= s.chunks.Keys
    && forall id :: id in r.chunks && GivenUp(r.chunks[id]) ==>
         && s.chunks[id].owner == r.chunks[id].owner && SameSizes(r.chunks[id], s.chunks[id])
         && (id !in but ==> s.chunks[id] == r.chunks[id])
  }

  lemma CountDownOwners(r: Receiver, hash: Hash, service: ClassHash, from: DeviceIndex)
    requires Conserved(r) && Closed(r) && hash in r.table
    ensures OwnersStay(r, CountDown(r, hash, service, from), {})
  {}

  lemma CopyOwners(r: Receiver, id: ChunkId, d: DatagramHeader, data: seq<byte>)
    requires id in r.chunks
    ensures OwnersStay(r, Copy(r, id, d, data), {id})
  {
    hide TakeNext;
  }

  lemma EntryHeld(r: Receiver, hash: Hash)
    requires Conserved(r) && hash in r.table
    ensures r.table[hash].chunk in r.chunks && r.chunks[r.table[hash].chunk].owner == Held
  {}

  lemma ReceiveOwners(r: Receiver, d: DatagramHeader, data: seq<byte>, loan: Loan, now: int, from: DeviceIndex)
    requires Conserved(r) && Closed(r) && ValidLoan(r, d, loan)
    ensures OwnersStay(r, Receive(r, d, data, loan, now, from), {})
  {
    hide TakeNext, ConservedBut, CountDown;
    var hash := d.messageHash;
    if d.serviceHash in r.channels && hash in r.table {
      var id := r.table[hash].chunk;
      CopyConserves(r, {}, id, d, data);
      CopyOwners(r, id, d, data);
      EntryHeld(r, hash);
      CountDownOwners(Copy(r, id, d, data), hash, d.serviceHash, from);
    }
  }

  lemma ReleaseBufferOwners(r: Receiver, d: DatagramHeader, shouldRelease: bool, from: DeviceIndex)
    requires Conserved(r) && Closed(r)
    ensures OwnersStay(r, ReleaseBuffer(r, d, shouldRelease, from), {})
  {
    hide CountDown;
    if d.serviceHash in r.channels && d.messageHash in r.table {
      CountDownOwners(r, d.messageHash, d.serviceHash, from);
    }
  }

  lemma CloseOwners(r: Receiver, service: ClassHash)
    requires Conserved(r)
    ensures OwnersStay(r, CloseChannel(r, service), {})
  {}

  lemma EventConserves(w: E.World, e: E.Event)
    requires E.Enabled(w, e) && Conserved(w.recv)
    ensures Conserved(E.After(w, e).recv)
    ensures OwnersStay(w.recv, E.After(w, e).recv, if e.Write? then {w.dma[(e.hash, e.i)].chunk} else {})
  {
    hide E.Shipment.Segs, E.Shipment.Header, E.Shipment.Bytes, TakeNext, ConservedBut, Receive, ReceiveBytes, CloseChannel,
         LoanBuffer, ReleaseBuffer;
    match e
    case Deliver(h, i, loan, now, from) =>
      E.DatagramParses(w.recv, w.sent[h], i, loan, now, from);
      ReceiveConserves(w.recv, w.sent[h].Header(i), w.sent[h].Segs()[i].data, loan, now, from);
      ReceiveOwners(w.recv, w.sent[h].Header(i), w.sent[h].Segs()[i].data, loan, now, from);
    case Request(h, i, loan, now) =>
      LoanBufferConserves(w.recv, w.sent[h].Header(i), loan, now);
      LoanBufferOwners(w.recv, w.sent[h].Header(i), loan, now);
    case Write(h, i) =>
      CopyConserves(w.recv, {}, w.dma[(h, i)].chunk, w.sent[h].Header(i), w.sent[h].Segs()[i].data);
      CopyOwners(w.recv, w.dma[(h, i)].chunk, w.sent[h].Header(i), w.sent[h].Segs()[i].data);
    case Complete(h, i, from) =>
      ReleaseBufferConserves(w.recv, w.sent[h].Header(i), false, from);
      ReleaseBufferOwners(w.recv, w.sent[h].Header(i), false, from);
    case Abort(h, i, from) =>
      ReleaseBufferConserves(w.recv, w.sent[h].Header(i), true, from);
      ReleaseBufferOwners(w.recv, w.sent[h].Header(i), true, from);
    case Expire(h, _) =>
      DetachConserves(w.recv, h);
      DetachOwners(w.recv, h);
    case ReleaseExpired(id) => GiveBackConserves(w.recv, id);
    case Close(service) =>
      CloseChannelConserves(w.recv, service);
      CloseOwners(w.recv, service);
    case Open(service) => OpenConserves(w.recv, service);
  }

  lemma DetachOwners(r: Receiver, hash: Hash)
    requires Conserved(r) && Closed(r) && hash in r.table
    ensures OwnersStay(r, Detach(r, hash), {})
  {}

  lemma LoanBufferOwners(r: Receiver, d: DatagramHeader, loan: Loan, now: int)
    requires Closed(r) && ValidLoan(r, d, loan)
    ensures OwnersStay(r, LoanBuffer(r, d, loan, now).0, {})
  {}

  /** Transfers go on where they went, except that a request starts one: into the chunk of an entry or
      into a new one. */
  lemma EventTransfers(w: E.World, e: E.Event, h: Hash, i: nat)
    requires E.Enabled(w, e) && (h, i) in E.After(w, e).dma
    ensures var c := E.After(w, e).dma[(h, i)].chunk;
            || ((h, i) in w.dma && w.dma[(h, i)].chunk == c
                && (w.dma[(h, i)].written ==> E.After(w, e).dma[(h, i)].written))
            || (e.Request? && h == e.hash && (c !in w.recv.chunks || exists g :: g in w.recv.table && w.recv.table[g].chunk == c))
  {
    hide E.Shipment.Segs, E.Shipment.Bytes, E.Shipment.Header, ReceiveBytes, ReleaseBuffer, CloseChannel;
  }

  lemma EventTable(w: E.World, e: E.Event)
    requires E.Enabled(w, e)
    ensures forall g :: g in E.After(w, e).recv.table ==> g in w.recv.table || ((e.Deliver? || e.Request?) && g == e.hash)
  {
    hide E.Shipment.Segs, E.Shipment.Header, E.Shipment.Bytes, Receive, ReceiveBytes, TakeNext;
    if e.Deliver? {
      E.SegmentFacts(w.sent[e.hash], e.i);
      E.DatagramParses(w.recv, w.sent[e.hash], e.i, e.loan, e.now, e.from);
      ReceiveTable(w.recv, w.sent[e.hash].Header(e.i), w.sent[e.hash].Segs()[e.i].data, e.loan, e.now, e.from);
    } else if e.Request? {
      E.SegmentFacts(w.sent[e.hash], e.i);
    }
  }

  lemma ReceiveTable(r: Receiver, d: DatagramHeader, data: seq<byte>, loan: Loan, now: int, from: DeviceIndex)
    requires Closed(r)
    ensures forall g :: g in Receive(r, d, data, loan, now, from).table ==> g in r.table || g == d.messageHash
  {
    hide TakeNext;
  }

  lemma EventUsedSent(w: E.World, e: E.Event)
    requires E.Enabled(w, e) && UsedSent(w)
    ensures UsedSent(E.After(w, e)) && E.After(w, e).sent == w.sent
  {
    var v := E.After(w, e);
    X.SentKept(w, e);
    EventTable(w, e);
    forall h: Hash, i: nat | (h, i) in v.dma ensures h in v.sent {
      EventTransfers(w, e, h, i);
      RequestSent(w, e);
    }
    RequestSent(w, e);
    EventUsed(w, e);
    hide E.After, E.Enabled;
  }

  lemma RequestSent(w: E.World, e: E.Event)
    requires E.Enabled(w, e)
    ensures e.Request? || e.Deliver? ==> e.hash in w.sent
  {}

  lemma EventUsed(w: E.World, e: E.Event)
    requires E.Enabled(w, e)
    ensures E.After(w, e).used == w.used + (if e.Request? || e.Deliver? then {(e.hash, e.i)} else {})
  {
    hide E.Shipment.Segs, E.Shipment.Header, E.Shipment.Bytes, ReceiveBytes, LoanBuffer, ReleaseBuffer, CloseChannel, TakeNext;
  }

  lemma MovedStays(moved: map<ChunkId, ChunkId>, r: Receiver, r': Receiver, but: set<ChunkId>)
    requires MovedOk(moved, r) && OwnersStay(r, r', but)
    ensures MovedOk(moved, r')
  {}

  lemma MovedMore(moved: map<ChunkId, ChunkId>, r: Receiver, c: ChunkId, d: ChunkId)
    requires MovedOk(moved, r) && c in r.chunks && GivenUp(r.chunks[c]) && d in r.chunks
    ensures MovedOk(MoveOn(moved, c, d), r)
  {}

  lemma FreeStays(r: Receiver, r': Receiver, but: set<ChunkId>, c: ChunkId)
    requires OwnersStay(r, r', but) && c in r.chunks && GivenUp(r.chunks[c])
    ensures c in r'.chunks && GivenUp(r'.chunks[c])
  {}

  /** An event that goes where it is meant to. */
  lemma PlainBase(s: Pool, x: Step)
    requires Base(s) && Enabled(s, x) && x.Do? && !Astray(s, x.e)
    ensures Base(After(s, x)) && After(s, x).world == E.After(s.world, x.e)
  {
    var w, v := s.world, E.After(s.world, x.e);
    EventConserves(w, x.e);
    EventUsedSent(w, x.e);
    hide E.After, E.Enabled, Conserved, UsedSent, OwnersStay, MovedOk, MoveOn, E.Shipment.Proper;
    var but := if x.e.Write? then {w.dma[(x.e.hash, x.e.i)].chunk} else {};
    MovedStays(s.moved, w.recv, v.recv, but);
    if x.reuse.Some? && Loans(w, v, x.e) {
      FreeStays(w.recv, v.recv, but, x.reuse.value);
      MovedMore(s.moved, v.recv, x.reuse.value, x.e.loan.id);
    }
  }

  lemma StrayConserves(r: Receiver, d: ChunkId, spill: Chunk)
    requires Conserved(r) && d in r.chunks && spill.owner == r.chunks[d].owner && spill.givenUp == r.chunks[d].givenUp
    ensures Conserved(r.(chunks := r.chunks[d := spill]))
  {
    var s := r.(chunks := r.chunks[d := spill]);
    assert HeldHasEntry(s, {});
    assert EntriesOwn(s, {});
  }

  lemma StrayShape(s: Pool, x: Step)
    requires Enabled(s, x) && x.Do? && Astray(s, x.e)
    ensures var d := s.moved[s.world.dma[(x.e.hash, x.e.i)].chunk];
            && d in s.world.recv.chunks && x.spill.owner == s.world.recv.chunks[d].owner
            && x.spill.givenUp == s.world.recv.chunks[d].givenUp
            && After(s, x) == s.(world := Stray(s.world, x.e.hash, x.e.i, d, x.spill))
    ensures OwnersStay(s.world.recv, After(s, x).world.recv, {s.moved[s.world.dma[(x.e.hash, x.e.i)].chunk]})
  {
    hide E.Enabled, E.Shipment.Segs, E.Shipment.Header, TakeNext;
  }

  lemma StrayBase(s: Pool, x: Step)
    requires Base(s) && Enabled(s, x) && x.Do? && Astray(s, x.e)
    ensures Base(After(s, x))
  {
    StrayShape(s, x);
    var r, r' := s.world.recv, After(s, x).world.recv;
    StrayConserves(r, s.moved[s.world.dma[(x.e.hash, x.e.i)].chunk], x.spill);
    MovedStays(s.moved, r, r', {s.moved[s.world.dma[(x.e.hash, x.e.i)].chunk]});
    hide Enabled, After, Conserved, OwnersStay, MovedOk, E.Shipment.Proper;
  }

  lemma SendBase(s: Pool, x: Step)
    requires Base(s) && Enabled(s, x) && x.Send?
    ensures Base(After(s, x))
  {
    hide Conserved;
  }

  lemma BaseKeeps(s: Pool, x: Step)
    requires Base(s) && Enabled(s, x)
    ensures Base(After(s, x))
  {
    hide Base, Enabled, After;
    if x.Send? {
      SendBase(s, x);
    } else if x.Mangled? {
      MangledChangesNothing(s, x);
    } else if Astray(s, x.e) {
      StrayBase(s, x);
    } else {
      PlainBase(s, x);
    }
  }

  // ---------- what careful steps keep ----------

  /** No segment is being written into a chunk that has been released. */
  ghost predicate Clean(w: E.World) {
    forall h: Hash, i: nat :: Writing(w, h, i) ==> !X.IsReleased(w, w.dma[(h, i)].chunk)
  }

  ghost predicate Inv(s: Pool, a: E.Aux) {
    E.Inv(s.world, a) && Base(s) && Clean(s.world)
  }

  /** Nothing is being written into a chunk that is given up, published ones included. */
  lemma WritesHome(s: Pool, a: E.Aux, h: Hash, i: nat)
    requires Inv(s, a) && Writing(s.world, h, i)
    ensures var c := s.world.dma[(h, i)].chunk;
            c in s.world.recv.chunks && !GivenUp(s.world.recv.chunks[c]) && c !in s.moved
  {
    NotPublished(s.world, a, h, i);
    hide E.Inv, Conserved, UsedSent;
  }

  /** A published chunk has all its segments counted, and a transfer's segment is not. */
  lemma NotPublished(w: E.World, a: E.Aux, h: Hash, i: nat)
    requires E.Inv(w, a) && (h, i) in w.dma
    ensures w.dma[(h, i)].chunk in w.recv.chunks && w.recv.chunks[w.dma[(h, i)].chunk].owner != Published
  {
    hide E.Shipment.Segs, E.SegHolds, E.SizesOk, Conserved, E.Mode;
    E.TransferFact(w, a, h, i);
    assert E.ChunkOk(w, a, h, w.dma[(h, i)].chunk);
  }

  /** What was sent before and has happened to it is the same when one more message is sent. */
  lemma MoreSentFacts(w: E.World, v: E.World, a: E.Aux, g: Hash)
    requires w.Proper() && v.Proper() && g in w.sent && g in v.sent && v.sent[g] == w.sent[g]
    requires v.recv == w.recv && v.used == w.used && v.dma == w.dma && E.Facts(w, a, g) && E.Mode(w, a, g)
    ensures E.Facts(v, a, g) && E.Mode(v, a, g)
  {
    hide E.Shipment.Segs, E.SegHolds, E.SizesOk;
    forall id | E.Mine(v, a, g, id) ensures E.ChunkOk(v, a, g, id) {
      assert E.ChunkOk(w, a, g, id);
    }
    forall i: nat | (g, i) in v.dma ensures E.TransferOk(v, a, g, i) {
      assert E.TransferOk(w, a, g, i);
    }
    MoreSentMode(w, v, a, g);
  }

  lemma MoreSentMode(w: E.World, v: E.World, a: E.Aux, g: Hash)
    requires w.Proper() && v.Proper() && g in w.sent && g in v.sent && v.sent[g] == w.sent[g]
    requires v.recv == w.recv && v.used == w.used && v.dma == w.dma && E.Mode(w, a, g)
    ensures E.Mode(v, a, g)
  {
    hide E.Shipment.Segs, E.SegHolds, E.SizesOk;
    if E.Healthy(w, a, g) {
      assert E.Healthy(v, a, g);
    } else if E.Lost(w, a, g) {
      var k: nat :| E.LostSegment(w, a, g, k);
      assert E.LostSegment(v, a, g, k);
    }
  }

  lemma NewFacts(v: E.World, w: E.World, a: E.Aux, h: Hash)
    requires E.Bookkeeping(w, a) && h !in w.sent && v.Proper() && h in v.sent && v.recv == w.recv && v.dma == w.dma
    ensures E.Facts(v, a, h) && E.Mode(v, a, h)
  {
    hide E.Shipment.Segs, E.SegHolds, E.SizesOk;
    assert E.Healthy(v, a, h);
  }

  lemma SendKeeps(s: Pool, a: E.Aux, x: Step)
    requires Inv(s, a) && Enabled(s, x) && x.Send?
    ensures Inv(After(s, x), a)
  {
    var w, v := s.world, After(s, x).world;
    SendBase(s, x);
    SentBook(w, v, a, x.hash, x.shipment);
    hide E.Facts, E.Mode, Conserved, E.Bookkeeping, Base, E.Shipment.Segs, E.Shipment.Proper;
    forall g | g in v.sent ensures E.Facts(v, a, g) && E.Mode(v, a, g) {
      if g == x.hash {
        NewFacts(v, w, a, g);
      } else {
        MoreSentFacts(w, v, a, g);
      }
    }
  }

  lemma SentBook(w: E.World, v: E.World, a: E.Aux, h: Hash, shipment: E.Shipment)
    requires E.Bookkeeping(w, a) && h !in w.sent && shipment.Proper() && shipment.m.hash == h
    requires v == w.(sent := w.sent[h := shipment])
    ensures E.Bookkeeping(v, a) && w.Proper()
  {
    hide E.Shipment.Proper;
  }

  lemma CleanKeeps(s: Pool, a: E.Aux, x: Step)
    requires Inv(s, a) && Enabled(s, x) && x.Do? && Quiet(s.world, After(s, x).world) && !Astray(s, x.e)
    ensures Clean(After(s, x).world)
  {
    var w, v := s.world, After(s, x).world;
    forall h: Hash, i: nat | Writing(v, h, i) ensures !X.IsReleased(v, v.dma[(h, i)].chunk) {
      if X.IsReleased(v, v.dma[(h, i)].chunk) {
        EventTransfers(w, x.e, h, i);
        ReleasedNotHeld(w, v.dma[(h, i)].chunk);
        hide E.After, E.Enabled, E.Inv, Base;
      }
    }
  }

  lemma ReleasedNotHeld(w: E.World, c: ChunkId)
    requires Conserved(w.recv) && X.IsReleased(w, c)
    ensures forall g :: g in w.recv.table ==> w.recv.table[g].chunk != c
  {}

  lemma HomeNotAstray(s: Pool, a: E.Aux, e: E.Event)
    requires Inv(s, a) && E.Enabled(s.world, e)
    ensures !Astray(s, e)
  {
    if Astray(s, e) {
      WritesHome(s, a, e.hash, e.i);
      assert false;
    }
  }

  lemma {:induction false} StepKeeps(s: Pool, a: E.Aux, x: Step) returns (a': E.Aux)
    requires Inv(s, a) && Enabled(s, x) && Careful(s, x)
    ensures Inv(After(s, x), a')
    ensures x.Do? ==> !Astray(s, x.e) && After(s, x).world == E.After(s.world, x.e) && E.Names(s.world, a, x.e, a')
    ensures !x.Do? ==> a' == a
  {
    hide E.Inv, E.After, E.Enabled, E.Careful, Base, Quiet, Clean;
    if x.Send? {
      SendKeeps(s, a, x);
      a' := a;
    } else if x.Mangled? {
      MangledChangesNothing(s, x);
      a' := a;
    } else {
      HomeNotAstray(s, a, x.e);
      PlainBase(s, x);
      CleanKeeps(s, a, x);
      a' := E.StepKeeps(s.world, a, x.e);
    }
  }

  // ---------- runs ----------

  ghost predicate Init(s: Pool) {
    E.Init(s.world) && s.moved == map[]
  }

  /** A run from a fresh receiver in which every step is enabled and careful. */
  ghost predicate Run(ss: seq<Pool>, xs: seq<Step>) {
    && |ss| == |xs| + 1
    && Init(ss[0])
    && forall k :: 0 <= k < |xs| ==> Enabled(ss[k], xs[k]) && Careful(ss[k], xs[k]) && ss[k + 1] == After(ss[k], xs[k])
  }

  lemma InitInv(s: Pool) returns (a: E.Aux)
    requires Init(s)
    ensures Inv(s, a)
  {
    InitiallyConserved(s.world.recv.channels);
    a := E.InitInv(s.world);
    hide E.Inv, Conserved;
  }

  lemma {:induction false} RunInv(ss: seq<Pool>, xs: seq<Step>) returns (a: E.Aux)
    requires Run(ss, xs)
    ensures Inv(ss[|xs|], a)
    decreases |xs|
  {
    if xs == [] {
      a := InitInv(ss[0]);
    } else {
      hide Inv, After, Enabled, Careful, Init;
      var n := |xs| - 1;
      var b := RunInv(ss[..n + 1], xs[..n]);
      a := StepKeeps(ss[n], b, xs[n]);
    }
  }

  /** The end-to-end theorem. After any run, the publications are sent messages, each a different one,
      complete and unaltered, in the memory that was handed to iceoryx; which ones, `which` says. */
  lemma {:induction false} EndToEnd(ss: seq<Pool>, xs: seq<Step>) returns (which: seq<Hash>)
    requires Run(ss, xs)
    ensures var w := ss[|xs|].world;
            && |which| == |w.recv.published|
            && (forall k :: 0 <= k < |which| ==>
                  which[k] in w.sent && E.Delivers(w.recv, w.recv.published[k], w.sent[which[k]].m))
            && (forall j, k :: 0 <= j < k < |which| ==> which[j] != which[k])
  {
    hide E.Inv, Base, Clean, E.Delivers, Init, After, Enabled, Careful;
    var a := RunInv(ss, xs);
    which := E.Origins(ss[|xs|].world, a);
  }

  /** In every run each segment that arrives fits the buffer it is copied to. */
  lemma ArrivalsInBounds(ss: seq<Pool>, xs: seq<Step>, h: Hash, i: nat)
    requires Run(ss, xs) && ss[|xs|].world.Proper() && E.IsSegment(ss[|xs|].world, h, i)
    ensures var w := ss[|xs|].world; InBounds(w.recv, w.sent[h].Header(i), w.sent[h].Segs()[i].data)
  {
    hide E.Inv, Base, Clean, Init, After, Enabled, Careful, InBounds;
    var a := RunInv(ss, xs);
    E.ArrivalFits(ss[|xs|].world, a, h, i);
  }

  /** In a run every write goes into the chunk it was meant for, which the gateway has in hand. */
  lemma WritesStayHome(ss: seq<Pool>, xs: seq<Step>, e: E.Event)
    requires Run(ss, xs) && e.Write? && E.Enabled(ss[|xs|].world, e)
    ensures var s := ss[|xs|];
            var c := s.world.dma[(e.hash, e.i)].chunk;
            && !Astray(s, e) && c in s.world.recv.chunks
            && (s.world.recv.chunks[c].owner == Held || s.world.recv.chunks[c].owner == Detached)
  {
    hide Inv, Init, After, Enabled, Careful;
    var a := RunInv(ss, xs);
    WritesHome(ss[|xs|], a, e.hash, e.i);
  }
}

/** The end-to-end guarantee holds exactly as long as every step is careful, as long as messages go on
    being sent: after a step that is not, there is a run, itself careful, that publishes a message
    with bytes that are not its own. */
module MemoryPoolExact {
  import opened Types
  import opened DataWriter
  import opened Reassembly
  import opened Helpers
  import opened MemoryPool
  import E = EndToEnd
  import X = EndToEndExact

  /** What has been published stays as it is. */
  predicate Lasts(r: Receiver, s: Receiver) {
    && r.published <= s.published
    && forall id :: id in r.chunks && r.chunks[id].owner == Published ==> id in s.chunks && s.chunks[id] == r.chunks[id]
  }

  /** What was published before the step stays as it is, and what is published in it is the message
      whose segment arrived, byte for byte, under the device it arrived from. */
  ghost predicate Faithful(s: Pool, x: Step)
    requires Enabled(s, x)
  {
    var before, after := s.world.recv, After(s, x).world.recv;
    && Lasts(before, after)
    && (after.published != before.published ==>
          && x.Do? && (x.e.Deliver? || x.e.Complete?) && |after.published| > 0
          && x.e.hash in s.world.sent
          && E.Delivers(after, after.published[|after.published| - 1], s.world.sent[x.e.hash].m)
          && after.published[|after.published| - 1].from == x.e.from)
  }

  /** Careful steps lead from s to t. */
  ghost predicate Leads(s: Pool, xs: seq<Step>, t: Pool)
    decreases |xs|
  {
    if xs == [] then t == s
    else Enabled(s, xs[0]) && Careful(s, xs[0]) && Leads(After(s, xs[0]), xs[1..], t)
  }

  /** Whatever careful run follows, every step of it is faithful. */
  ghost predicate Safe(s: Pool) {
    forall xs: seq<Step>, t: Pool, x: Step :: Leads(s, xs, t) && Enabled(t, x) && Careful(t, x) ==> Faithful(t, x)
  }

  // ---------- careful steps are faithful ----------

  lemma GivenUpLasts(r: Receiver, r': Receiver, but: set<ChunkId>)
    requires OwnersStay(r, r', but) && r.published <= r'.published
    requires forall id :: id in but && id in r.chunks ==> r.chunks[id].owner != Published
    ensures Lasts(r, r')
  {}

  lemma PublishedLasts(s: Pool, a: E.Aux, e: E.Event)
    requires Inv(s, a) && E.Enabled(s.world, e)
    ensures Lasts(s.world.recv, E.After(s.world, e).recv)
  {
    hide E.Inv, E.After, MovedOk, UsedSent, Conserved, Clean, OwnersStay, Lasts, E.Shipment.Segs, E.Shipment.Header;
    X.PublishedGrows(s.world, a, e);
    EventConserves(s.world, e);
    if e.Write? {
      WritesHome(s, a, e.hash, e.i);
    }
    hide E.Enabled;
    GivenUpLasts(s.world.recv, E.After(s.world, e).recv, if e.Write? then {s.world.dma[(e.hash, e.i)].chunk} else {});
  }

  lemma CarefulIsFaithful(s: Pool, a: E.Aux, x: Step)
    requires Inv(s, a) && Enabled(s, x) && Careful(s, x)
    ensures Faithful(s, x)
  {
    hide E.Inv, Base, Clean, E.After, E.Enabled, E.Careful, E.Delivers, Lasts, Quiet;
    if !x.Do? {
      OthersPublishNothing(s, x);
    } else {
      var a' := StepKeeps(s, a, x);
      PublishedLasts(s, a, x.e);
      X.CarefulIsFaithful(s.world, a, x.e);
      ArrivalSent(s.world, x.e);
      ArrivalNamed(s.world, x.e);
    }
  }

  lemma ArrivalSent(w: E.World, e: E.Event)
    requires E.Enabled(w, e)
    ensures e.Deliver? || e.Complete? ==> e.hash in w.sent
  {}

  lemma ArrivalNamed(w: E.World, e: E.Event)
    requires E.Enabled(w, e)
    ensures var before, after := w.recv.published, E.After(w, e).recv.published;
            (e.Deliver? || e.Complete?) && after != before ==> |after| > 0 && after[|after| - 1].from == e.from
  {
    if e.Deliver? {
      E.DatagramParses(w.recv, w.sent[e.hash], e.i, e.loan, e.now, e.from);
      PublishedAsItCame(w.recv, w.sent[e.hash].Header(e.i), w.sent[e.hash].Segs()[e.i].data, e.loan, e.now, false, e.from);
    } else if e.Complete? {
      PublishedAsItCame(w.recv, w.sent[e.hash].Header(e.i), [], Refused, 0, false, e.from);
    }
    hide Receive, ReceiveBytes, ReleaseBuffer, E.Shipment.Segs, E.Shipment.Header, E.Shipment.Bytes;
  }

  lemma OthersPublishNothing(s: Pool, x: Step)
    requires Enabled(s, x) && !x.Do?
    ensures After(s, x).world.recv == s.world.recv && Lasts(s.world.recv, s.world.recv)
  {
    if x.Mangled? {
      MangledChangesNothing(s, x);
    }
  }

  lemma {:induction false} InvIsSafe(s: Pool, a: E.Aux, xs: seq<Step>, t: Pool, x: Step)
    requires Inv(s, a) && Leads(s, xs, t) && Enabled(t, x) && Careful(t, x)
    ensures Faithful(t, x)
    decreases |xs|
  {
    hide Inv, After, Enabled, Careful, Faithful;
    if xs == [] {
      CarefulIsFaithful(s, a, x);
    } else {
      var a' := StepKeeps(s, a, xs[0]);
      InvIsSafe(After(s, xs[0]), a', xs[1..], t, x);
    }
  }

  lemma CarefulIsSafe(s: Pool, a: E.Aux, x: Step)
    requires Inv(s, a) && Enabled(s, x) && Careful(s, x)
    ensures Safe(After(s, x))
  {
    hide Inv, After, Enabled, Careful, Faithful, Leads;
    var a' := StepKeeps(s, a, x);
    forall xs: seq<Step>, t: Pool, y: Step | Leads(After(s, x), xs, t) && Enabled(t, y) && Careful(t, y)
      ensures Faithful(t, y)
    {
      InvIsSafe(After(s, x), a', xs, t, y);
    }
  }

  // ---------- runs put together ----------

  lemma {:induction false} LeadsOn(s: Pool, xs: seq<Step>, t: Pool, ys: seq<Step>, u: Pool)
    requires Leads(s, xs, t) && Leads(t, ys, u)
    ensures Leads(s, xs + ys, u)
    decreases |xs|
  {
    hide After, Enabled, Careful;
    if xs == [] {
      assert xs + ys == ys;
    } else {
      LeadsOn(After(s, xs[0]), xs[1..], t, ys, u);
      assert (xs + ys)[1..] == xs[1..] + ys;
    }
  }

  lemma LeadsOne(s: Pool, x: Step)
    requires Enabled(s, x) && Careful(s, x)
    ensures Leads(s, [x], After(s, x))
  {
    hide After, Enabled, Careful;
    assert Leads(After(s, x), [x][1..], After(s, x));
  }

  lemma UnsafeBack(s: Pool, xs: seq<Step>, t: Pool)
    requires Leads(s, xs, t) && !Safe(t)
    ensures !Safe(s)
  {
    hide Leads, Enabled, Careful, Faithful;
    var ys: seq<Step>, u: Pool, x: Step :| Leads(t, ys, u) && Enabled(u, x) && Careful(u, x) && !Faithful(u, x);
    LeadsOn(s, xs, t, ys, u);
  }

  // ---------- events in which no memory moves ----------

  /** No transfer but those of g writes into one of these chunks, which have all been given up. */
  ghost predicate Spared(w: E.World, chunks: set<ChunkId>, g: Option<Hash>) {
    && (forall c :: c in chunks ==> c in w.recv.chunks && GivenUp(w.recv.chunks[c]))
    && (forall h: Hash, i: nat :: (h, i) in w.dma && Some(h) != g ==>
          !w.dma[(h, i)].written ==> w.dma[(h, i)].chunk !in chunks)
  }

  function Plain(e: E.Event): Step {
    Do(e, None, Chunk(Held, [], [], 0))
  }

  lemma SparedOn(w: E.World, e: E.Event, chunks: set<ChunkId>, g: Option<Hash>)
    requires E.Enabled(w, e) && Conserved(w.recv) && Spared(w, chunks, g)
    ensures Spared(E.After(w, e), chunks, g)
  {
    EventConserves(w, e);
    var v := E.After(w, e);
    forall h: Hash, i: nat | (h, i) in v.dma && Some(h) != g && !v.dma[(h, i)].written
      ensures v.dma[(h, i)].chunk !in chunks
    {
      EventTransfers(w, e, h, i);
      hide E.After, E.Enabled;
    }
    hide E.After, E.Enabled, Conserved;
  }

  /** A mild event whose write, if it is one, goes where it is meant to. */
  lemma PlainStep(s: Pool, e: E.Event, chunks: set<ChunkId>, g: Option<Hash>)
    requires Base(s) && s.moved.Keys <= chunks && Spared(s.world, chunks, g)
    requires E.Enabled(s.world, e) && X.Mild(s.world, e) && (e.Write? ==> Some(e.hash) != g)
    ensures Enabled(s, Plain(e)) && Careful(s, Plain(e))
    ensures After(s, Plain(e)) == Pool(E.After(s.world, e), s.moved)
    ensures Base(After(s, Plain(e))) && Spared(E.After(s.world, e), chunks, g)
    ensures OwnersStay(s.world.recv, E.After(s.world, e).recv, if e.Write? then {s.world.dma[(e.hash, e.i)].chunk} else {})
  {
    assert !Astray(s, e);
    hide E.Careful, E.Shipment.Segs;
    BaseParts(s);
    SparedOn(s.world, e, chunks, g);
    EventConserves(s.world, e);
    hide E.Enabled, E.After, Base, Conserved;
    PlainBase(s, Plain(e));
  }

  lemma BaseParts(s: Pool)
    requires Base(s)
    ensures Conserved(s.world.recv)
  {}

  /** What a run leaves of a chunk that has been given up. */
  predicate Remains(r: Receiver, s: Receiver, c: ChunkId) {
    c in r.chunks && GivenUp(r.chunks[c]) ==>
      c in s.chunks && s.chunks[c].owner == r.chunks[c].owner && SameSizes(r.chunks[c], s.chunks[c])
  }

  /** A mild run of events is a careful run of steps. */
  lemma {:induction false} Lift(s: Pool, es: seq<E.Event>, v: E.World, chunks: set<ChunkId>, g: Option<Hash>, c: ChunkId)
    returns (xs: seq<Step>)
    requires Base(s) && s.moved.Keys <= chunks && Spared(s.world, chunks, g) && X.Leads(s.world, es, v)
    requires forall k :: 0 <= k < |es| && es[k].Write? ==> Some(es[k].hash) != g
    ensures Leads(s, xs, Pool(v, s.moved)) && Base(Pool(v, s.moved)) && Spared(v, chunks, g)
    ensures Remains(s.world.recv, v.recv, c)
    decreases |es|
  {
    hide Base, Spared, Enabled, Careful, After, E.Enabled, E.After, X.Mild;
    if es == [] {
      xs := [];
    } else {
      PlainStep(s, es[0], chunks, g);
      var t := Pool(E.After(s.world, es[0]), s.moved);
      var ys := Lift(t, es[1..], v, chunks, g, c);
      LeadsOne(s, Plain(es[0]));
      LeadsOn(s, [Plain(es[0])], t, ys, Pool(v, s.moved));
      xs := [Plain(es[0])] + ys;
    }
  }

  lemma MildUnfaithful(s: Pool, e: E.Event)
    requires Enabled(s, Plain(e)) && After(s, Plain(e)).world == E.After(s.world, e) && E.Enabled(s.world, e)
    ensures Faithful(s, Plain(e)) ==> X.Faithful(s.world, e)
  {
    hide E.After, Enabled, After, Lasts, E.Delivers;
  }

  /** So if mild events go wrong, careful steps do. */
  lemma WrongIsUnsafe(s: Pool)
    requires Base(s) && Spared(s.world, s.moved.Keys, None) && X.GoesWrong(s.world)
    ensures !Safe(s)
  {
    hide Base, Spared, Enabled, Careful, After, E.Enabled, E.After, X.Mild, X.Leads, Leads, Faithful, X.Faithful;
    var es: seq<E.Event>, v: E.World, e: E.Event :|
      X.Leads(s.world, es, v) && E.Enabled(v, e) && X.Mild(v, e) && !X.Faithful(v, e);
    var xs := Lift(s, es, v, s.moved.Keys, None, 0);
    var t := Pool(v, s.moved);
    PlainStep(t, e, s.moved.Keys, None);
    MildUnfaithful(t, e);
  }

  // ---------- a careless event of the kind that strands a message ----------

  /** After any step from a careful state nothing writes into memory that has moved. */
  lemma SparedAfter(s: Pool, a: E.Aux, x: Step)
    requires Inv(s, a) && Enabled(s, x) && x.Do?
    ensures Spared(After(s, x).world, After(s, x).moved.Keys, None) && After(s, x).world == E.After(s.world, x.e)
  {
    HomeNotAstray(s, a, x.e);
    BaseKeeps(s, x);
    var w, t := s.world, After(s, x);
    forall h: Hash, i: nat | (h, i) in t.world.dma && !t.world.dma[(h, i)].written
      ensures t.world.dma[(h, i)].chunk !in t.moved
    {
      EventTransfers(w, x.e, h, i);
      TransferSpared(s, a, x, h, i);
    }
    hide E.After, E.Enabled, E.Inv, Conserved, UsedSent;
  }

  /** A chunk in hand, or not loaned yet, has not moved and is not being reused. */
  lemma InHandSpared(s: Pool, x: Step, c: ChunkId)
    requires Base(s) && Enabled(s, x) && x.Do? && !Astray(s, x.e)
    requires c !in s.world.recv.chunks || !GivenUp(s.world.recv.chunks[c])
    ensures c !in After(s, x).moved
  {
    hide E.After, E.Enabled, Conserved, UsedSent;
  }

  lemma TransferSpared(s: Pool, a: E.Aux, x: Step, h: Hash, i: nat)
    requires Inv(s, a) && Enabled(s, x) && x.Do? && !Astray(s, x.e)
    requires (h, i) in After(s, x).world.dma && !After(s, x).world.dma[(h, i)].written
    requires var c := After(s, x).world.dma[(h, i)].chunk;
             || (Writing(s.world, h, i) && s.world.dma[(h, i)].chunk == c)
             || c !in s.world.recv.chunks
             || exists g :: g in s.world.recv.table && s.world.recv.table[g].chunk == c
    ensures After(s, x).world.dma[(h, i)].chunk !in After(s, x).moved
  {
    hide Enabled, After, E.Inv, Clean, Base;
    var c := After(s, x).world.dma[(h, i)].chunk;
    BaseParts(s);
    if Writing(s.world, h, i) {
      WritesHome(s, a, h, i);
    }
    if g :| g in s.world.recv.table && s.world.recv.table[g].chunk == c {
      EntryHeld(s.world.recv, g);
    }
    InHandSpared(s, x, c);
  }

  lemma CarelessUnsafe(s: Pool, a: E.Aux, x: Step)
    requires Inv(s, a) && |s.world.recv.table| <= MAX_SEGMENTED_MESSAGE_COUNT
    requires Enabled(s, x) && x.Do? && E.Enabled(s.world, x.e) && !E.Careful(s.world, x.e)
    ensures !Safe(After(s, x))
  {
    SparedAfter(s, a, x);
    BaseKeeps(s, x);
    hide E.Inv, Base, Clean, E.After, E.Enabled, Enabled, After, E.Careful, Spared, X.GoesWrong, Safe;
    X.CarelessGoesWrong(s.world, a, x.e);
    WrongIsUnsafe(After(s, x));
  }

  // ---------- a careless event that lets memory go while it is written into ----------

  /** A message of the same sizes that differs in every byte. */
  function Twin(s: E.Shipment, hash: Hash): E.Shipment {
    s.(m := s.m.(hash := hash, header := X.Flipped(s.m.header), payload := X.Flipped(s.m.payload)))
  }

  /** Messages of the same sizes are cut alike. */
  lemma {:induction false} CutAlike(m: Message, n: Message, max: nat, offset: nat, i: nat)
    requires max > 0 && |m.header| == |n.header| && |m.payload| == |n.payload| && offset <= |m.Content()|
    requires i < |Cuts(m, max, offset)|
    ensures i < |Cuts(n, max, offset)|
    ensures Cuts(n, max, offset)[i].offset == Cuts(m, max, offset)[i].offset
    ensures |Cuts(n, max, offset)[i].data| == |Cuts(m, max, offset)[i].data|
    decreases i
  {
    if i > 0 {
      var next := offset + |Cuts(m, max, offset)[0].data|;
      assert Cuts(m, max, offset)[i] == Cuts(m, max, next)[i - 1];
      CutAlike(m, n, max, next, i - 1);
      assert Cuts(n, max, offset)[i] == Cuts(n, max, next)[i - 1];
    }
  }

  lemma TwinProper(s: E.Shipment, hash: Hash)
    requires s.Proper()
    ensures Twin(s, hash).Proper() && |Twin(s, hash).Segs()| == |s.Segs()|
    ensures forall i :: 0 <= i < |s.Segs()| ==>
              && Twin(s, hash).Segs()[i].offset == s.Segs()[i].offset
              && |Twin(s, hash).Segs()[i].data| == |s.Segs()[i].data|
  {
    var m, n := s.m, Twin(s, hash).m;
    CutsCount(m, s.max, 0);
    CutsCount(n, s.max, 0);
    hide Cuts, Pieces;
    forall i: nat | i < |Segments(m, s.max)|
      ensures Segments(n, s.max)[i].offset == Segments(m, s.max)[i].offset < TWO32
      ensures |Segments(n, s.max)[i].data| == |Segments(m, s.max)[i].data|
    {
      CutAlike(m, n, s.max, 0, i);
    }
  }

  lemma FirstBytes(m: Message, p: Segment)
    requires 0 < |p.data| && p.offset + |p.data| <= |m.Content()| && p.data == m.Content()[p.offset..p.offset + |p.data|]
    ensures p.data[0] == if p.offset < |m.header| then m.header[p.offset] else m.payload[p.offset - |m.header|]
  {}

  lemma TwinByte(s: E.Shipment, hash: Hash, k: nat)
    requires s.Proper() && k < |s.Segs()|
    ensures Twin(s, hash).Proper() && k < |Twin(s, hash).Segs()|
    ensures var p, q := s.Segs()[k], Twin(s, hash).Segs()[k];
            q.offset == p.offset && 0 < |p.data| == |q.data| && q.data[0] != p.data[0]
  {
    TwinProper(s, hash);
    E.SegmentFacts(s, k);
    E.SegmentFacts(Twin(s, hash), k);
    FirstBytes(s.m, s.Segs()[k]);
    FirstBytes(Twin(s, hash).m, Twin(s, hash).Segs()[k]);
    hide E.Shipment.Segs, E.Shipment.Proper, E.Shipment.Header;
  }

  lemma NotBoth(buffer: seq<byte>, at: nat, data: seq<byte>, other: seq<byte>)
    requires 0 < |data| == |other| && data[0] != other[0]
    ensures !(E.InBuffer(buffer, at, data) && E.InBuffer(buffer, at, other))
  {
    if E.InBuffer(buffer, at, data) && E.InBuffer(buffer, at, other) {
      X.InBufferFirst(buffer, at, data);
      X.InBufferFirst(buffer, at, other);
      assert false;
    }
  }

  /** A chunk that holds a segment of the message does not hold that of its twin. */
  lemma TwinDiffers(c: Chunk, s: E.Shipment, hash: Hash, k: nat)
    requires s.Proper() && k < |s.Segs()| && E.SegHolds(c, s.m, s.Segs()[k])
    ensures Twin(s, hash).Proper() && k < |Twin(s, hash).Segs()|
    ensures !E.SegHolds(c, Twin(s, hash).m, Twin(s, hash).Segs()[k])
  {
    TwinByte(s, hash, k);
    var p, q, n := s.Segs()[k], Twin(s, hash).Segs()[k], |s.m.header|;
    hide E.Shipment.Segs, E.Shipment.Proper, E.Shipment.Header, E.InBuffer;
    if p.offset < n {
      NotBoth(c.userHeader, p.offset, p.data, q.data);
    } else {
      NotBoth(c.userPayload, p.offset - n, p.data, q.data);
    }
  }

  lemma OtherEntry(s: set<Hash>, g: Hash) returns (x: Hash)
    requires |s| > 1
    ensures x in s && x != g
  {
    if s <= {g} {
      SubsetSize(s, {g});
      assert false;
    }
    x :| x in s && x !in {g};
  }

  /** Some entry other than g's can be made to go. */
  lemma {:induction false} RoomFor(w: E.World, a: E.Aux, g: Hash) returns (es: seq<E.Event>, v: E.World, x: Hash, some: set<nat>)
    requires E.Inv(w, a) && |w.recv.table| == MAX_SEGMENTED_MESSAGE_COUNT
    ensures X.Leads(w, es, v) && E.Sound(v) && |v.recv.table| < MAX_SEGMENTED_MESSAGE_COUNT
    ensures X.Apart(w, v, x, some) && x in w.sent && x != g && X.WritesOnly(es, x)
  {
    hide E.Inv, X.Leads, X.Rest, E.Harmless, E.Shipment.Segs, X.Apart;
    E.InvSound(w, a);
    x := OtherEntry(w.recv.table.Keys, g);
    E.EntryFact(w, a, x);
    if !E.Harmless(w, x) {
      X.HarmfulOpen(w, a, x);
    }
    es, v, some := X.MakeRoom(w, x);
  }

  /** Segment k of g is being written into chunk c, which has been released and whose memory may be
      handed out; nothing but segments of g is written there. */
  ghost predicate Threat(s: Pool, g: Hash, k: nat, c: ChunkId) {
    && Base(s) && E.Sound(s.world) && E.IsSegment(s.world, g, k)
    && Writing(s.world, g, k) && s.world.dma[(g, k)].chunk == c
    && c !in s.moved && X.IsReleased(s.world, c) && E.SizesOk(s.world.recv.chunks[c], s.world.sent[g].m)
    && Spared(s.world, s.moved.Keys + {c}, Some(g))
  }

  /** A careful state's transfers into chunk c are all of one message, of the sizes of c. */
  lemma OneWriter(w: E.World, a: E.Aux, g: Hash, k: nat)
    requires E.Inv(w, a) && (g, k) in w.dma
    ensures var c := w.dma[(g, k)].chunk;
            && w.Proper() && E.IsSegment(w, g, k) && c in w.recv.chunks && E.SizesOk(w.recv.chunks[c], w.sent[g].m)
            && forall h: Hash, i: nat :: (h, i) in w.dma && w.dma[(h, i)].chunk == c ==> h == g
  {
    hide E.Shipment.Segs, E.SegHolds, E.SizesOk, Conserved, E.Mode, E.ChunkOk;
    E.TransferFact(w, a, g, k);
    var c := w.dma[(g, k)].chunk;
    forall h: Hash, i: nat | (h, i) in w.dma && w.dma[(h, i)].chunk == c ensures h == g {
      E.TransferFact(w, a, h, i);
    }
    assert E.ChunkOk(w, a, g, c);
    ChunkSizes(w, a, g, c);
  }

  lemma ChunkSizes(w: E.World, a: E.Aux, g: Hash, c: ChunkId)
    requires w.Proper() && g in w.sent && E.Mine(w, a, g, c) && E.ChunkOk(w, a, g, c)
    ensures E.SizesOk(w.recv.chunks[c], w.sent[g].m)
  {}

  /** A careful event that is not quiet leaves such a threat. */
  lemma {:induction false} Threatened(s: Pool, a: E.Aux, x: Step) returns (g: Hash, k: nat, c: ChunkId, b: E.Aux)
    requires Inv(s, a) && Enabled(s, x) && x.Do? && E.Enabled(s.world, x.e) && E.Careful(s.world, x.e)
    requires !Quiet(s.world, After(s, x).world)
    ensures Threat(After(s, x), g, k, c) && E.Inv(After(s, x).world, b)
  {
    SparedAfter(s, a, x);
    BaseKeeps(s, x);
    hide E.Inv, E.After, E.Careful, Base, Clean, Spared;
    b := E.StepKeeps(s.world, a, x.e);
    var t := After(s, x);
    g, k :| Writing(t.world, g, k) && X.IsReleased(t.world, t.world.dma[(g, k)].chunk)
            && !X.IsReleased(s.world, t.world.dma[(g, k)].chunk);
    c := t.world.dma[(g, k)].chunk;
    E.InvSound(t.world, b);
    OneWriter(t.world, b, g, k);
    hide After, Enabled, E.Enabled;
    SparedMore(t, g, k, c);
  }

  lemma SparedMore(t: Pool, g: Hash, k: nat, c: ChunkId)
    requires Spared(t.world, t.moved.Keys, None) && Writing(t.world, g, k) && t.world.dma[(g, k)].chunk == c
    requires X.IsReleased(t.world, c)
    requires forall h: Hash, i: nat :: (h, i) in t.world.dma && t.world.dma[(h, i)].chunk == c ==> h == g
    ensures Spared(t.world, t.moved.Keys + {c}, Some(g)) && c !in t.moved
  {}

  /** The threat stays while other messages are dealt with. */
  lemma ThreatStays(s: Pool, v: E.World, g: Hash, k: nat, c: ChunkId)
    requires Threat(s, g, k, c) && Base(Pool(v, s.moved)) && Spared(v, s.moved.Keys + {c}, Some(g)) && E.Sound(v)
    requires v.sent == s.world.sent && (g, k) in v.dma && v.dma[(g, k)] == s.world.dma[(g, k)]
    requires Remains(s.world.recv, v.recv, c)
    ensures Threat(Pool(v, s.moved), g, k, c)
  {
    hide Base, Spared, E.Shipment.Segs, E.Shipment.Proper;
  }

  lemma ApartTransfers(w: E.World, v: E.World, x: Hash, some: set<nat>, g: Hash, k: nat)
    requires X.Apart(w, v, x, some) && g != x && (g, k) in w.dma
    ensures v.sent == w.sent && (g, k) in v.dma && v.dma[(g, k)] == w.dma[(g, k)]
  {}

  /** Room is made in the table. */
  lemma {:induction false} ThreatRoom(s: Pool, a: E.Aux, g: Hash, k: nat, c: ChunkId) returns (xs: seq<Step>, t: Pool)
    requires Threat(s, g, k, c) && E.Inv(s.world, a) && |s.world.recv.table| <= MAX_SEGMENTED_MESSAGE_COUNT
    ensures Leads(s, xs, t) && Threat(t, g, k, c) && |t.world.recv.table| < MAX_SEGMENTED_MESSAGE_COUNT
    ensures t.world.sent == s.world.sent
  {
    if |s.world.recv.table| < MAX_SEGMENTED_MESSAGE_COUNT {
      xs, t := [], s;
    } else {
      var es, v, x, some := RoomFor(s.world, a, g);
      ApartTransfers(s.world, v, x, some, g, k);
      hide E.Inv, X.Leads, X.Apart, E.Sound, Leads, Base, Spared, E.SizesOk, E.IsSegment;
      xs := Lift(s, es, v, s.moved.Keys + {c}, Some(g), c);
      t := Pool(v, s.moved);
      ThreatStays(s, v, g, k, c);
    }
  }

  lemma OpenFacts(w: E.World, service: ClassHash)
    requires E.Sound(w)
    ensures var e := E.Open(service);
            && E.Enabled(w, e) && X.Mild(w, e)
            && E.After(w, e) == w.(recv := OpenChannel(w.recv, service)) && E.Sound(E.After(w, e))
  {}

  lemma {:induction false} ThreatOpen(s: Pool, g: Hash, k: nat, c: ChunkId, service: ClassHash) returns (x: Step)
    requires Threat(s, g, k, c)
    ensures Enabled(s, x) && Careful(s, x) && Threat(After(s, x), g, k, c)
    ensures After(s, x) == s.(world := s.world.(recv := OpenChannel(s.world.recv, service)))
  {
    var e := E.Open(service);
    OpenFacts(s.world, service);
    hide E.Enabled, E.After, X.Mild, Base, Spared, E.Sound, E.IsSegment, E.SizesOk, Enabled, Careful, After;
    PlainStep(s, e, s.moved.Keys + {c}, Some(g));
    x := Plain(e);
    RemainsOne(s.world.recv, E.After(s.world, e).recv, {}, c);
    ThreatStays(s, E.After(s.world, e), g, k, c);
  }

  lemma RemainsOne(r: Receiver, r': Receiver, but: set<ChunkId>, c: ChunkId)
    requires OwnersStay(r, r', but)
    ensures Remains(r, r', c)
  {}

  /** The twin of the message is sent. */
  lemma {:induction false} ThreatSend(s: Pool, g: Hash, k: nat, c: ChunkId, h: Hash) returns (x: Step)
    requires Threat(s, g, k, c) && h !in s.world.sent
    ensures Enabled(s, x) && Careful(s, x) && Threat(After(s, x), g, k, c)
    ensures After(s, x) == s.(world := s.world.(sent := s.world.sent[h := Twin(s.world.sent[g], h)]))
    ensures Twin(s.world.sent[g], h).Proper() && |Twin(s.world.sent[g], h).Segs()| == |s.world.sent[g].Segs()|
  {
    hide E.Shipment.Segs, E.Shipment.Proper, Conserved, Spared;
    TwinProper(s.world.sent[g], h);
    x := Send(h, Twin(s.world.sent[g], h));
    BaseKeeps(s, x);
    SpareSend(s.world, After(s, x).world, s.moved.Keys + {c}, Some(g));
  }

  lemma SpareSend(w: E.World, v: E.World, chunks: set<ChunkId>, g: Option<Hash>)
    requires Spared(w, chunks, g) && v.recv == w.recv && v.dma == w.dma
    ensures Spared(v, chunks, g)
  {}

  /** The victim: a message h like g, sent but not begun, with room and an open channel. */
  ghost predicate Victim(s: Pool, g: Hash, k: nat, c: ChunkId, h: Hash) {
    && Threat(s, g, k, c) && h != g && h in s.world.sent && s.world.sent[h] == Twin(s.world.sent[g], h)
    && (forall i: nat :: (h, i) !in s.world.used && (h, i) !in s.world.dma)
    && h !in s.world.recv.table && |s.world.recv.table| < MAX_SEGMENTED_MESSAGE_COUNT
    && s.world.sent[h].m.serviceHash in s.world.recv.channels
  }

  /** The victim's chunk d has the memory that segment k of g is being written into, and holds the
      victim's segments in `done`; all that is there otherwise is g's. */
  ghost predicate Trapped(s: Pool, g: Hash, k: nat, c: ChunkId, h: Hash, d: ChunkId, done: set<nat>) {
    && Base(s) && X.Rest(s.world, h, done) && h != g && s.world.recv.table[h].chunk == d
    && E.IsSegment(s.world, g, k) && E.IsSegment(s.world, h, k) && k !in done
    && s.world.sent[h] == Twin(s.world.sent[g], h)
    && Writing(s.world, g, k) && s.world.dma[(g, k)].chunk == c
    && (h, k) in s.world.dma && s.world.dma[(h, k)].chunk == d
    && c in s.moved && s.moved[c] == d
    && c in s.world.recv.chunks && GivenUp(s.world.recv.chunks[c]) && E.SizesOk(s.world.recv.chunks[c], s.world.sent[g].m)
    && d in s.world.recv.chunks && E.SizesOk(s.world.recv.chunks[d], s.world.sent[h].m)
    && Spared(s.world, s.moved.Keys, Some(g))
  }

  /** A first buffer request when there is room. */
  lemma RequestFacts(w: E.World, h: Hash, k: nat, loan: Loan)
    requires E.Sound(w) && E.IsSegment(w, h, k) && h !in w.recv.table && |w.recv.table| < MAX_SEGMENTED_MESSAGE_COUNT
    requires forall i: nat :: (h, i) !in w.used && (h, i) !in w.dma
    requires w.sent[h].m.serviceHash in w.recv.channels && loan.Granted? && ValidLoan(w.recv, w.sent[h].Header(k), loan)
    ensures var e, v := E.Request(h, k, loan, 0), E.Asked(E.Admit(w, h, k, loan, 0), h, k);
            && E.Enabled(w, e) && X.Mild(w, e) && E.After(w, e) == v && X.Rest(v, h, {})
            && v.recv.chunks == w.recv.chunks[loan.id := NewChunk(loan)] && v.recv.table[h].chunk == loan.id
            && v.sent == w.sent && v.dma == w.dma[(h, k) := E.Transfer(loan.id, false)]
  {
    var s := w.sent[h];
    E.SegmentFacts(s, k);
    hide E.Shipment.Segs, E.Shipment.Header, E.Harmless;
    E.PushAfterLoan(w, h, k, loan, 0);
    var v := E.Asked(E.Admit(w, h, k, loan, 0), h, k);
    forall i: nat | E.IsSegment(v, h, i) ensures X.Waiting(v, h, i) {}
  }

  lemma TakeEnabled(s: Pool, e: E.Event, v: E.World, c: ChunkId)
    requires Base(s) && Free(s, c) && e.Request? && e.loan.Granted? && e.loan.id !in s.world.recv.chunks
    requires E.Enabled(s.world, e) && X.Mild(s.world, e) && E.After(s.world, e) == v && e.loan.id in v.recv.chunks
    ensures var x := Do(e, Some(c), Chunk(Held, [], [], 0));
            Enabled(s, x) && Careful(s, x) && After(s, x) == Pool(v, MoveOn(s.moved, c, e.loan.id))
  {
    hide E.Enabled, E.After, E.Careful, Base, MoveOn;
  }

  lemma SparedTake(w: E.World, v: E.World, chunks: set<ChunkId>, g: Hash, h: Hash, k: nat, loan: Loan)
    requires Spared(w, chunks, Some(g)) && loan.Granted? && loan.id !in w.recv.chunks
    requires v.recv.chunks == w.recv.chunks[loan.id := NewChunk(loan)]
    requires v.dma == w.dma[(h, k) := E.Transfer(loan.id, false)]
    ensures Spared(v, chunks, Some(g))
  {}

  lemma TwinLoan(s: E.Shipment, h: Hash, k: nat, r: Receiver, loan: Loan)
    requires s.Proper() && k < |s.Segs()| && loan.Granted? && loan.id !in r.chunks
    requires loan.userHeader == s.m.header && loan.userPayload == s.m.payload
    ensures Twin(s, h).Proper() && k < |Twin(s, h).Segs()| && ValidLoan(r, Twin(s, h).Header(k), loan)
    ensures !E.SegHolds(NewChunk(loan), Twin(s, h).m, Twin(s, h).Segs()[k])
    ensures E.SizesOk(NewChunk(loan), Twin(s, h).m)
  {
    TwinProper(s, h);
    E.SegmentFacts(Twin(s, h), k);
    X.DeliveredHolds(NewChunk(loan), s, k);
    TwinDiffers(NewChunk(loan), s, h, k);
  }

  lemma IsTrapped(s: Pool, v: E.World, g: Hash, k: nat, c: ChunkId, h: Hash, loan: Loan)
    requires Victim(s, g, k, c, h) && loan.Granted? && loan.id !in s.world.recv.chunks
    requires X.Rest(v, h, {}) && v.recv.chunks == s.world.recv.chunks[loan.id := NewChunk(loan)] && v.recv.table[h].chunk == loan.id
    requires v.sent == s.world.sent && v.dma == s.world.dma[(h, k) := E.Transfer(loan.id, false)]
    requires E.IsSegment(s.world, h, k) && E.SizesOk(NewChunk(loan), s.world.sent[h].m)
    requires Base(Pool(v, MoveOn(s.moved, c, loan.id)))
    ensures Trapped(Pool(v, MoveOn(s.moved, c, loan.id)), g, k, c, h, loan.id, {})
  {
    hide Base, E.Shipment.Segs, E.Shipment.Proper, X.Rest, Twin, Spared, E.SizesOk;
    SparedTake(s.world, v, s.moved.Keys + {c}, g, h, k, loan);
    assert MoveOn(s.moved, c, loan.id).Keys == s.moved.Keys + {c};
  }

  lemma RestProper(w: E.World, h: Hash, done: set<nat>)
    requires X.Rest(w, h, done)
    ensures E.Sound(w) && h in w.sent && h in w.recv.table
  {}

  /** The victim's first buffer request gets that memory. */
  lemma {:induction false} TakeMemory(s: Pool, g: Hash, k: nat, c: ChunkId, h: Hash) returns (x: Step, d: ChunkId)
    requires Victim(s, g, k, c, h)
    ensures Enabled(s, x) && Careful(s, x) && Trapped(After(s, x), g, k, c, h, d, {})
    ensures !E.SegHolds(After(s, x).world.recv.chunks[d], After(s, x).world.sent[h].m, After(s, x).world.sent[h].Segs()[k])
  {
    var w, m := s.world, s.world.sent[g].m;
    d := X.FreshId(w.recv.chunks.Keys);
    var loan := Granted(d, m.header, m.payload);
    TwinLoan(w.sent[g], h, k, w.recv, loan);
    var e, v := E.Request(h, k, loan, 0), E.Asked(E.Admit(w, h, k, loan, 0), h, k);
    RequestFacts(w, h, k, loan);
    hide E.Shipment.Segs, E.Shipment.Proper, E.Shipment.Header, E.SegHolds, E.SizesOk, E.Enabled, E.After, X.Mild, X.Rest,
         Base, Spared, Enabled, Careful, After, Twin, E.Sound, MoveOn;
    TakeEnabled(s, e, v, c);
    x := Do(e, Some(c), Chunk(Held, [], [], 0));
    BaseKeeps(s, x);
    IsTrapped(s, v, g, k, c, h, loan);
  }

  lemma ApartBoth(w: E.World, v: E.World, h: Hash, some: set<nat>, g: Hash, k: nat)
    requires X.Apart(w, v, h, some) && g != h && k !in some && (g, k) in w.dma && (h, k) in w.dma
    ensures v.sent == w.sent && (g, k) in v.dma && v.dma[(g, k)] == w.dma[(g, k)]
    ensures (h, k) in v.dma && v.dma[(h, k)] == w.dma[(h, k)] && v.recv.chunks.Keys == w.recv.chunks.Keys
  {}

  /** All segments of the victim but k are completed. */
  lemma {:induction false} FillVictim(s: Pool, g: Hash, k: nat, c: ChunkId, h: Hash, d: ChunkId)
    returns (xs: seq<Step>, t: Pool, all: set<nat>)
    requires Trapped(s, g, k, c, h, d, {})
    requires !E.SegHolds(s.world.recv.chunks[d], s.world.sent[h].m, s.world.sent[h].Segs()[k])
    ensures Leads(s, xs, t) && Trapped(t, g, k, c, h, d, all) && t.world.recv.table[h].remaining == 1
  {
    var es, u, some;
    es, u, all, some := X.AllButLast(s.world, h, {}, k);
    ApartBoth(s.world, u, h, some, g, k);
    X.MendedNot(s.world, u, h, d, k);
    NotMendedSizes(s.world, u, h, d, k);
    hide X.Leads, X.Rest, X.Apart, X.NotMended, E.Sound, E.SizesOk, E.SegHolds, E.Shipment.Segs, E.Shipment.Proper,
         Leads, Base, Spared, Twin;
    xs := Lift(s, es, u, s.moved.Keys, Some(g), c);
    t := Pool(u, s.moved);
    RestProper(u, h, all);
    RemainsSizes(s.world.recv, u.recv, c, s.world.sent[g].m);
  }

  lemma NotMendedSizes(w: E.World, v: E.World, h: Hash, d: ChunkId, k: nat)
    requires w.Proper() && E.IsSegment(w, h, k) && X.NotMended(w, v, h, d, k)
    requires d in w.recv.chunks && E.SizesOk(w.recv.chunks[d], w.sent[h].m)
    requires !E.SegHolds(w.recv.chunks[d], w.sent[h].m, w.sent[h].Segs()[k])
    ensures d in v.recv.chunks && E.SizesOk(v.recv.chunks[d], w.sent[h].m)
  {}

  lemma RemainsSizes(r: Receiver, r': Receiver, c: ChunkId, m: Message)
    requires Remains(r, r', c) && c in r.chunks && GivenUp(r.chunks[c]) && E.SizesOk(r.chunks[c], m)
    ensures c in r'.chunks && GivenUp(r'.chunks[c]) && E.SizesOk(r'.chunks[c], m)
  {}

  /** Segment k of the victim is written where it belongs. */
  lemma {:induction false} WriteVictim(s: Pool, g: Hash, k: nat, c: ChunkId, h: Hash, d: ChunkId, all: set<nat>)
    returns (xs: seq<Step>, t: Pool)
    requires Trapped(s, g, k, c, h, d, all) && s.world.recv.table[h].remaining == 1
    ensures Leads(s, xs, t) && Trapped(t, g, k, c, h, d, all) && t.world.recv.table[h].remaining == 1
    ensures t.world.dma[(h, k)].written
  {
    if s.world.dma[(h, k)].written {
      xs, t := [], s;
    } else {
      var e := E.Write(h, k);
      X.WriteStep(s.world, h, all, k);
      X.WrittenRest(s.world, h, all, k, k);
      var v := E.Marked(E.Placed(s.world, h, k, d), h, k);
      WrittenSizes(s.world, h, k, d, c, g);
      hide E.Shipment.Segs, E.Shipment.Proper, E.SegHolds, E.SizesOk, E.Enabled, E.After, X.Mild, X.Rest, E.Placed, E.Marked,
           Enabled, Careful, After, Base, Spared, Twin, X.Apart, X.NotMended;
      PlainStep(s, e, s.moved.Keys, Some(g));
      LeadsOne(s, Plain(e));
      xs, t := [Plain(e)], Pool(v, s.moved);
      RestProper(v, h, all);
    }
  }

  lemma WrittenSizes(w: E.World, h: Hash, k: nat, d: ChunkId, c: ChunkId, g: Hash)
    requires w.Proper() && E.IsSegment(w, h, k) && (h, k) in w.dma && d in w.recv.chunks && c in w.recv.chunks && g != h
    ensures var v := E.Marked(E.Placed(w, h, k, d), h, k);
            && v.sent == w.sent && v.recv.chunks.Keys == w.recv.chunks.Keys && v.recv.table == w.recv.table
            && (forall i: nat :: (g, i) in w.dma ==> (g, i) in v.dma && v.dma[(g, i)] == w.dma[(g, i)])
            && (h, k) in v.dma && v.dma[(h, k)].written && v.dma[(h, k)].chunk == w.dma[(h, k)].chunk
            && (forall id: ChunkId, m: Message :: id in w.recv.chunks && E.SizesOk(w.recv.chunks[id], m) ==>
                  E.SizesOk(v.recv.chunks[id], m))
            && (forall id: ChunkId :: id in w.recv.chunks ==> v.recv.chunks[id].owner == w.recv.chunks[id].owner)
  {
    hide E.Shipment.Segs, E.Shipment.Header, E.Shipment.Proper, Place;
  }

  /** The old write hits the victim. */
  lemma {:induction false} Hit(s: Pool, g: Hash, k: nat, c: ChunkId, h: Hash, d: ChunkId, all: set<nat>)
    returns (x: Step, t: Pool)
    requires Trapped(s, g, k, c, h, d, all) && s.world.recv.table[h].remaining == 1 && s.world.dma[(h, k)].written
    ensures Enabled(s, x) && Careful(s, x) && t == After(s, x) && t.moved == s.moved
    ensures X.Rest(t.world, h, all) && t.world.recv.table[h].remaining == 1 && t.world.recv.table[h].chunk == d
    ensures E.IsSegment(t.world, h, k) && (h, k) in t.world.dma && t.world.dma[(h, k)].written && d in t.world.recv.chunks
    ensures !E.SegHolds(t.world.recv.chunks[d], t.world.sent[h].m, t.world.sent[h].Segs()[k])
  {
    var w := s.world;
    RestProper(w, h, all);
    TwinProper(w.sent[g], h);
    var spill := TakeNext(w.recv.chunks[d], w.sent[g].Header(k), w.sent[g].Segs()[k].data);
    var e := E.Write(g, k);
    x := Do(e, None, spill);
    HitEnabled(s, g, k, c, d, spill);
    t := After(s, x);
    TwinSizes(w.recv.chunks[d], w.sent[g], h);
    E.TakeNextPlaces(w.recv.chunks[d], w.sent[g], k);
    TwinDiffers(spill, w.sent[g], h, k);
    StrayRest(w, h, all, g, k, d, spill);
    hide Enabled, Careful, After, Base, Spared, E.Shipment.Segs, E.Shipment.Header, E.SegHolds, E.SizesOk, X.Rest, Twin, TakeNext;
  }

  lemma TwinSizes(d: Chunk, s: E.Shipment, h: Hash)
    requires E.SizesOk(d, Twin(s, h).m)
    ensures E.SizesOk(d, s.m)
  {}

  lemma HitEnabled(s: Pool, g: Hash, k: nat, c: ChunkId, d: ChunkId, spill: Chunk)
    requires E.Sound(s.world) && E.IsSegment(s.world, g, k) && Writing(s.world, g, k) && s.world.dma[(g, k)].chunk == c
    requires c in s.moved && s.moved[c] == d && c in s.world.recv.chunks && d in s.world.recv.chunks
    requires spill == TakeNext(s.world.recv.chunks[d], s.world.sent[g].Header(k), s.world.sent[g].Segs()[k].data)
    ensures var x := Do(E.Write(g, k), None, spill);
            && Enabled(s, x) && Careful(s, x)
            && After(s, x) == s.(world := Stray(s.world, g, k, d, spill))
  {
    hide E.Shipment.Segs, E.Shipment.Header, Place, E.Shipment.Proper;
  }

  lemma StrayRest(w: E.World, h: Hash, all: set<nat>, g: Hash, k: nat, d: ChunkId, spill: Chunk)
    requires X.Rest(w, h, all) && g != h && Writing(w, g, k) && d in w.recv.chunks
    ensures X.Rest(Stray(w, g, k, d, spill), h, all)
  {
    hide E.Shipment.Segs, E.Shipment.Proper;
    var v := Stray(w, g, k, d, spill);
    forall i: nat | E.IsSegment(v, h, i) && i !in all ensures X.Waiting(v, h, i) {
      assert X.Waiting(w, h, i);
    }
  }

  /** And the victim's last completion publishes it. */
  lemma {:induction false} PublishVictim(s: Pool, k: nat, h: Hash, d: ChunkId, all: set<nat>) returns (x: Step)
    requires X.Rest(s.world, h, all) && s.world.recv.table[h].remaining == 1 && s.world.recv.table[h].chunk == d
    requires E.IsSegment(s.world, h, k) && k !in all && (h, k) in s.world.dma && s.world.dma[(h, k)].written
    requires d in s.world.recv.chunks
    requires !E.SegHolds(s.world.recv.chunks[d], s.world.sent[h].m, s.world.sent[h].Segs()[k])
    ensures Enabled(s, x) && Careful(s, x) && !Faithful(s, x)
  {
    var from := DeviceIndex(PCIE, 0);
    var e := E.Complete(h, k, from);
    X.CompleteStep(s.world, h, all, k, from);
    X.CompletedLast(s.world, h, all, k, from);
    hide X.Rest, E.Shipment.Segs, E.SegHolds, E.Enabled, E.After, X.Mild, X.Apart;
    X.PublishesWrongly(s.world, h, k, d);
    x := Plain(e);
    MildCareful(s, e);
    MildUnfaithful(s, e);
  }

  lemma MildCareful(s: Pool, e: E.Event)
    requires E.Enabled(s.world, e) && X.Mild(s.world, e) && !e.Write?
    ensures Enabled(s, Plain(e)) && Careful(s, Plain(e)) && After(s, Plain(e)).world == E.After(s.world, e)
  {
    hide E.Enabled, E.After, E.Careful;
  }

  lemma HitUnsafe(s: Pool, g: Hash, k: nat, c: ChunkId, h: Hash, d: ChunkId, all: set<nat>)
    requires Trapped(s, g, k, c, h, d, all) && s.world.recv.table[h].remaining == 1 && s.world.dma[(h, k)].written
    ensures !Safe(s)
  {
    var y, z := Hit(s, g, k, c, h, d, all);
    assert k !in all;
    hide Trapped, Enabled, Careful, After, Faithful, E.Shipment.Segs, E.SegHolds, X.Rest;
    LeadsOne(s, y);
    var last := PublishVictim(z, k, h, d, all);
    assert Leads(s, [y], z);
  }

  lemma VictimEnds(s: Pool, g: Hash, k: nat, c: ChunkId, h: Hash, d: ChunkId, all: set<nat>)
    requires Trapped(s, g, k, c, h, d, all) && s.world.recv.table[h].remaining == 1
    ensures !Safe(s)
  {
    var ys, v := WriteVictim(s, g, k, c, h, d, all);
    hide Leads, Safe;
    HitUnsafe(v, g, k, c, h, d, all);
    UnsafeBack(s, ys, v);
  }

  lemma VictimUnsafe(s: Pool, g: Hash, k: nat, c: ChunkId, h: Hash)
    requires Victim(s, g, k, c, h)
    ensures !Safe(s)
  {
    var x, d := TakeMemory(s, g, k, c, h);
    var t := After(s, x);
    LeadsOne(s, x);
    hide Victim, Trapped, Threat, Enabled, Careful, After, Leads, Faithful, E.Shipment.Segs, E.SegHolds, X.Rest, Safe;
    var xs, u, all := FillVictim(t, g, k, c, h, d);
    LeadsOn(s, [x], t, xs, u);
    VictimEnds(u, g, k, c, h, d, all);
    UnsafeBack(s, [x] + xs, u);
  }

  /** A message not sent has no part in anything. */
  lemma NotBegun(s: Pool, h: Hash)
    requires Base(s) && h !in s.world.sent
    ensures forall i: nat :: (h, i) !in s.world.used && (h, i) !in s.world.dma
    ensures h !in s.world.recv.table
  {}

  lemma {:induction false} VictimReady(s: Pool, g: Hash, k: nat, c: ChunkId, h: Hash) returns (xs: seq<Step>, u: Pool)
    requires Threat(s, g, k, c) && h !in s.world.sent && |s.world.recv.table| < MAX_SEGMENTED_MESSAGE_COUNT
    ensures Leads(s, xs, u) && Victim(u, g, k, c, h)
  {
    hide Enabled, Careful, After, Leads, Threat, E.Shipment.Proper;
    assert E.IsSegment(s.world, g, k) && Base(s) by { ThreatParts(s, g, k, c); }
    NotBegun(s, h);
    var service := s.world.sent[g].m.serviceHash;
    var x := ThreatOpen(s, g, k, c, service);
    var t := After(s, x);
    LeadsOne(s, x);
    var y := ThreatSend(t, g, k, c, h);
    u := After(t, y);
    LeadsOne(t, y);
    LeadsOn(s, [x], t, [y], u);
    xs := [x] + [y];
    hide Base;
  }

  lemma ThreatParts(s: Pool, g: Hash, k: nat, c: ChunkId)
    requires Threat(s, g, k, c)
    ensures Base(s) && s.world.Proper() && E.IsSegment(s.world, g, k)
  {}

  /** Memory let go while it is written into leads to a wrong publication, as long as a message can
      still be sent. */
  lemma ThreatUnsafe(s: Pool, a: E.Aux, g: Hash, k: nat, c: ChunkId, h: Hash)
    requires Threat(s, g, k, c) && E.Inv(s.world, a) && |s.world.recv.table| <= MAX_SEGMENTED_MESSAGE_COUNT
    requires h !in s.world.sent
    ensures !Safe(s)
  {
    var xs, t := ThreatRoom(s, a, g, k, c);
    var ys, u := VictimReady(t, g, k, c, h);
    hide Threat, Victim, Leads, Safe, E.Inv;
    VictimUnsafe(u, g, k, c, h);
    UnsafeBack(t, ys, u);
    UnsafeBack(s, xs, t);
  }

  // ---------- the exact condition ----------

  ghost predicate MoreToSend(s: Pool) {
    exists h: Hash :: h !in s.world.sent
  }

  lemma CarefulExactly(s: Pool, a: E.Aux, x: Step)
    requires Inv(s, a) && |s.world.recv.table| <= MAX_SEGMENTED_MESSAGE_COUNT && Enabled(s, x)
    ensures Careful(s, x) ==> Safe(After(s, x))
    ensures MoreToSend(s) && Safe(After(s, x)) ==> Careful(s, x)
  {
    if Careful(s, x) {
      hide Inv, Enabled, Careful, After, Safe;
      CarefulIsSafe(s, a, x);
    } else if !E.Careful(s.world, x.e) {
      hide Inv, E.Enabled, E.Careful, After, Safe;
      CarelessUnsafe(s, a, x);
    } else if h: Hash :| h !in s.world.sent {
      SparedAfter(s, a, x);
      X.StepFits(s.world, x.e);
      X.SentKept(s.world, x.e);
      hide Inv, E.Enabled, E.Careful, E.After, After, Safe, Threat, Quiet;
      var g, k, c, b := Threatened(s, a, x);
      ThreatUnsafe(After(s, x), b, g, k, c, h);
    }
  }

  lemma {:induction false} RunFits(ss: seq<Pool>, xs: seq<Step>)
    requires Run(ss, xs)
    ensures |ss[|xs|].world.recv.table| <= MAX_SEGMENTED_MESSAGE_COUNT
    decreases |xs|
  {
    if xs != [] {
      var n := |xs| - 1;
      RunFits(ss[..n + 1], xs[..n]);
      StepFits(ss[n], xs[n]);
      hide After, Enabled, Careful;
    }
  }

  lemma StepFits(s: Pool, x: Step)
    requires Enabled(s, x) && |s.world.recv.table| <= MAX_SEGMENTED_MESSAGE_COUNT
    ensures |After(s, x).world.recv.table| <= MAX_SEGMENTED_MESSAGE_COUNT
  {
    hide E.Enabled, E.After;
    if x.Mangled? {
      MangledChangesNothing(s, x);
    } else if x.Do? && !Astray(s, x.e) {
      X.StepFits(s.world, x.e);
    }
  }

  /** The end-to-end guarantee, exactly: after any careful run, a step keeps it for all careful runs to
      come if it is careful; and if it is not, it does not, as long as some message is still to be sent. */
  lemma GuaranteeHoldsExactly(ss: seq<Pool>, xs: seq<Step>, x: Step)
    requires Run(ss, xs) && Enabled(ss[|xs|], x)
    ensures var s := ss[|xs|];
            && (Careful(s, x) ==> Safe(After(s, x)))
            && (MoreToSend(s) ==> (Careful(s, x) <==> Safe(After(s, x))))
  {
    hide After, Enabled, Careful, Safe, Inv, Init, MoreToSend;
    var a := RunInv(ss, xs);
    RunFits(ss, xs);
    CarefulExactly(ss[|xs|], a, x);
  }
}

/** What the guarantee asks of each event before it happens; and what is delivered, beyond what is
    published being right: a message that nothing disturbs is published exactly when all its segments
    are over. */
module Delivery {
  import opened Types
  import opened DataWriter
  import opened Reassembly
  import opened EndToEnd
  import opened EndToEndExact
  import M = MemoryPool

  // ---------- what the guarantee asks ----------

  /** A run in which nobody takes care. */
  ghost predicate AnyRun(ss: seq<M.Pool>, xs: seq<M.Step>) {
    && |ss| == |xs| + 1
    && M.Init(ss[0])
    && forall k :: 0 <= k < |xs| ==> M.Enabled(ss[k], xs[k]) && ss[k + 1] == M.After(ss[k], xs[k])
  }

  lemma NoTransferHarmless(w: World, e: Event)
    requires Enabled(w, e) && w.dma == map[] && !e.Request?
    ensures Careful(w, e) && After(w, e).dma == map[]
  {
    hide Shipment.Segs, Shipment.Header, Shipment.Bytes, ReceiveBytes, Discard, Detach, GiveBack;
  }

  lemma NoTransferCareful(s: M.Pool, x: M.Step)
    requires M.Enabled(s, x) && s.world.dma == map[] && !(x.Do? && x.e.Request?)
    ensures M.Careful(s, x) && M.After(s, x).world.dma == map[]
  {
    if x.Do? {
      NoTransferHarmless(s.world, x.e);
      hide Enabled, After, Careful;
    } else if x.Mangled? {
      M.MangledChangesNothing(s, x);
    }
  }

  /** Messages that arrive by copy need no care, not even room in the table: without a buffer
      request every step of a run is careful, so what it publishes are sent messages. */
  lemma {:induction false} CopiesNeedNoCare(ss: seq<M.Pool>, xs: seq<M.Step>)
    requires AnyRun(ss, xs) && forall x :: x in xs ==> !(x.Do? && x.e.Request?)
    ensures M.Run(ss, xs) && ss[|xs|].world.dma == map[]
    decreases |xs|
  {
    hide M.Enabled, M.Careful, M.After;
    if xs != [] {
      var n := |xs| - 1;
      CopiesNeedNoCare(ss[..n + 1], xs[..n]);
      assert xs[n] in xs;
      NoTransferCareful(ss[n], xs[n]);
    }
  }

  /** No segment but perhaps this one is being written into chunk c. */
  ghost predicate NoneInto(w: World, c: ChunkId, but: Option<(Hash, nat)>) {
    forall h: Hash, i: nat :: M.Writing(w, h, i) && w.dma[(h, i)].chunk == c ==> Some((h, i)) == but
  }

  /** Care, in terms of the state before the event. */
  ghost predicate Care(w: World, e: Event)
    requires Enabled(w, e)
  {
    match e
    case Request(h, i, loan, _) =>
      || h in w.recv.table || w.sent[h].m.serviceHash !in w.recv.channels || loan.Refused?
      || |w.recv.table| < MAX_SEGMENTED_MESSAGE_COUNT
    case Abort(h, i, _) =>
      h in w.recv.table && w.sent[h].m.serviceHash in w.recv.channels ==>
        NoneInto(w, w.recv.table[h].chunk, Some((h, i)))
    case Expire(h, _) => Harmless(w, h)
    case ReleaseExpired(id) => NoneInto(w, id, None)
    case Close(service) =>
      forall h :: h in w.recv.table && w.recv.table[h].service == service ==>
        Harmless(w, h) && NoneInto(w, w.recv.table[h].chunk, None)
    case _ => true
  }

  /** The chunks in `released`, and no others, are released by the event. */
  ghost predicate Releases(w: World, v: World, released: set<ChunkId>) {
    forall id :: IsReleased(v, id) && !IsReleased(w, id) <==> id in released
  }

  lemma CloseReleases(w: World, service: ClassHash)
    requires Conserved(w.recv) && Enabled(w, Close(service))
    ensures Releases(w, After(w, Close(service)), ChunksOf(w.recv, Gone(w.recv, service)))
    ensures After(w, Close(service)).dma == w.dma
  {
    hide HeldHasEntry, GivenUpOnce, PublishedOnce, Shipment.Segs;
  }

  lemma AbortReleases(w: World, e: Event)
    requires Conserved(w.recv) && Enabled(w, e) && e.Abort?
    ensures After(w, e).dma == w.dma - {(e.hash, e.i)}
    ensures Releases(w, After(w, e),
                     if e.hash in w.recv.table && w.sent[e.hash].m.serviceHash in w.recv.channels
                     then {w.recv.table[e.hash].chunk} else {})
  {
    SegmentFacts(w.sent[e.hash], e.i);
    hide HeldHasEntry, GivenUpOnce, PublishedOnce, Shipment.Segs, Shipment.Header;
  }

  lemma QuietMeans(w: World, v: World, released: set<ChunkId>)
    requires Releases(w, v, released)
    ensures M.Quiet(w, v) <==> forall h: Hash, i: nat :: M.Writing(v, h, i) ==> v.dma[(h, i)].chunk !in released
  {
    if M.Quiet(w, v) {
      forall h: Hash, i: nat | M.Writing(v, h, i) ensures v.dma[(h, i)].chunk !in released {
        assert IsReleased(v, v.dma[(h, i)].chunk) ==> IsReleased(w, v.dma[(h, i)].chunk);
      }
    }
  }

  lemma PlainCare(s: M.Pool, a: Aux, x: M.Step)
    requires M.Inv(s, a) && M.Enabled(s, x) && x.Do?
    ensures Enabled(s.world, x.e) && M.After(s, x).world == After(s.world, x.e)
    ensures M.Careful(s, x) <==> Careful(s.world, x.e) && M.Quiet(s.world, After(s.world, x.e))
  {
    M.HomeNotAstray(s, a, x.e);
    hide After, Enabled, Careful, M.Inv, M.Quiet;
  }

  lemma CloseCare(w: World, e: Event)
    requires Conserved(w.recv) && Enabled(w, e) && e.Close?
    ensures Careful(w, e) && M.Quiet(w, After(w, e)) <==> Care(w, e)
  {
    var v, released := After(w, e), ChunksOf(w.recv, Gone(w.recv, e.service));
    CloseReleases(w, e.service);
    QuietMeans(w, v, released);
    hide After, Conserved, Harmless, M.Quiet, Releases;
    assert forall h :: h in w.recv.table && w.recv.table[h].service == e.service ==> h in Gone(w.recv, e.service);
    assert forall c :: c in released ==>
      exists h :: h in w.recv.table && w.recv.table[h].service == e.service && w.recv.table[h].chunk == c;
    NoneIntoAll(w, released);
    hide Gone, ChunksOf;
  }

  lemma NoneIntoAll(w: World, chunks: set<ChunkId>)
    ensures (forall h: Hash, i: nat :: M.Writing(w, h, i) ==> w.dma[(h, i)].chunk !in chunks)
       <==> (forall c :: c in chunks ==> NoneInto(w, c, None))
  {
    if forall c :: c in chunks ==> NoneInto(w, c, None) {
      forall h: Hash, i: nat | M.Writing(w, h, i) ensures w.dma[(h, i)].chunk !in chunks {
        assert !NoneInto(w, w.dma[(h, i)].chunk, None);
      }
    }
  }

  lemma AbortCare(w: World, e: Event)
    requires Conserved(w.recv) && Enabled(w, e) && e.Abort?
    ensures Careful(w, e) && M.Quiet(w, After(w, e)) <==> Care(w, e)
  {
    var v := After(w, e);
    AbortReleases(w, e);
    QuietMeans(w, v, if e.hash in w.recv.table && w.sent[e.hash].m.serviceHash in w.recv.channels
                     then {w.recv.table[e.hash].chunk} else {});
    assert Careful(w, e);
    hide After, Conserved, M.Quiet, Releases, Careful, Shipment.Segs;
    assert forall h: Hash, i: nat :: M.Writing(v, h, i) <==> M.Writing(w, h, i) && (h, i) != (e.hash, e.i);
  }

  lemma ExpiryCare(w: World, e: Event)
    requires Enabled(w, e) && (e.ReleaseExpired? || e.Expire?)
    ensures Careful(w, e) && M.Quiet(w, After(w, e)) <==> Care(w, e)
  {
    var v := After(w, e);
    var released := if e.Expire? then {} else {e.id};
    assert Releases(w, v, released) && v.dma == w.dma;
    QuietMeans(w, v, released);
    hide After, M.Quiet, Releases, Harmless, Shipment.Segs;
  }

  lemma LoanBufferReleases(r: Receiver, d: DatagramHeader, loan: Loan, now: int)
    requires Closed(r) && ValidLoan(r, d, loan)
    ensures var (v, buffer) := LoanBuffer(r, d, loan, now);
            if d.messageHash in r.table || d.serviceHash !in r.channels || loan.Refused? || |r.table| < MAX_SEGMENTED_MESSAGE_COUNT
            then (buffer.Some? ==> d.messageHash in v.table)
                 && forall id :: id in v.chunks && v.chunks[id].owner == Released ==> id in r.chunks && r.chunks[id].owner == Released
            else buffer == Some(loan.id) && loan.id !in r.chunks && loan.id in v.chunks && v.chunks[loan.id].owner == Released
  {}

  lemma RequestCare(w: World, e: Event)
    requires Enabled(w, e) && e.Request? && (e.hash, e.i) !in w.dma
    ensures Careful(w, e) && M.Quiet(w, After(w, e)) <==> Care(w, e)
  {
    var v := After(w, e);
    SegmentFacts(w.sent[e.hash], e.i);
    LoanBufferReleases(w.recv, w.sent[e.hash].Header(e.i), e.loan, e.now);
    hide LoanBuffer, Shipment.Segs, Shipment.Header, Harmless;
    if !Care(w, e) {
      assert M.Writing(v, e.hash, e.i) && IsReleased(v, v.dma[(e.hash, e.i)].chunk);
      assert !IsReleased(w, v.dma[(e.hash, e.i)].chunk);
    }
  }

  lemma OtherReleases(w: World, e: Event, id: ChunkId)
    requires Conserved(w.recv) && Enabled(w, e) && (e.Deliver? || e.Write? || e.Complete? || e.Open?)
    ensures IsReleased(After(w, e), id) && id in w.recv.chunks ==> IsReleased(w, id)
  {
    hide Shipment.Segs, Shipment.Header, Receive, ReceiveBytes, TakeNext, HeldHasEntry, GivenUpOnce, PublishedOnce;
    if e.Deliver? {
      DatagramParses(w.recv, w.sent[e.hash], e.i, e.loan, e.now, e.from);
      ReceiveReleases(w.recv, w.sent[e.hash].Header(e.i), w.sent[e.hash].Segs()[e.i].data, e.loan, e.now, e.from, id);
    }
  }

  lemma ReceiveReleases(r: Receiver, d: DatagramHeader, data: seq<byte>, loan: Loan, now: int, from: DeviceIndex, id: ChunkId)
    requires Conserved(r) && Closed(r) && ValidLoan(r, d, loan)
    ensures var v := Receive(r, d, data, loan, now, from);
            id in r.chunks && id in v.chunks && v.chunks[id].owner == Released ==> r.chunks[id].owner == Released
  {
    hide TakeNext, HeldHasEntry, GivenUpOnce, PublishedOnce;
  }

  lemma OtherCare(w: World, a: Aux, e: Event)
    requires Inv(w, a) && Enabled(w, e) && (e.Deliver? || e.Write? || e.Complete? || e.Open?)
    ensures Careful(w, e) && M.Quiet(w, After(w, e))
  {
    var v := After(w, e);
    InvConserved(w, a);
    forall h: Hash, i: nat | M.Writing(v, h, i) && IsReleased(v, v.dma[(h, i)].chunk)
      ensures IsReleased(w, v.dma[(h, i)].chunk)
    {
      M.EventTransfers(w, e, h, i);
      M.NotPublished(w, a, h, i);
      OtherReleases(w, e, v.dma[(h, i)].chunk);
    }
    hide After, Enabled, Inv, Bookkeeping, Conserved;
  }

  /** A step is careful if and only if its event was before it happened: a buffer request has an entry,
      no channel, no loan or room; what is released is not being written into; and an entry that goes
      leaves no transfer that could be taken for one of a later entry. */
  lemma CarefulMeans(ss: seq<M.Pool>, xs: seq<M.Step>, x: M.Step)
    requires M.Run(ss, xs) && x.Do? && M.Enabled(ss[|xs|], x)
    ensures Enabled(ss[|xs|].world, x.e) && (M.Careful(ss[|xs|], x) <==> Care(ss[|xs|].world, x.e))
  {
    hide M.Init, M.After, M.Enabled, M.Careful, M.Quiet, After, Enabled, Careful, Care, M.Inv;
    var a := M.RunInv(ss, xs);
    var s := ss[|xs|];
    PlainCare(s, a, x);
    CareOf(s.world, a, x.e) by { InvOf(s, a); }
  }

  lemma InvOf(s: M.Pool, a: Aux)
    requires M.Inv(s, a)
    ensures Inv(s.world, a)
  {}

  lemma CareOf(w: World, a: Aux, e: Event)
    requires Inv(w, a) && Enabled(w, e)
    ensures Careful(w, e) && M.Quiet(w, After(w, e)) <==> Care(w, e)
  {
    InvConserved(w, a);
    match e
    case Request(h, i, _, _) =>
      UnusedFirst(w, e);
      NoTransfer(w, a, h, i);
      hide M.Quiet, After, Enabled, Careful, Care, Inv;
      RequestCare(w, e);
    case Abort(_, _, _) => AbortCare(w, e);
    case Expire(_, _) => ExpiryCare(w, e);
    case ReleaseExpired(_) => ExpiryCare(w, e);
    case Close(_) => CloseCare(w, e);
    case _ => OtherCare(w, a, e);
  }

  lemma UnusedFirst(w: World, e: Event)
    requires Enabled(w, e) && (e.Request? || e.Deliver?)
    ensures IsSegment(w, e.hash, e.i) && (e.hash, e.i) !in w.used
  {}

  // ---------- a message that nothing disturbs ----------

  /** The event does not take from message h what it needs: its entry and its channel stay, the loan
      for it is granted and finds room, and its datagrams pass the length check. */
  ghost predicate Undisturbing(w: World, e: Event, h: Hash)
    requires Enabled(w, e)
  {
    && h in w.sent
    && match e
       case Deliver(g, i, loan, _, _) =>
         g == h ==>
           && |w.sent[h].Segs()[i].data| + 44 < TWO32
           && (h !in w.recv.table ==>
                 loan.Granted? && (|w.sent[h].Segs()| == 1 || |w.recv.table| < MAX_SEGMENTED_MESSAGE_COUNT))
       case Request(g, _, loan, _) =>
         g == h && h !in w.recv.table ==> loan.Granted? && |w.recv.table| < MAX_SEGMENTED_MESSAGE_COUNT
       case Abort(g, _, _) => g != h
       case Expire(g, _) => g != h
       case Close(service) => service != w.sent[h].m.serviceHash
       case _ => true
  }

  /** The segments of h, of n, that are over. */
  ghost function Over(w: World, h: Hash, n: nat): set<nat> {
    set k: nat | k < n && Finished(w, h, k)
  }

  ghost predicate PublishedAs(w: World, a: Aux, h: Hash, k: nat) {
    k < |w.recv.published| && w.recv.published[k].chunk in a.msgOf && a.msgOf[w.recv.published[k].chunk] == h
  }

  ghost predicate Out(w: World, a: Aux, h: Hash) {
    exists k: nat :: PublishedAs(w, a, h, k)
  }

  /** Message h is untouched, or its entry waits for exactly the segments that are not over, or it
      is out. */
  ghost predicate Progress(w: World, a: Aux, h: Hash)
    requires w.Proper() && h in w.sent
  {
    || (h !in w.recv.table && forall k: nat :: (h, k) !in w.used)
    || (h in w.recv.table && w.recv.table[h].remaining + |Over(w, h, |w.sent[h].Segs()|)| == |w.sent[h].Segs()|)
    || Out(w, a, h)
  }

  /** The step leaves the entry and the segments of h as they are. */
  ghost predicate Leaves(w: World, v: World, h: Hash) {
    && (h in w.recv.table <==> h in v.recv.table)
    && (h in w.recv.table ==> w.recv.table[h] == v.recv.table[h])
    && (forall k: nat :: (h, k) in w.used <==> (h, k) in v.used)
    && (forall k: nat :: (h, k) in w.dma <==> (h, k) in v.dma)
  }

  lemma LeavesOver(w: World, v: World, h: Hash, n: nat)
    requires Leaves(w, v, h)
    ensures Over(w, h, n) == Over(v, h, n)
  {}

  lemma ReceiveOther(r: Receiver, d: DatagramHeader, data: seq<byte>, loan: Loan, now: int, from: DeviceIndex, h: Hash)
    requires Closed(r) && d.messageHash != h
    ensures var v := Receive(r, d, data, loan, now, from);
            && (h in v.table <==> h in r.table) && (h in r.table ==> v.table[h] == r.table[h])
  {
    hide TakeNext;
  }

  lemma OtherDeliver(w: World, e: Event, h: Hash)
    requires Enabled(w, e) && e.Deliver? && e.hash != h
    ensures Leaves(w, After(w, e), h)
  {
    hide Receive, ReceiveBytes, Shipment.Segs, Shipment.Header;
    var s := w.sent[e.hash];
    SegmentFacts(s, e.i);
    DatagramParses(w.recv, s, e.i, e.loan, e.now, e.from);
    ReceiveOther(w.recv, s.Header(e.i), s.Segs()[e.i].data, e.loan, e.now, e.from, h);
  }

  lemma OtherRequest(w: World, e: Event, h: Hash)
    requires Enabled(w, e) && e.Request? && e.hash != h
    ensures Leaves(w, After(w, e), h)
  {
    hide Shipment.Segs, Shipment.Header;
    SegmentFacts(w.sent[e.hash], e.i);
  }

  lemma OtherRelease(w: World, a: Aux, e: Event, h: Hash)
    requires Inv(w, a) && Enabled(w, e) && (e.Complete? || e.Abort?) && e.hash != h
    ensures Leaves(w, After(w, e), h)
  {
    hide InvBut, Shipment.Segs, Shipment.Header;
    TransferFact(w, a, e.hash, e.i);
    CompleteShape(w, e);
    hide After;
  }

  lemma OtherClose(w: World, a: Aux, e: Event, h: Hash)
    requires Inv(w, a) && Enabled(w, e) && e.Close? && h in w.sent && e.service != w.sent[h].m.serviceHash
    ensures Leaves(w, After(w, e), h)
  {
    hide InvBut, Shipment.Segs, Shipment.Header;
    if h in w.recv.table {
      EntryFact(w, a, h);
    }
  }

  /** An event about another message, or about no message, leaves h alone. */
  lemma OtherLeaves(w: World, a: Aux, e: Event, h: Hash)
    requires Inv(w, a) && Enabled(w, e) && Undisturbing(w, e, h)
    requires !((e.Deliver? || e.Request? || e.Complete?) && e.hash == h)
    ensures Leaves(w, After(w, e), h)
  {
    hide Inv, Shipment.Segs, Shipment.Header, Shipment.Bytes, TakeNext, Receive, ReceiveBytes, LoanBuffer, ReleaseBuffer, Discard;
    match e
    case Deliver(_, _, _, _, _) => OtherDeliver(w, e, h);
    case Request(_, _, _, _) => OtherRequest(w, e, h);
    case Complete(_, _, _) => OtherRelease(w, a, e, h);
    case Abort(_, _, _) => OtherRelease(w, a, e, h);
    case Close(_) => OtherClose(w, a, e, h);
    case _ =>
  }

  // ---------- each event keeps the progress ----------

  lemma OneMoreOver(w: World, v: World, h: Hash, i: nat, n: nat)
    requires i < n && !Finished(w, h, i) && Finished(v, h, i)
    requires forall k: nat :: k != i ==> (Finished(w, h, k) <==> Finished(v, h, k))
    ensures |Over(v, h, n)| == |Over(w, h, n)| + 1
  {
    assert Over(v, h, n) == Over(w, h, n) + {i};
  }

  /** The entry of h counts segment i down; if it was the last one, h is published. */
  lemma CountsDown(w: World, v: World, a: Aux, a': Aux, h: Hash, i: nat, r: Receiver, from: DeviceIndex)
    requires Inv(w, a) && IsSegment(w, h, i) && h in w.recv.table && v.sent == w.sent
    requires r.table == w.recv.table && r.published == w.recv.published && Closed(r)
    requires v.recv == CountDown(r, h, w.sent[h].m.serviceHash, from)
    requires !Finished(w, h, i) && Finished(v, h, i)
    requires forall k: nat :: k != i ==> (Finished(w, h, k) <==> Finished(v, h, k))
    requires Progress(w, a, h) && (Out(w, a, h) ==> Out(v, a', h))
    requires w.recv.table[h].chunk in a'.msgOf && a'.msgOf[w.recv.table[h].chunk] == h
    ensures v.Proper() && Progress(v, a', h)
  {
    hide InvBut, Shipment.Segs, Finished;
    EntryFact(w, a, h);
    OneMoreOver(w, v, h, i, |w.sent[h].Segs()|);
    if Completes(r, h) {
      assert PublishedAs(v, a', h, |w.recv.published|);
    }
  }

  /** What has been published stays so, under the same name. */
  lemma OutStays(w: World, a: Aux, e: Event, a': Aux, h: Hash)
    requires Inv(w, a) && Enabled(w, e) && Names(w, a, e, a') && Out(w, a, h)
    requires w.recv.published <= After(w, e).recv.published
    ensures Out(After(w, e), a', h)
  {
    hide After, Inv, Enabled;
    var k: nat :| PublishedAs(w, a, h, k);
    PublishedOld(w, a, e, k);
    assert PublishedAs(After(w, e), a', h, k);
  }

  lemma PublishedOld(w: World, a: Aux, e: Event, k: nat)
    requires Inv(w, a) && Enabled(w, e) && k < |w.recv.published|
    ensures w.recv.published[k].chunk in w.recv.chunks
    ensures (e.Deliver? || e.Request?) && e.loan.Granted? ==> e.loan.id !in w.recv.chunks
  {}

  /** What happens to the rest of h when segment i is delivered or its transfer completes. */
  lemma OnlyThisOver(w: World, v: World, h: Hash, i: nat)
    requires (h, i) !in w.used || (h, i) in w.dma
    requires v.used == w.used + {(h, i)} && v.dma == w.dma - {(h, i)}
    ensures !Finished(w, h, i) && Finished(v, h, i)
    ensures forall k: nat :: k != i ==> (Finished(w, h, k) <==> Finished(v, h, k))
  {}

  lemma DeliverEnabled(w: World, e: Event)
    requires Enabled(w, e) && e.Deliver?
    ensures Sound(w) && IsSegment(w, e.hash, e.i) && (e.hash, e.i) !in w.used && Closed(w.recv)
    ensures var s := w.sent[e.hash];
            |s.Segs()[e.i].data| + 44 < TWO32 ==>
              After(w, e) == w.(recv := Receive(w.recv, s.Header(e.i), s.Segs()[e.i].data, e.loan, e.now, e.from),
                                used := w.used + {(e.hash, e.i)})
  {
    DatagramTakenExactly(w.recv, w.sent[e.hash], e.i, e.loan, e.now, e.from);
    hide Receive, ReceiveBytes, Shipment.Segs, Shipment.Header, Shipment.Bytes;
  }

  lemma DeliverShape(w: World, a: Aux, e: Event)
    requires Inv(w, a) && Enabled(w, e) && e.Deliver? && Undisturbing(w, e, e.hash)
    ensures IsSegment(w, e.hash, e.i) && (e.hash, e.i) !in w.used && Closed(w.recv)
    ensures var s := w.sent[e.hash];
            After(w, e) == Finish(w, e.hash, e.i).(recv :=
              Receive(w.recv, s.Header(e.i), s.Segs()[e.i].data, e.loan, e.now, e.from))
  {
    hide After, Inv, Receive, ReceiveBytes, Shipment.Segs, Shipment.Header, Shipment.Bytes;
    DeliverEnabled(w, e);
    NoTransfer(w, a, e.hash, e.i);
  }

  /** The first segment of h starts its entry with the count of the others, or, when there are no
      others, publishes h. */
  lemma FirstArrives(w: World, e: Event)
    requires Sound(w) && e.Deliver? && IsSegment(w, e.hash, e.i)
    requires var s := w.sent[e.hash];
             && e.hash !in w.recv.table && e.loan.Granted? && s.m.serviceHash in w.recv.channels
             && (|s.Segs()| == 1 || |w.recv.table| < MAX_SEGMENTED_MESSAGE_COUNT)
    ensures var s := w.sent[e.hash];
            var r := Receive(w.recv, s.Header(e.i), s.Segs()[e.i].data, e.loan, e.now, e.from);
            if |s.Segs()| == 1 then
              |r.published| == |w.recv.published| + 1 && r.published[|w.recv.published|].chunk == e.loan.id
            else e.hash in r.table && r.table[e.hash].remaining == |s.Segs()| - 1
  {
    hide Shipment.Segs, Shipment.Header, TakeNext;
    SegmentFacts(w.sent[e.hash], e.i);
  }

  lemma DeliverProgress(w: World, a: Aux, e: Event, a': Aux)
    requires Inv(w, a) && Enabled(w, e) && e.Deliver? && Undisturbing(w, e, e.hash) && Names(w, a, e, a')
    requires w.sent[e.hash].m.serviceHash in w.recv.channels && Progress(w, a, e.hash)
    ensures After(w, e).sent == w.sent && Progress(After(w, e), a', e.hash)
  {
    hide Inv, Shipment.Segs, Shipment.Header, Shipment.Bytes, Receive, ReceiveBytes, Out, Finished;
    var h, i, v := e.hash, e.i, After(w, e);
    var s := w.sent[h];
    DeliverShape(w, a, e);
    PublishedGrows(w, a, e);
    InvSound(w, a);
    NoTransfer(w, a, h, i);
    OnlyThisOver(w, v, h, i);
    if Out(w, a, h) {
      OutStays(w, a, e, a', h);
    } else if h in w.recv.table {
      EntryNamed(w, a, h);
      NameKept(w, a, e, a', w.recv.table[h].chunk);
      ReceiveCounts(w, e);
      CountsDown(w, v, a, a', h, i, Copy(w.recv, w.recv.table[h].chunk, s.Header(i), s.Segs()[i].data), e.from);
    } else {
      FirstArrives(w, e);
      FirstOver(w, v, h, i);
      if |s.Segs()| == 1 {
        assert PublishedAs(v, a', h, |w.recv.published|);
        Witnessed(v, a', h, |w.recv.published|);
      }
    }
  }

  lemma Witnessed(w: World, a: Aux, h: Hash, k: nat)
    requires PublishedAs(w, a, h, k)
    ensures Out(w, a, h)
  {}

  lemma FirstOver(w: World, v: World, h: Hash, i: nat)
    requires w.Proper() && IsSegment(w, h, i) && Finished(v, h, i)
    requires forall k: nat :: (h, k) !in w.used
    requires forall k: nat :: k != i ==> (Finished(w, h, k) <==> Finished(v, h, k))
    ensures |Over(v, h, |w.sent[h].Segs()|)| == 1
  {
    hide Shipment.Segs;
    assert Over(v, h, |w.sent[h].Segs()|) == {i};
  }

  lemma NameKept(w: World, a: Aux, e: Event, a': Aux, id: ChunkId)
    requires Inv(w, a) && Enabled(w, e) && Names(w, a, e, a') && id in w.recv.chunks && id in a.msgOf
    ensures id in a'.msgOf && a'.msgOf[id] == a.msgOf[id]
  {
    hide Inv, After, Shipment.Segs, Shipment.Header;
  }

  lemma ReceiveCounts(w: World, e: Event)
    requires Sound(w) && e.Deliver? && IsSegment(w, e.hash, e.i) && e.hash in w.recv.table
    requires w.sent[e.hash].m.serviceHash in w.recv.channels
    ensures var s := w.sent[e.hash];
            var r := Copy(w.recv, w.recv.table[e.hash].chunk, s.Header(e.i), s.Segs()[e.i].data);
            && Closed(r)
            && Receive(w.recv, s.Header(e.i), s.Segs()[e.i].data, e.loan, e.now, e.from)
               == CountDown(r, e.hash, s.m.serviceHash, e.from)
  {
    hide Shipment.Segs, Shipment.Header, TakeNext, CountDown;
    SegmentFacts(w.sent[e.hash], e.i);
  }

  /** A request that finds an entry or room leaves the count of segments as it is. */
  lemma RequestShape(w: World, e: Event)
    requires Sound(w) && Enabled(w, e) && e.Request? && Undisturbing(w, e, e.hash)
    requires w.sent[e.hash].m.serviceHash in w.recv.channels
    ensures var h, v := e.hash, After(w, e);
            && v.sent == w.sent && v.used == w.used + {(h, e.i)} && v.dma.Keys == w.dma.Keys + {(h, e.i)}
            && h in v.recv.table && v.recv.published == w.recv.published
            && v.recv.table[h].remaining == if h in w.recv.table then w.recv.table[h].remaining else |w.sent[h].Segs()|
  {
    hide Shipment.Segs, Shipment.Header;
    SegmentFacts(w.sent[e.hash], e.i);
  }

  lemma RequestProgress(w: World, a: Aux, e: Event, a': Aux)
    requires Inv(w, a) && Enabled(w, e) && e.Request? && Undisturbing(w, e, e.hash) && Names(w, a, e, a')
    requires w.sent[e.hash].m.serviceHash in w.recv.channels && Progress(w, a, e.hash)
    ensures After(w, e).sent == w.sent && Progress(After(w, e), a', e.hash)
  {
    hide Inv, Shipment.Segs, Shipment.Header, Out, Finished, After;
    var h, i, v := e.hash, e.i, After(w, e);
    InvSound(w, a);
    NoTransfer(w, a, h, i);
    RequestShape(w, e);
    PublishedGrows(w, a, e);
    if Out(w, a, h) {
      OutStays(w, a, e, a', h);
    } else {
      NothingMoreOver(w, v, h, i, |w.sent[h].Segs()|);
      if h !in w.recv.table {
        NothingOver(w, h, |w.sent[h].Segs()|);
      }
    }
  }

  lemma NothingMoreOver(w: World, v: World, h: Hash, i: nat, n: nat)
    requires (h, i) !in w.used && v.used == w.used + {(h, i)} && v.dma.Keys == w.dma.Keys + {(h, i)}
    ensures Over(v, h, n) == Over(w, h, n)
  {}

  lemma NothingOver(w: World, h: Hash, n: nat)
    requires forall k: nat :: (h, k) !in w.used
    ensures Over(w, h, n) == {}
  {}

  lemma CompleteProgress(w: World, a: Aux, e: Event, a': Aux)
    requires Inv(w, a) && Enabled(w, e) && e.Complete? && Names(w, a, e, a')
    requires e.hash in w.sent && w.sent[e.hash].m.serviceHash in w.recv.channels && Progress(w, a, e.hash)
    ensures After(w, e).sent == w.sent && Progress(After(w, e), a', e.hash)
  {
    hide InvBut, Shipment.Segs, Shipment.Header, Out, Finished, ReleaseBuffer, CountDown;
    var h, i, v := e.hash, e.i, After(w, e);
    TransferKnown(w, a, e);
    CompleteShape(w, e);
    PublishedGrows(w, a, e);
    OnlyThisOver(w, v, h, i);
    if Out(w, a, h) {
      OutStays(w, a, e, a', h);
    } else {
      EntryNamed(w, a, h);
      NameKept(w, a, e, a', w.recv.table[h].chunk);
      CountsDown(w, v, a, a', h, i, w.recv, e.from);
    }
  }

  lemma LeavesProgress(w: World, a: Aux, e: Event, a': Aux, h: Hash)
    requires Inv(w, a) && Enabled(w, e) && Names(w, a, e, a') && h in w.sent
    requires Leaves(w, After(w, e), h) && Progress(w, a, h)
    ensures After(w, e).sent == w.sent && Progress(After(w, e), a', h)
  {
    hide Inv, After, Enabled, Names, Shipment.Segs, Out;
    InvSound(w, a);
    SentKept(w, e);
    PublishedGrows(w, a, e);
    LeavesOver(w, After(w, e), h, |w.sent[h].Segs()|);
    if Out(w, a, h) {
      OutStays(w, a, e, a', h);
    }
  }

  /** One event that does not disturb h. */
  lemma ProgressKeeps(w: World, a: Aux, e: Event, a': Aux, h: Hash)
    requires Inv(w, a) && Enabled(w, e) && Undisturbing(w, e, h) && Names(w, a, e, a')
    requires w.sent[h].m.serviceHash in w.recv.channels && Progress(w, a, h)
    ensures After(w, e).sent == w.sent && Progress(After(w, e), a', h)
  {
    hide Inv, After, Enabled, Progress, Names;
    if e.Deliver? && e.hash == h {
      DeliverProgress(w, a, e, a');
    } else if e.Request? && e.hash == h {
      RequestProgress(w, a, e, a');
    } else if e.Complete? && e.hash == h {
      CompleteProgress(w, a, e, a');
    } else {
      OtherLeaves(w, a, e, h);
      LeavesProgress(w, a, e, a', h);
    }
  }

  // ---------- delivery ----------

  /** Once h is sent its channel is open, and no event disturbs h. */
  ghost predicate Undisturbed(ss: seq<M.Pool>, xs: seq<M.Step>, h: Hash)
    requires M.Run(ss, xs)
  {
    && (forall k :: 0 <= k < |ss| ==> OpenOnceSent(ss[k].world, h))
    && (forall k :: 0 <= k < |xs| && xs[k].Do? && h in ss[k].world.sent ==>
          Enabled(ss[k].world, xs[k].e) && Undisturbing(ss[k].world, xs[k].e, h))
  }

  predicate OpenOnceSent(w: World, h: Hash) {
    h in w.sent ==> w.sent[h].m.serviceHash in w.recv.channels
  }

  ghost predicate ProgressOnceSent(w: World, a: Aux, h: Hash) {
    w.Proper() && (h in w.sent ==> Progress(w, a, h))
  }

  /** A message just sent is untouched; what is sent otherwise changes nothing for h. */
  lemma SendProgress(s: M.Pool, a: Aux, x: M.Step, h: Hash)
    requires M.Inv(s, a) && M.Enabled(s, x) && x.Send? && ProgressOnceSent(s.world, a, h)
    ensures ProgressOnceSent(M.After(s, x).world, a, h)
  {
    hide Inv, M.Clean, Conserved, Shipment.Segs, Out;
    var w, v := s.world, M.After(s, x).world;
    SameOut(w, v, a, h);
    if h in w.sent {
      assert Leaves(w, v, h);
      LeavesOver(w, v, h, |w.sent[h].Segs()|);
    }
  }

  lemma SameOut(w: World, v: World, a: Aux, h: Hash)
    requires v.recv == w.recv
    ensures Out(w, a, h) ==> Out(v, a, h)
  {
    if k: nat :| PublishedAs(w, a, h, k) {
      assert PublishedAs(v, a, h, k);
    }
  }

  lemma {:induction false} RunProgress(ss: seq<M.Pool>, xs: seq<M.Step>, h: Hash) returns (a: Aux)
    requires M.Run(ss, xs) && Undisturbed(ss, xs, h)
    ensures M.Inv(ss[|xs|], a) && ProgressOnceSent(ss[|xs|].world, a, h)
    decreases |xs|
  {
    if xs == [] {
      a := M.InitInv(ss[0]);
      hide M.Inv;
    } else {
      hide M.Inv, M.After, M.Enabled, M.Careful, M.Init, Undisturbing, ProgressOnceSent, OpenOnceSent, Enabled;
      var n := |xs| - 1;
      var b := RunProgress(ss[..n + 1], xs[..n], h);
      a := ProgressStep(ss[n], b, xs[n], h);
    }
  }

  /** One careful step that does not disturb h. */
  lemma {:induction false} ProgressStep(s: M.Pool, a: Aux, x: M.Step, h: Hash) returns (a': Aux)
    requires M.Inv(s, a) && M.Enabled(s, x) && M.Careful(s, x) && ProgressOnceSent(s.world, a, h) && OpenOnceSent(s.world, h)
    requires x.Do? && h in s.world.sent ==> Enabled(s.world, x.e) && Undisturbing(s.world, x.e, h)
    ensures M.Inv(M.After(s, x), a') && ProgressOnceSent(M.After(s, x).world, a', h)
  {
    a' := M.StepKeeps(s, a, x);
    if x.Send? {
      SendProgress(s, a, x, h);
    } else if x.Mangled? {
      M.MangledChangesNothing(s, x);
    } else {
      SentKept(s.world, x.e);
      hide Inv, M.Base, M.Clean, M.Careful, Careful, Enabled, After, Undisturbing, Progress, Names;
      if h in s.world.sent {
        ProgressKeeps(s.world, a, x.e, a', h);
      }
    }
  }

  /** Every segment of h is over: copied, or written by DMA and completed. */
  ghost predicate AllOver(w: World, h: Hash)
    requires w.Proper()
  {
    forall i: nat :: IsSegment(w, h, i) ==> Finished(w, h, i)
  }

  lemma OverWhenPublished(w: World, a: Aux, h: Hash, k: nat)
    requires Inv(w, a) && PublishedAs(w, a, h, k)
    ensures w.Proper() && AllOver(w, h)
  {
    PublishedWhole(w, a, k);
    hide Delivers, SegHolds, Conserved, Shipment.Segs;
    assert ChunkOk(w, a, h, w.recv.published[k].chunk);
  }

  lemma {:induction false} CountTo(s: set<nat>, n: nat)
    requires forall i: nat :: i in s <==> i < n
    ensures |s| == n
  {
    if n == 0 {
      assert s == {};
    } else {
      CountTo(s - {n - 1}, n - 1);
    }
  }

  lemma PublishedWhenOver(w: World, a: Aux, h: Hash)
    requires Inv(w, a) && w.Proper() && h in w.sent && IsSegment(w, h, 0) && Progress(w, a, h) && AllOver(w, h)
    ensures Out(w, a, h)
  {
    hide InvBut, Shipment.Segs, Out;
    assert Finished(w, h, 0);
    if h in w.recv.table {
      var n := |w.sent[h].Segs()|;
      EntryFact(w, a, h);
      assert forall i: nat :: i < n ==> IsSegment(w, h, i);
      CountTo(Over(w, h, n), n);
    }
  }

  /** An undisturbed message with at least one byte has been published, once and in full, exactly
      when each of its segments is over; before that it has not been published at all. */
  lemma {:induction false} DeliveredExactly(ss: seq<M.Pool>, xs: seq<M.Step>, h: Hash) returns (which: seq<Hash>)
    requires M.Run(ss, xs) && Undisturbed(ss, xs, h)
    requires ss[|xs|].world.Proper() && IsSegment(ss[|xs|].world, h, 0)
    ensures var w := ss[|xs|].world;
            && |which| == |w.recv.published|
            && (forall k :: 0 <= k < |which| ==>
                  which[k] in w.sent && Delivers(w.recv, w.recv.published[k], w.sent[which[k]].m))
            && (forall j, k :: 0 <= j < k < |which| ==> which[j] != which[k])
            && (h in which <==> AllOver(w, h))
  {
    hide Inv, M.Base, M.Clean, Delivers, Facts, M.Init, M.After, M.Enabled, M.Careful, Undisturbed, Progress, AllOver, Finished,
         IsSegment;
    var a := RunProgress(ss, xs, h);
    var w := ss[|xs|].world;
    which := Origins(w, a);
    if h in which {
      var k :| 0 <= k < |which| && which[k] == h;
      OverWhenPublished(w, a, h, k);
    }
    if AllOver(w, h) {
      SegmentSent(w, h);
      PublishedWhenOver(w, a, h);
      var k: nat :| PublishedAs(w, a, h, k);
      assert which[k] == h;
    }
  }

  lemma SegmentSent(w: World, h: Hash)
    requires w.Proper() && IsSegment(w, h, 0)
    ensures h in w.sent
  {}
}

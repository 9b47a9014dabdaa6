/** What a careful event publishes is faithful; and after an event that takes a buffer away from a
    transfer under way, some run, itself careful, publishes a message with a segment missing. */
module EndToEndExact {
  import opened Types
  import opened DataWriter
  import opened Reassembly
  import opened EndToEnd

  /** What is published at a step is the message whose segment arrived, byte for byte. */
  ghost predicate Faithful(w: World, e: Event)
    requires Enabled(w, e)
  {
    var before, after := w.recv.published, After(w, e).recv.published;
    after != before ==>
      && (e.Deliver? || e.Complete?) && |after| > 0
      && Delivers(After(w, e).recv, after[|after| - 1], w.sent[e.hash].m)
  }

  /** The event is careful, and no chunk goes back to iceoryx unpublished. */
  ghost predicate Mild(w: World, e: Event)
    requires Enabled(w, e)
  {
    && Careful(w, e)
    && forall id :: IsReleased(After(w, e), id) ==> IsReleased(w, id)
  }

  predicate IsReleased(w: World, id: ChunkId) {
    id in w.recv.chunks && w.recv.chunks[id].owner == Released
  }

  /** Mild events lead from `w` to `v`. */
  ghost predicate Leads(w: World, es: seq<Event>, v: World)
    decreases |es|
  {
    if es == [] then v == w
    else Enabled(w, es[0]) && Mild(w, es[0]) && Leads(After(w, es[0]), es[1..], v)
  }

  /** Some mild run comes to a publication that is not faithful. */
  ghost predicate GoesWrong(w: World) {
    exists es: seq<Event>, v: World, e: Event ::
      Leads(w, es, v) && Enabled(v, e) && Mild(v, e) && !Faithful(v, e)
  }

  // ---------- careful events: every publication is faithful ----------

  /** A receive publishes the chunk of the message's entry, or the one it was granted. */
  lemma ReceivePublishes(r: Receiver, h: DatagramHeader, data: seq<byte>, loan: Loan, now: int, from: DeviceIndex)
    requires Closed(r)
    ensures var s := Receive(r, h, data, loan, now, from).published;
            s == r.published
            || (|s| == |r.published| + 1
                && s[|r.published|].chunk == if h.messageHash in r.table then r.table[h.messageHash].chunk
                                             else if loan.Granted? then loan.id else 0)
  {
    hide TakeNext;
  }

  lemma DeliverPublishes(w: World, e: Event)
    requires Enabled(w, e) && e.Deliver?
    ensures var s := After(w, e).recv.published;
            s == w.recv.published
            || (|s| == |w.recv.published| + 1
                && s[|w.recv.published|].chunk == if e.hash in w.recv.table then w.recv.table[e.hash].chunk
                                                  else if e.loan.Granted? then e.loan.id else 0)
  {
    hide Shipment.Segs, Shipment.Header, Receive, ReceiveBytes, TakeNext;
    var s := w.sent[e.hash];
    SegmentFacts(s, e.i);
    DatagramParses(w.recv, s, e.i, e.loan, e.now, e.from);
    ReceivePublishes(w.recv, s.Header(e.i), s.Segs()[e.i].data, e.loan, e.now, e.from);
  }

  lemma CompletePublishes(w: World, e: Event)
    requires Enabled(w, e) && e.Complete? && (e.hash, e.i) in w.used
    ensures var s := After(w, e).recv.published;
            s == w.recv.published
            || (|s| == |w.recv.published| + 1 && e.hash in w.recv.table
                && s[|w.recv.published|].chunk == w.recv.table[e.hash].chunk)
  {
    hide Shipment.Segs, Shipment.Header;
    CompleteShape(w, e);
  }

  lemma OthersPublishNothing(w: World, e: Event)
    requires Enabled(w, e) && !e.Deliver? && !e.Complete?
    ensures After(w, e).recv.published == w.recv.published
  {
    hide Shipment.Segs, Shipment.Header, TakeNext, ReceiveBytes, Discard;
    if e.Close? {
      DiscardPublishesNothing(w.recv, Gone(w.recv, e.service));
    }
  }

  lemma DiscardPublishesNothing(r: Receiver, gone: set<Hash>)
    ensures Discard(r, gone).published == r.published
  {}

  /** In a careful state, what a careful event publishes is faithful. */
  lemma CarefulIsFaithful(w: World, a: Aux, e: Event)
    requires Inv(w, a) && Enabled(w, e) && Careful(w, e)
    ensures Faithful(w, e)
  {
    hide Inv, After, Facts, Enabled, Careful, Delivers;
    if !e.Deliver? && !e.Complete? {
      OthersPublishNothing(w, e);
    } else {
      var a' := StepKeeps(w, a, e);
      if e.Deliver? {
        DeliverPublishes(w, e);
      } else {
        TransferKnown(w, a, e);
        CompletePublishes(w, e);
      }
      var n := |w.recv.published|;
      if After(w, e).recv.published != w.recv.published {
        PublishedWhole(After(w, e), a', n);
        SentKept(w, e);
        if e.hash in w.recv.table {
          EntryNamed(w, a, e.hash);
        }
        LoanNew(w, e);
      }
    }
  }

  lemma TransferKnown(w: World, a: Aux, e: Event)
    requires Inv(w, a) && Enabled(w, e) && e.Complete?
    ensures (e.hash, e.i) in w.used
  {
    hide ConservedBut, ChunkOk, EntryOk, Mode;
    TransferFact(w, a, e.hash, e.i);
  }

  lemma ReceiveGrows(r: Receiver, d: DatagramHeader, data: seq<byte>, loan: Loan, now: int, from: DeviceIndex)
    requires Closed(r)
    ensures r.published <= Receive(r, d, data, loan, now, from).published
  {
    hide TakeNext;
  }

  lemma PublishedGrows(w: World, a: Aux, e: Event)
    requires Inv(w, a) && Enabled(w, e)
    ensures w.recv.published <= After(w, e).recv.published
  {
    hide Inv, Shipment.Segs, Shipment.Header, Receive, ReceiveBytes, TakeNext;
    if e.Deliver? {
      DatagramParses(w.recv, w.sent[e.hash], e.i, e.loan, e.now, e.from);
      ReceiveGrows(w.recv, w.sent[e.hash].Header(e.i), w.sent[e.hash].Segs()[e.i].data, e.loan, e.now, e.from);
    } else if e.Complete? {
      TransferKnown(w, a, e);
      CompleteShape(w, e);
    } else {
      OthersPublishNothing(w, e);
    }
  }

  lemma EntryNamed(w: World, a: Aux, h: Hash)
    requires Inv(w, a) && h in w.recv.table
    ensures w.recv.table[h].chunk in w.recv.chunks && w.recv.table[h].chunk in a.msgOf && a.msgOf[w.recv.table[h].chunk] == h
  {
    EntryFact(w, a, h);
  }

  lemma SentKept(w: World, e: Event)
    requires Enabled(w, e)
    ensures After(w, e).sent == w.sent
  {
    hide Shipment.Segs, Shipment.Header, TakeNext, ReceiveBytes, Discard, CountDown;
  }

  lemma LoanNew(w: World, e: Event)
    requires Enabled(w, e)
    ensures e.Deliver? && e.loan.Granted? ==> e.loan.id !in w.recv.chunks
  {}

  // ---------- runs put together ----------

  lemma {:induction false} LeadsOn(w: World, es: seq<Event>, v: World, fs: seq<Event>, u: World)
    requires Leads(w, es, v) && Leads(v, fs, u)
    ensures Leads(w, es + fs, u)
    decreases |es|
  {
    hide After, Enabled, Mild;
    if es == [] {
      assert es + fs == fs;
    } else {
      LeadsOn(After(w, es[0]), es[1..], v, fs, u);
      assert (es + fs)[1..] == es[1..] + fs;
    }
  }

  lemma LeadsOne(w: World, e: Event)
    requires Enabled(w, e) && Mild(w, e)
    ensures Leads(w, [e], After(w, e))
  {
    hide After, Enabled, Mild;
    assert Leads(After(w, e), [e][1..], After(w, e));
  }

  // ---------- completing the rest of a message by DMA ----------

  /** Only transfers of g are written. */
  predicate WritesOnly(es: seq<Event>, g: Hash) {
    forall k :: 0 <= k < |es| && es[k].Write? ==> es[k].hash == g
  }

  /** Segment i of g has not been dealt with: it is under way into some chunk, or still to come. */
  ghost predicate Waiting(w: World, g: Hash, i: nat) {
    if (g, i) in w.used then (g, i) in w.dma && w.dma[(g, i)].chunk in w.recv.chunks else (g, i) !in w.dma
  }

  /** The entry of g waits for exactly the segments that are not in `done`, all of them open. */
  ghost predicate Rest(w: World, g: Hash, done: set<nat>) {
    && Sound(w) && g in w.sent && g in w.recv.table
    && w.sent[g].m.serviceHash in w.recv.channels
    && (forall i :: i in done ==> IsSegment(w, g, i))
    && 1 <= w.recv.table[g].remaining
    && w.recv.table[g].remaining + |done| == |w.sent[g].Segs()|
    && (forall i: nat :: IsSegment(w, g, i) && i !in done ==> Waiting(w, g, i))
  }

  /** What dealing with some segments of g, in that entry, leaves alone: everything else. */
  ghost predicate Apart(w: World, v: World, g: Hash, some: set<nat>) {
    && v.sent == w.sent && v.recv.channels == w.recv.channels
    && v.recv.chunks.Keys == w.recv.chunks.Keys
    && (forall h :: h != g ==> (h in v.recv.table <==> h in w.recv.table))
    && (forall h, i: nat :: h != g || i !in some ==>
          ((h, i) in v.used <==> (h, i) in w.used) && ((h, i) in v.dma <==> (h, i) in w.dma))
    && (forall h, i: nat :: (h != g || i !in some) && (h, i) in w.dma ==> v.dma[(h, i)] == w.dma[(h, i)])
  }

  lemma ApartOn(w: World, v: World, u: World, g: Hash, x: set<nat>, y: set<nat>)
    requires Apart(w, v, g, x) && Apart(v, u, g, y)
    ensures Apart(w, u, g, x + y)
  {}

  lemma ApartItself(w: World, g: Hash, some: set<nat>)
    ensures Apart(w, w, g, some)
  {}

  /** The chunk does not come to hold segment k of g if it did not. */
  ghost predicate NotMended(w: World, v: World, g: Hash, c: ChunkId, k: nat)
    requires w.Proper() && IsSegment(w, g, k)
  {
    c in w.recv.chunks && SizesOk(w.recv.chunks[c], w.sent[g].m) && !SegHolds(w.recv.chunks[c], w.sent[g].m, w.sent[g].Segs()[k]) ==>
      c in v.recv.chunks && SizesOk(v.recv.chunks[c], w.sent[g].m) && !SegHolds(v.recv.chunks[c], w.sent[g].m, w.sent[g].Segs()[k])
  }

  lemma PlaceElsewhereBack(buffer: seq<byte>, at: nat, data: seq<byte>, at': nat, data': seq<byte>)
    requires InBuffer(Place(buffer, at, data), at', data')
    requires at' + |data'| <= at || at + |data| <= at'
    ensures InBuffer(buffer, at', data')
  {
    var r := Place(buffer, at, data);
    assert r[at'..at' + |data'|] == buffer[at'..at' + |data'|];
  }

  /** Writing another segment does not put this one in place. */
  lemma TakeNextNotMends(c: Chunk, s: Shipment, i: nat, j: nat)
    requires s.Proper() && i < |s.Segs()| && j < |s.Segs()| && i != j && SizesOk(c, s.m)
    requires !SegHolds(c, s.m, s.Segs()[j])
    ensures !SegHolds(TakeNext(c, s.Header(i), s.Segs()[i].data), s.m, s.Segs()[j])
  {
    hide Place, InBuffer, GoodSegment, Shipment.Segs, Shipment.Header, Message.Content, OffsetsFit, CountFits;
    SegmentFacts(s, i);
    SegmentsApart(s, i, j);
    var p, q, h := s.Segs()[i], s.Segs()[j], |s.m.header|;
    if SegHolds(TakeNext(c, s.Header(i), p.data), s.m, q) {
      if p.offset < h && q.offset < h {
        PlaceElsewhereBack(c.userHeader, p.offset, p.data, q.offset, q.data);
      } else if p.offset >= h && q.offset >= h {
        PlaceElsewhereBack(c.userPayload, p.offset - h, p.data, q.offset - h, q.data);
      }
    }
  }

  /** The buffer of the entry is asked for again: no loan is needed. */
  lemma AskStep(w: World, g: Hash, done: set<nat>, i: nat)
    requires Rest(w, g, done) && IsSegment(w, g, i) && i !in done && (g, i) !in w.used
    ensures var e := Request(g, i, Refused, 0);
            Enabled(w, e) && Mild(w, e) && After(w, e) == Asked(w, g, i)
  {
    hide Shipment.Segs, Shipment.Header, Harmless;
    SegmentFacts(w.sent[g], i);
  }

  lemma AskedRest(w: World, g: Hash, done: set<nat>, i: nat, k: nat)
    requires Rest(w, g, done) && IsSegment(w, g, i) && i !in done && (g, i) !in w.used && IsSegment(w, g, k)
    ensures var v := Asked(w, g, i);
            Rest(v, g, done) && (g, i) in v.dma && Apart(w, v, g, {i}) && NotMended(w, v, g, w.recv.table[g].chunk, k)
            && v.recv == w.recv
  {
    hide Shipment.Segs, Shipment.Header, SegHolds;
  }

  /** The segment is written where its transfer goes. */
  lemma WriteStep(w: World, g: Hash, done: set<nat>, i: nat)
    requires Rest(w, g, done) && IsSegment(w, g, i) && i !in done && (g, i) in w.dma && !w.dma[(g, i)].written
    ensures Enabled(w, Write(g, i)) && Mild(w, Write(g, i))
    ensures After(w, Write(g, i)) == Marked(Placed(w, g, i, w.dma[(g, i)].chunk), g, i)
  {
    hide Shipment.Segs, Shipment.Header, TakeNext;
    assert Waiting(w, g, i);
  }

  lemma WrittenRest(w: World, g: Hash, done: set<nat>, i: nat, k: nat)
    requires Rest(w, g, done) && IsSegment(w, g, i) && i !in done && (g, i) in w.dma && IsSegment(w, g, k)
    requires w.dma[(g, i)].chunk in w.recv.chunks
    ensures var v := Marked(Placed(w, g, i, w.dma[(g, i)].chunk), g, i);
            && Rest(v, g, done) && (g, i) in v.dma && v.dma[(g, i)].written
            && Apart(w, v, g, {i})
            && (k != i || w.dma[(g, i)].chunk != w.recv.table[g].chunk ==> NotMended(w, v, g, w.recv.table[g].chunk, k))
            && v.recv.table == w.recv.table && v.recv.published == w.recv.published && v.used == w.used
  {
    hide Shipment.Segs, Shipment.Header, SegHolds;
    var id := w.dma[(g, i)].chunk;
    if k != i && id == w.recv.table[g].chunk && SizesOk(w.recv.chunks[id], w.sent[g].m)
       && !SegHolds(w.recv.chunks[id], w.sent[g].m, w.sent[g].Segs()[k]) {
      TakeNextNotMends(w.recv.chunks[id], w.sent[g], i, k);
    }
  }

  lemma CountDownReleases(r: Receiver, hash: Hash, service: ClassHash, from: DeviceIndex)
    requires Closed(r) && hash in r.table
    ensures forall id :: id in CountDown(r, hash, service, from).chunks
                         && CountDown(r, hash, service, from).chunks[id].owner == Released ==>
              id in r.chunks && r.chunks[id].owner == Released
  {}

  /** The transfer is complete and counted. */
  lemma CompleteStep(w: World, g: Hash, done: set<nat>, i: nat, from: DeviceIndex)
    requires Rest(w, g, done) && IsSegment(w, g, i) && i !in done && (g, i) in w.dma && w.dma[(g, i)].written
    ensures var e := Complete(g, i, from);
            && Enabled(w, e) && Mild(w, e)
            && After(w, e) == Finish(w, g, i).(recv := CountDown(w.recv, g, w.sent[g].m.serviceHash, from))
  {
    hide Shipment.Segs, Shipment.Header, CountDown;
    assert Waiting(w, g, i);
    CompleteShape(w, Complete(g, i, from));
    CountDownReleases(w.recv, g, w.sent[g].m.serviceHash, from);
  }

  lemma CompletedRest(w: World, g: Hash, done: set<nat>, i: nat, from: DeviceIndex, k: nat)
    requires Rest(w, g, done) && IsSegment(w, g, i) && i !in done && (g, i) in w.dma && IsSegment(w, g, k)
    requires w.recv.table[g].remaining > 1
    ensures var v := Finish(w, g, i).(recv := CountDown(w.recv, g, w.sent[g].m.serviceHash, from));
            && Rest(v, g, done + {i}) && Apart(w, v, g, {i}) && NotMended(w, v, g, w.recv.table[g].chunk, k)
            && v.recv.table[g].chunk == w.recv.table[g].chunk
  {
    hide Shipment.Segs, Shipment.Header, SegHolds;
  }

  lemma RestDma(w: World, g: Hash, done: set<nat>, i: nat)
    requires Rest(w, g, done) && IsSegment(w, g, i) && i !in done && (g, i) in w.dma
    ensures w.dma[(g, i)].chunk in w.recv.chunks
  {
    assert Waiting(w, g, i);
  }

  /** The segment is in place: either it is already, or it is written now. */
  lemma {:induction false} WriteUnlessDone(w: World, g: Hash, done: set<nat>, i: nat, k: nat) returns (es: seq<Event>, v: World)
    requires Rest(w, g, done) && IsSegment(w, g, i) && i !in done && (g, i) in w.dma && IsSegment(w, g, k)
    ensures WritesOnly(es, g)
    ensures Leads(w, es, v) && Rest(v, g, done) && (g, i) in v.dma && v.dma[(g, i)].written && Apart(w, v, g, {i})
    ensures v.dma[(g, i)].chunk == w.dma[(g, i)].chunk
    ensures k != i || w.dma[(g, i)].chunk != w.recv.table[g].chunk ==> NotMended(w, v, g, w.recv.table[g].chunk, k)
    ensures v.recv.table == w.recv.table && v.recv.published == w.recv.published && v.used == w.used
  {
    RestDma(w, g, done, i);
    if w.dma[(g, i)].written {
      ApartItself(w, g, {i});
      es, v := [], w;
    } else {
      WriteStep(w, g, done, i);
      WrittenRest(w, g, done, i, k);
      LeadsOne(w, Write(g, i));
      es, v := [Write(g, i)], After(w, Write(g, i));
      hide Rest, Apart, NotMended, Leads, Enabled, Mild, Shipment.Segs;
    }
  }

  lemma {:induction false} WriteAndComplete(w: World, g: Hash, done: set<nat>, i: nat, k: nat, from: DeviceIndex)
    returns (es: seq<Event>, v: World)
    requires Rest(w, g, done) && IsSegment(w, g, i) && i !in done && (g, i) in w.dma && IsSegment(w, g, k) && i != k
    requires w.recv.table[g].remaining > 1
    ensures WritesOnly(es, g)
    ensures Leads(w, es, v) && Rest(v, g, done + {i}) && Apart(w, v, g, {i})
    ensures v.recv.table[g].chunk == w.recv.table[g].chunk && NotMended(w, v, g, w.recv.table[g].chunk, k)
    ensures v.recv.table[g].remaining + 1 == w.recv.table[g].remaining
  {
    var fs, u := WriteUnlessDone(w, g, done, i, k);
    CompleteStep(u, g, done, i, from);
    CompletedRest(u, g, done, i, from, k);
    LeadsOne(u, Complete(g, i, from));
    v := After(u, Complete(g, i, from));
    hide Apart, NotMended, After, Enabled, Mild, Leads, Shipment.Segs, Rest;
    es := fs + [Complete(g, i, from)];
    LeadsOn(w, fs, u, [Complete(g, i, from)], v);
    var one: set<nat> := {i};
    ApartOn(w, u, v, g, one, one);
    assert one + one == one;
    NotMendedOn(w, u, v, g, w.recv.table[g].chunk, k);
    RestCount(w, g, done);
    RestCount(v, g, done + {i});
  }

  lemma RestCount(w: World, g: Hash, done: set<nat>)
    requires Rest(w, g, done)
    ensures w.Proper() && g in w.sent && g in w.recv.table
    ensures w.recv.table[g].remaining + |done| == |w.sent[g].Segs()|
  {}

  /** One more segment, start to end, while others are still to come. */
  lemma {:induction false} OneMore(w: World, g: Hash, done: set<nat>, i: nat, k: nat) returns (es: seq<Event>, v: World)
    requires Rest(w, g, done) && IsSegment(w, g, i) && i !in done && IsSegment(w, g, k) && i != k
    requires w.recv.table[g].remaining > 1
    ensures WritesOnly(es, g)
    ensures Leads(w, es, v) && Rest(v, g, done + {i}) && Apart(w, v, g, {i})
    ensures v.recv.table[g].chunk == w.recv.table[g].chunk && NotMended(w, v, g, w.recv.table[g].chunk, k)
    ensures v.recv.table[g].remaining + 1 == w.recv.table[g].remaining
  {
    var from := DeviceIndex(PCIE, 0);
    var u, fs := w, [];
    if (g, i) !in w.used {
      AskStep(w, g, done, i);
      AskedRest(w, g, done, i, k);
      fs := [Request(g, i, Refused, 0)];
      LeadsOne(w, fs[0]);
      u := After(w, fs[0]);
    } else {
      WaitingTransfer(w, g, done, i);
      ApartItself(w, g, {i});
    }
    hide Rest, Apart, NotMended, After, Enabled, Mild, Leads, Shipment.Segs;
    es, v := WriteAndComplete(u, g, done, i, k, from);
    LeadsOn(w, fs, u, es, v);
    es := fs + es;
    var one: set<nat> := {i};
    ApartOn(w, u, v, g, one, one);
    assert one + one == one;
    NotMendedOn(w, u, v, g, w.recv.table[g].chunk, k);
  }

  lemma WaitingTransfer(w: World, g: Hash, done: set<nat>, i: nat)
    requires Rest(w, g, done) && IsSegment(w, g, i) && i !in done && (g, i) in w.used
    ensures (g, i) in w.dma && w.dma[(g, i)].chunk in w.recv.chunks
  {
    assert Waiting(w, g, i);
  }

  lemma NotMendedOn(w: World, u: World, v: World, g: Hash, c: ChunkId, k: nat)
    requires w.Proper() && u.Proper() && w.sent == u.sent && IsSegment(w, g, k)
    requires NotMended(w, u, g, c, k) && NotMended(u, v, g, c, k)
    ensures NotMended(w, v, g, c, k)
  {}

  lemma {:induction false} PickOther(s: set<nat>, n: nat) returns (i: nat)
    requires |s| < n
    ensures i < n && i !in s
  {
    if n - 1 !in s {
      i := n - 1;
    } else {
      i := PickOther(s - {n - 1}, n - 1);
    }
  }

  /** All segments but the last one wanted. */
  lemma {:induction false} AllButLast(w: World, g: Hash, done: set<nat>, last: nat)
    returns (es: seq<Event>, v: World, all: set<nat>, some: set<nat>)
    requires Rest(w, g, done) && IsSegment(w, g, last) && last !in done
    ensures WritesOnly(es, g)
    ensures Leads(w, es, v) && Rest(v, g, all) && last !in all && Apart(w, v, g, some) && last !in some
    ensures v.recv.table[g].remaining == 1 && v.recv.table[g].chunk == w.recv.table[g].chunk
    ensures NotMended(w, v, g, w.recv.table[g].chunk, last)
    decreases w.recv.table[g].remaining
  {
    RestCount(w, g, done);
    if w.recv.table[g].remaining == 1 {
      es, v, all, some := [], w, done, {};
    } else {
      var i := PickOther(done + {last}, |w.sent[g].Segs()|);
      var fs, u := OneMore(w, g, done, i, last);
      RestCount(u, g, done + {i});
      ApartSent(w, u, g, {i});
      es, v, all, some := AllButLast(u, g, done + {i}, last);
      hide Rest, Apart, NotMended, Leads, Shipment.Segs;
      LeadsOn(w, fs, u, es, v);
      es := fs + es;
      ApartOn(w, u, v, g, {i}, some);
      NotMendedOn(w, u, v, g, w.recv.table[g].chunk, last);
      some := {i} + some;
    }
  }

  lemma ApartSent(w: World, v: World, g: Hash, some: set<nat>)
    requires Apart(w, v, g, some)
    ensures v.sent == w.sent
  {}

  lemma CompletedLast(w: World, g: Hash, done: set<nat>, i: nat, from: DeviceIndex)
    requires Rest(w, g, done) && IsSegment(w, g, i) && (g, i) in w.dma && w.recv.table[g].remaining == 1
    ensures var v, c := Finish(w, g, i).(recv := CountDown(w.recv, g, w.sent[g].m.serviceHash, from)), w.recv.table[g].chunk;
            && v.recv.table == w.recv.table - {g} && Apart(w, v, g, {i}) && Sound(v)
            && c in w.recv.chunks && c in v.recv.chunks
            && v.recv.published == w.recv.published + [Publication(w.sent[g].m.serviceHash, c, from)]
            && v.recv.chunks[c].userHeader == w.recv.chunks[c].userHeader
            && v.recv.chunks[c].userPayload == w.recv.chunks[c].userPayload
  {
    hide Shipment.Segs, Shipment.Header;
  }

  lemma LastFrames(w: World, u: World, t: World, v: World, g: Hash, x: set<nat>, last: nat)
    requires Apart(w, u, g, x) && last !in x && Apart(u, t, g, {last}) && Apart(t, v, g, {last})
    requires w.Proper() && IsSegment(w, g, last) && g in w.recv.table
    requires t == u || (g, last) !in u.used
    requires Waiting(w, g, last)
    requires NotMended(w, u, g, w.recv.table[g].chunk, last)
    requires (g, last) in t.dma
    requires t.dma[(g, last)].chunk != w.recv.table[g].chunk ==>
               u.Proper() && t.Proper() && NotMended(t, v, g, w.recv.table[g].chunk, last)
    ensures Apart(w, v, g, x + {last})
    ensures (g, last) in w.dma && w.dma[(g, last)].chunk != w.recv.table[g].chunk ==>
              NotMended(w, v, g, w.recv.table[g].chunk, last)
  {
    hide Shipment.Segs, SegHolds, SizesOk;
    var one: set<nat> := {last};
    ApartOn(u, t, v, g, one, one);
    assert one + one == one;
    ApartOn(w, u, v, g, x, one);
    if (g, last) in w.dma && w.dma[(g, last)].chunk != w.recv.table[g].chunk {
      assert (g, last) in w.used && (g, last) in u.used;
      assert t == u && t.dma[(g, last)] == w.dma[(g, last)];
      NotMendedOn(w, u, v, g, w.recv.table[g].chunk, last);
    }
  }

  /** The last segment's transfer, up to its completion: what comes next publishes the chunk. */
  lemma {:induction false} UpToLast(w: World, g: Hash, done: set<nat>, last: nat)
    returns (es: seq<Event>, v: World, some: set<nat>)
    requires Rest(w, g, done) && IsSegment(w, g, last) && last !in done
    ensures WritesOnly(es, g)
    ensures Leads(w, es, v) && Apart(w, v, g, some)
    ensures v.Proper() && g in v.recv.table && v.recv.table[g].chunk == w.recv.table[g].chunk && IsSegment(v, g, last)
    ensures v.recv.table[g].chunk in v.recv.chunks
    ensures var e := Complete(g, last, DeviceIndex(PCIE, 0));
            && Enabled(v, e) && Mild(v, e)
            && After(v, e).recv.table == v.recv.table - {g} && Apart(v, After(v, e), g, {last}) && Sound(After(v, e))
            && After(v, e).recv.published
               == v.recv.published + [Publication(v.sent[g].m.serviceHash, v.recv.table[g].chunk, DeviceIndex(PCIE, 0))]
            && After(v, e).recv.chunks[v.recv.table[g].chunk].userHeader == v.recv.chunks[v.recv.table[g].chunk].userHeader
            && After(v, e).recv.chunks[v.recv.table[g].chunk].userPayload == v.recv.chunks[v.recv.table[g].chunk].userPayload
    ensures (g, last) in w.dma && w.dma[(g, last)].chunk != w.recv.table[g].chunk ==>
              NotMended(w, v, g, w.recv.table[g].chunk, last)
  {
    var from := DeviceIndex(PCIE, 0);
    var es1, u, all, x := AllButLast(w, g, done, last);
    var fs, t := [], u;
    if (g, last) !in u.used {
      AskStep(u, g, all, last);
      AskedRest(u, g, all, last, last);
      fs := [Request(g, last, Refused, 0)];
      LeadsOne(u, fs[0]);
      t := After(u, fs[0]);
    } else {
      WaitingTransfer(u, g, all, last);
      ApartItself(u, g, {last});
    }
    var gs;
    gs, v := WriteUnlessDone(t, g, all, last, last);
    CompleteStep(v, g, all, last, from);
    CompletedLast(v, g, all, last, from);
    LastFrames(w, u, t, v, g, x, last);
    some := x + {last};
    hide Apart, NotMended, After, Enabled, Mild, Leads, Shipment.Segs, Rest;
    LeadsOn(u, fs, t, gs, v);
    LeadsOn(w, es1, u, fs + gs, v);
    es := es1 + (fs + gs);
  }

  // ---------- a careless event ----------

  /** The entry of h is gone while a transfer for it is under way, no segment is over and done
      with, and one is still to come. */
  ghost predicate Stranded(w: World, h: Hash) {
    && Sound(w) && h in w.sent && h !in w.recv.table
    && (forall i: nat :: IsSegment(w, h, i) ==> Waiting(w, h, i))
    && (exists k: nat :: IsSegment(w, h, k) && (h, k) in w.dma)
    && (exists j: nat :: IsSegment(w, h, j) && (h, j) !in w.used)
  }

  function Flip(b: byte): (r: byte)
    ensures r != b
  {
    if b == 0 then 1 else 0
  }

  function Flipped(bs: seq<byte>): (r: seq<byte>)
    ensures |r| == |bs| && forall i :: 0 <= i < |bs| ==> r[i] != bs[i]
  {
    seq(|bs|, i requires 0 <= i < |bs| => Flip(bs[i]))
  }

  lemma {:induction false} FreshId(ids: set<ChunkId>) returns (id: ChunkId)
    ensures id !in ids
  {
    var bound := UpperBound(ids);
    id := bound + 1;
  }

  lemma {:induction false} UpperBound(ids: set<ChunkId>) returns (bound: nat)
    ensures forall id :: id in ids ==> id <= bound
  {
    if ids == {} {
      bound := 0;
    } else {
      var x :| x in ids;
      var rest := UpperBound(ids - {x});
      bound := if x > rest then x else rest;
      assert forall id :: id in ids ==> id == x || id in ids - {x};
    }
  }

  lemma InBufferFirst(buffer: seq<byte>, at: nat, data: seq<byte>)
    requires data != []
    ensures InBuffer(buffer, at, data) ==> buffer[at] == data[0]
  {
    if InBuffer(buffer, at, data) {
      assert buffer[at..at + |data|][0] == buffer[at];
    }
  }

  /** A chunk that differs from the message everywhere holds none of its segments. */
  lemma FlippedHoldsNothing(s: Shipment, id: ChunkId, k: nat)
    requires s.Proper() && k < |s.Segs()|
    ensures var c := NewChunk(Granted(id, Flipped(s.m.header), Flipped(s.m.payload)));
            SizesOk(c, s.m) && !SegHolds(c, s.m, s.Segs()[k])
  {
    hide Cuts, OffsetsFit, CountFits;
    SegmentFacts(s, k);
    var g, n := s.Segs()[k], |s.m.header|;
    var header, payload := Flipped(s.m.header), Flipped(s.m.payload);
    if g.offset < n {
      assert g.data[0] == s.m.Content()[g.offset] == s.m.header[g.offset];
      InBufferFirst(header, g.offset, g.data);
    } else {
      assert g.data[0] == s.m.Content()[g.offset] == s.m.payload[g.offset - n];
      InBufferFirst(payload, g.offset - n, g.data);
    }
  }

  /** A delivered message holds each of its segments. */
  lemma DeliveredHolds(c: Chunk, s: Shipment, k: nat)
    requires s.Proper() && k < |s.Segs()| && c.userHeader == s.m.header && c.userPayload == s.m.payload
    ensures SegHolds(c, s.m, s.Segs()[k])
  {
    hide Cuts, OffsetsFit, CountFits;
    SegmentFacts(s, k);
    var g := s.Segs()[k];
    hide Shipment.Segs, Shipment.Proper, Shipment.Header;
    PieceOf(s.m.header, s.m.payload, g.offset, |g.data|);
  }

  lemma PieceOf(header: seq<byte>, payload: seq<byte>, offset: nat, size: nat)
    requires offset + size <= |header| + |payload|
    ensures offset + size <= |header| ==> (header + payload)[offset..offset + size] == header[offset..offset + size]
    ensures offset >= |header| ==>
              (header + payload)[offset..offset + size] == payload[offset - |header|..offset - |header| + size]
  {}

  /** A segment still to come restarts a stranded message, in a chunk that holds none of it. */
  lemma {:induction false} Restart(w: World, h: Hash, j: nat, id: ChunkId) returns (e: Event)
    requires Stranded(w, h) && IsSegment(w, h, j) && (h, j) !in w.used && id !in w.recv.chunks
    requires w.sent[h].m.serviceHash in w.recv.channels && |w.recv.table| < MAX_SEGMENTED_MESSAGE_COUNT
    ensures Enabled(w, e) && Mild(w, e)
    ensures var s, v := w.sent[h], After(w, e);
            && v.sent == w.sent && Rest(v, h, {}) && v.recv.table[h].chunk == id
            && v.recv.chunks[id] == NewChunk(Granted(id, Flipped(s.m.header), Flipped(s.m.payload)))
            && (forall k: nat :: (h, k) in w.dma ==> (h, k) in v.dma && v.dma[(h, k)] == w.dma[(h, k)])
  {
    var s := w.sent[h];
    SegmentFacts(s, j);
    hide Shipment.Segs, Shipment.Header, Harmless;
    var loan := Granted(id, Flipped(s.m.header), Flipped(s.m.payload));
    e := Request(h, j, loan, 0);
    PushAfterLoan(w, h, j, loan, 0);
    var v := Asked(Admit(w, h, j, loan, 0), h, j);
    assert After(w, e) == v;
    forall i: nat | IsSegment(v, h, i) ensures Waiting(v, h, i) {
      assert IsSegment(w, h, i) && Waiting(w, h, i);
    }
  }

  lemma UnsafeBack(w: World, es: seq<Event>, v: World)
    requires Leads(w, es, v) && GoesWrong(v)
    ensures GoesWrong(w)
  {
    hide Leads, Enabled, Mild, Faithful;
    var fs: seq<Event>, u: World, e: Event :| Leads(v, fs, u) && Enabled(u, e) && Mild(u, e) && !Faithful(u, e);
    LeadsOn(w, es, v, fs, u);
  }

  lemma MendedNot(u: World, v: World, h: Hash, c: ChunkId, k: nat)
    requires u.Proper() && IsSegment(u, h, k) && v.sent == u.sent && NotMended(u, v, h, c, k) && c in u.recv.chunks
    requires SizesOk(u.recv.chunks[c], u.sent[h].m) && !SegHolds(u.recv.chunks[c], u.sent[h].m, u.sent[h].Segs()[k])
    ensures v.Proper() && IsSegment(v, h, k) && c in v.recv.chunks
    ensures !SegHolds(v.recv.chunks[c], v.sent[h].m, v.sent[h].Segs()[k])
  {}

  /** The last completion publishes the entry's chunk, whatever is missing in it. */
  lemma PublishesWrongly(v: World, h: Hash, k: nat, id: ChunkId)
    requires v.Proper() && IsSegment(v, h, k) && id in v.recv.chunks
    requires !SegHolds(v.recv.chunks[id], v.sent[h].m, v.sent[h].Segs()[k])
    requires var e := Complete(h, k, DeviceIndex(PCIE, 0));
             && Enabled(v, e)
             && After(v, e).recv.published
                == v.recv.published + [Publication(v.sent[h].m.serviceHash, id, DeviceIndex(PCIE, 0))]
             && id in After(v, e).recv.chunks
             && After(v, e).recv.chunks[id].userHeader == v.recv.chunks[id].userHeader
             && After(v, e).recv.chunks[id].userPayload == v.recv.chunks[id].userPayload
    ensures !Faithful(v, Complete(h, k, DeviceIndex(PCIE, 0)))
  {
    hide After, Enabled, Shipment.Segs, SegHolds;
    var c, s := v.recv.chunks[id], v.sent[h];
    HoldsIfDelivered(c, s, k);
  }

  lemma HoldsIfDelivered(c: Chunk, s: Shipment, k: nat)
    requires s.Proper() && k < |s.Segs()|
    ensures c.userHeader == s.m.header && c.userPayload == s.m.payload ==> SegHolds(c, s.m, s.Segs()[k])
  {
    if c.userHeader == s.m.header && c.userPayload == s.m.payload {
      DeliveredHolds(c, s, k);
    }
  }

  /** So the message will be published with a segment missing. */
  lemma StrandedUnsafe(w: World, h: Hash)
    requires Stranded(w, h) && w.sent[h].m.serviceHash in w.recv.channels
    requires |w.recv.table| < MAX_SEGMENTED_MESSAGE_COUNT
    ensures GoesWrong(w)
  {
    var k: nat :| IsSegment(w, h, k) && (h, k) in w.dma;
    var j: nat :| IsSegment(w, h, j) && (h, j) !in w.used;
    assert Waiting(w, h, k);
    var id := FreshId(w.recv.chunks.Keys);
    var e := Restart(w, h, j, id);
    var u := After(w, e);
    LeadsOne(w, e);
    FlippedHoldsNothing(w.sent[h], id, k);
    hide Stranded, After, Enabled, Mild, Rest, Leads, Shipment.Segs, SegHolds, Flipped, Waiting, GoesWrong;
    MissingUnsafe(u, h, k);
    UnsafeBack(w, [e], u);
  }

  /** An entry whose chunk lacks segment k, while the transfer of k goes into another chunk. */
  lemma MissingUnsafe(u: World, h: Hash, k: nat)
    requires Rest(u, h, {}) && IsSegment(u, h, k) && u.recv.table[h].chunk in u.recv.chunks
    requires (h, k) in u.dma && u.dma[(h, k)].chunk != u.recv.table[h].chunk
    requires SizesOk(u.recv.chunks[u.recv.table[h].chunk], u.sent[h].m)
    requires !SegHolds(u.recv.chunks[u.recv.table[h].chunk], u.sent[h].m, u.sent[h].Segs()[k])
    ensures GoesWrong(u)
  {
    var id := u.recv.table[h].chunk;
    var es, v, some := UpToLast(u, h, {}, k);
    hide After, Enabled, Mild, Rest, Leads, Shipment.Segs, SegHolds;
    ApartSent(u, v, h, some);
    MendedNot(u, v, h, id, k);
    PublishesWrongly(v, h, k, id);
    assert !Faithful(v, Complete(h, k, DeviceIndex(PCIE, 0)));
  }

  lemma FactsOf(w: World, a: Aux, h: Hash)
    requires Inv(w, a) && h in w.sent
    ensures w.Proper() && Facts(w, a, h) && Sound(w)
  {
    InvSound(w, a);
  }

  /** Not harmless: every segment is under way or still to come, and there are some of each. */
  lemma HarmfulWaiting(w: World, a: Aux, h: Hash)
    requires w.Proper() && h in w.sent && Facts(w, a, h) && !Harmless(w, h)
    ensures forall i: nat :: IsSegment(w, h, i) ==> Waiting(w, h, i)
    ensures exists k: nat :: IsSegment(w, h, k) && (h, k) in w.dma
    ensures exists j: nat :: IsSegment(w, h, j) && (h, j) !in w.used
  {
    hide Shipment.Segs, SegHolds, ChunkOk, EntryOk;
    forall i: nat | (h, i) in w.dma ensures TransferOk(w, a, h, i) {}
    forall i: nat | IsSegment(w, h, i) ensures Waiting(w, h, i) {
      assert !Finished(w, h, i);
    }
  }

  /** And nothing has been counted. */
  lemma HarmfulRest(w: World, a: Aux, h: Hash)
    requires Sound(w) && h in w.sent && Facts(w, a, h) && !Harmless(w, h) && h in w.recv.table
    requires w.sent[h].m.serviceHash in w.recv.channels
    ensures Rest(w, h, {})
  {
    HarmfulWaiting(w, a, h);
    hide Shipment.Segs, SegHolds, SizesOk, TransferOk;
    var id := w.recv.table[h].chunk;
    assert EntryOk(w, a, h) && ChunkOk(w, a, h, id);
    assert forall i :: i in a.counted[id] ==> IsSegment(w, h, i) && Finished(w, h, i);
    assert a.counted[id] == {};
  }

  lemma HarmfulOpen(w: World, a: Aux, h: Hash)
    requires Inv(w, a) && h in w.sent && !Harmless(w, h)
    ensures forall i: nat :: IsSegment(w, h, i) ==> Waiting(w, h, i)
    ensures exists k: nat :: IsSegment(w, h, k) && (h, k) in w.dma
    ensures exists j: nat :: IsSegment(w, h, j) && (h, j) !in w.used
    ensures h in w.recv.table ==> Rest(w, h, {})
  {
    hide Inv, Facts, Harmless, Rest, Shipment.Segs;
    FactsOf(w, a, h);
    HarmfulWaiting(w, a, h);
    if h in w.recv.table {
      ServiceOpen(w, a, h);
      HarmfulRest(w, a, h);
    }
  }

  lemma ExpireUnsafe(w: World, a: Aux, e: Event)
    requires Inv(w, a) && |w.recv.table| <= MAX_SEGMENTED_MESSAGE_COUNT
    requires Enabled(w, e) && e.Expire? && !Careful(w, e)
    ensures GoesWrong(After(w, e))
  {
    hide Inv, Harmless, Rest, Shipment.Segs, GoesWrong;
    var h := e.hash;
    ServiceOpen(w, a, h);
    HarmfulOpen(w, a, h);
    var v := After(w, e);
    SameOpen(w, v, h);
    StrandedUnsafe(v, h);
  }

  /** A state in which the entry of h is gone, and that otherwise looks the same to h. */
  lemma SameOpen(w: World, v: World, h: Hash)
    requires Sound(w) && Closed(v.recv) && v.sent == w.sent && h in w.sent && h !in v.recv.table
    requires w.recv.chunks.Keys <= v.recv.chunks.Keys
    requires forall i: nat :: (h, i) in v.used <==> (h, i) in w.used
    requires forall i: nat :: ((h, i) in v.dma <==> (h, i) in w.dma) && ((h, i) in w.dma ==> v.dma[(h, i)] == w.dma[(h, i)])
    requires forall i: nat :: IsSegment(w, h, i) ==> Waiting(w, h, i)
    requires exists k: nat :: IsSegment(w, h, k) && (h, k) in w.dma
    requires exists j: nat :: IsSegment(w, h, j) && (h, j) !in w.used
    ensures Stranded(v, h)
  {
    hide Shipment.Segs;
    forall i: nat | IsSegment(v, h, i) ensures Waiting(v, h, i) {
      assert IsSegment(w, h, i) && Waiting(w, h, i);
    }
    var k: nat :| IsSegment(w, h, k) && (h, k) in w.dma;
    assert IsSegment(v, h, k) && (h, k) in v.dma;
    var j: nat :| IsSegment(w, h, j) && (h, j) !in w.used;
    assert IsSegment(v, h, j) && (h, j) !in v.used;
  }

  lemma CloseShape(r: Receiver, service: ClassHash, h: Hash)
    requires Closed(r) && h in r.table && r.table[h].service == service
    ensures var s := CloseChannel(r, service);
            && h !in s.table && s.chunks.Keys == r.chunks.Keys && Closed(s) && s.table.Keys < r.table.Keys
            && |s.table| < |r.table|
  {
    var s := CloseChannel(r, service);
    assert h in r.table.Keys - s.table.Keys;
    Smaller(s.table.Keys, r.table.Keys);
  }

  lemma Smaller<T>(x: set<T>, y: set<T>)
    requires x < y
    ensures |x| < |y|
  {
    assert y == x + (y - x) && y - x != {};
  }

  lemma CloseUnsafe(w: World, a: Aux, e: Event)
    requires Inv(w, a) && |w.recv.table| <= MAX_SEGMENTED_MESSAGE_COUNT
    requires Enabled(w, e) && e.Close? && !Careful(w, e)
    ensures GoesWrong(After(w, e))
  {
    hide Inv, Harmless, Rest, Shipment.Segs, GoesWrong, CloseChannel;
    var h :| h in w.recv.table && w.recv.table[h].service == e.service && !Harmless(w, h);
    EntryFact(w, a, h);
    HarmfulOpen(w, a, h);
    var v := After(w, e);
    CloseShape(w.recv, e.service, h);
    var u := After(v, Open(e.service));
    LeadsOne(v, Open(e.service));
    SameOpen(w, u, h);
    StrandedUnsafe(u, h);
    UnsafeBack(v, [Open(e.service)], u);
  }

  /** What a request of h's segment i that finds the table full leaves behind. */
  ghost predicate Bumped(w: World, v: World, h: Hash, i: nat) {
    && h in w.sent && h !in w.recv.table && |w.recv.table| >= MAX_SEGMENTED_MESSAGE_COUNT
    && w.sent[h].m.serviceHash in w.recv.channels && v.recv.channels == w.recv.channels
    && v.sent == w.sent && v.recv.table == w.recv.table && Closed(v.recv)
    && w.recv.chunks.Keys <= v.recv.chunks.Keys
    && v.used == w.used + {(h, i)} && (h, i) in v.dma && v.dma[(h, i)].chunk in v.recv.chunks
    && v.dma == w.dma[(h, i) := v.dma[(h, i)]]
  }

  /** A buffer is handed out without an entry only when the table is full. */
  lemma LoanedWithoutEntry(r: Receiver, h: DatagramHeader, loan: Loan, now: int)
    requires Closed(r)
    ensures var (s, buffer) := LoanBuffer(r, h, loan, now);
            buffer.Some? && h.messageHash !in s.table ==>
              && h.messageHash !in r.table && |r.table| >= MAX_SEGMENTED_MESSAGE_COUNT && h.serviceHash in r.channels
              && s.table == r.table && s.channels == r.channels && Closed(s) && r.chunks.Keys <= s.chunks.Keys
              && buffer.value in s.chunks
  {}

  lemma RequestBumps(w: World, a: Aux, e: Event)
    requires Sound(w) && Enabled(w, e) && e.Request? && !Careful(w, e) && (e.hash, e.i) !in w.dma
    ensures Bumped(w, After(w, e), e.hash, e.i) && After(w, e).Proper() && !Harmless(After(w, e), e.hash)
    ensures IsSegment(w, e.hash, e.i)
  {
    RequestAfter(w, e);
    RequestLoans(w, e);
    hide Shipment.Segs, Shipment.Header, Harmless, LoanBuffer, After, Careful, Enabled;
  }

  lemma RequestAfter(w: World, e: Event)
    requires Enabled(w, e) && e.Request?
    ensures var (r, buffer) := LoanBuffer(w.recv, w.sent[e.hash].Header(e.i), e.loan, e.now);
            After(w, e) == World(w.sent, r, w.used + {(e.hash, e.i)},
                                 if buffer.Some? then w.dma[(e.hash, e.i) := Transfer(buffer.value, false)] else w.dma)
    ensures After(w, e).Proper() && IsSegment(w, e.hash, e.i)
    ensures !Careful(w, e) ==>
              (e.hash, e.i) in After(w, e).dma && e.hash !in After(w, e).recv.table && !Harmless(After(w, e), e.hash)
  {
    hide Shipment.Segs, Shipment.Header, Harmless, LoanBuffer;
  }

  lemma RequestLoans(w: World, e: Event)
    requires Enabled(w, e) && e.Request?
    ensures var (s, buffer) := LoanBuffer(w.recv, w.sent[e.hash].Header(e.i), e.loan, e.now);
            buffer.Some? && e.hash !in s.table ==>
              && e.hash !in w.recv.table && |w.recv.table| >= MAX_SEGMENTED_MESSAGE_COUNT
              && w.sent[e.hash].m.serviceHash in w.recv.channels
              && s.table == w.recv.table && s.channels == w.recv.channels && Closed(s) && w.recv.chunks.Keys <= s.chunks.Keys
              && buffer.value in s.chunks
  {
    SegmentFacts(w.sent[e.hash], e.i);
    LoanedWithoutEntry(w.recv, w.sent[e.hash].Header(e.i), e.loan, e.now);
    hide Shipment.Segs, Shipment.Header, LoanBuffer;
  }

  lemma NotYetUnderWay(w: World, e: Event)
    requires Enabled(w, e) && e.Request?
    ensures (e.hash, e.i) !in w.used
  {
    hide Shipment.Segs, Shipment.Header;
  }

  lemma StrandedByRequest(w: World, a: Aux, v: World, h: Hash, i: nat)
    requires Sound(w) && Bumped(w, v, h, i) && Facts(w, a, h) && v.Proper() && !Harmless(v, h) && IsSegment(w, h, i)
    ensures Stranded(v, h)
  {
    hide Shipment.Segs, SegHolds, ChunkOk, EntryOk;
    assert IsSegment(v, h, i) && (h, i) in v.dma;
    forall j: nat | (h, j) in w.dma ensures TransferOk(w, a, h, j) {}
    forall j: nat | IsSegment(v, h, j) ensures Waiting(v, h, j) {
      assert !Finished(v, h, j);
    }
  }

  /** Some entry can be made to go by careful events: one that may be given up expires, any other
      has its segments completed. */
  lemma {:induction false} MakeRoom(w: World, g: Hash) returns (es: seq<Event>, v: World, some: set<nat>)
    requires Sound(w) && g in w.recv.table && g in w.sent && (Harmless(w, g) || Rest(w, g, {}))
    ensures WritesOnly(es, g)
    ensures Leads(w, es, v) && Apart(w, v, g, some) && Sound(v) && |v.recv.table| < |w.recv.table|
  {
    if Harmless(w, g) {
      var e := Expire(g, w.recv.table[g].deadline + 1);
      LeadsOne(w, e);
      es, v, some := [e], After(w, e), {};
      hide Leads, Harmless, Enabled, Careful, Shipment.Segs;
      assert v.recv.table.Keys == w.recv.table.Keys - {g};
      Smaller(v.recv.table.Keys, w.recv.table.Keys);
    } else {
      es, v, some := CompleteAway(w, g);
    }
  }

  lemma {:induction false} CompleteAway(w: World, g: Hash) returns (es: seq<Event>, v: World, all: set<nat>)
    requires g in w.recv.table && Rest(w, g, {})
    ensures WritesOnly(es, g)
    ensures Leads(w, es, v) && Apart(w, v, g, all) && Sound(v) && |v.recv.table| < |w.recv.table|
  {
    RestCount(w, g, {});
    assert IsSegment(w, g, 0) by { RestSome(w, g); }
    var fs, u, some := UpToLast(w, g, {}, 0);
    var f := Complete(g, 0, DeviceIndex(PCIE, 0));
    LeadsOne(u, f);
    v := After(u, f);
    hide After, Enabled, Careful, Leads, Rest, Shipment.Segs;
    LeadsOn(w, fs, u, [f], v);
    es := fs + [f];
    ApartOn(w, u, v, g, some, {0});
    all := some + {0};
    assert v.recv.table.Keys < w.recv.table.Keys;
    Smaller(v.recv.table.Keys, w.recv.table.Keys);
  }

  lemma RestSome(w: World, g: Hash)
    requires Rest(w, g, {})
    ensures |w.sent[g].Segs()| > 0
  {}

  lemma RequestUnsafe(w: World, a: Aux, e: Event)
    requires Inv(w, a) && |w.recv.table| <= MAX_SEGMENTED_MESSAGE_COUNT
    requires Enabled(w, e) && e.Request? && !Careful(w, e)
    ensures GoesWrong(After(w, e))
  {
    InvSound(w, a);
    NotYetUnderWay(w, e);
    NoTransfer(w, a, e.hash, e.i);
    RequestBumps(w, a, e);
    hide After, Careful, Enabled, GoesWrong, Inv, Facts, Bumped, Shipment.Segs;
    FactsOf(w, a, e.hash);
    StrandedByRequest(w, a, After(w, e), e.hash, e.i);
    BumpedUnsafe(w, a, After(w, e), e.hash, e.i);
  }

  lemma BumpedUnsafe(w: World, a: Aux, v: World, h: Hash, i: nat)
    requires Inv(w, a) && Bumped(w, v, h, i) && Stranded(v, h) && |w.recv.table| <= MAX_SEGMENTED_MESSAGE_COUNT
    ensures GoesWrong(v)
  {
    hide Inv, Stranded, Shipment.Segs, GoesWrong, Harmless, Rest;
    assert w.recv.table.Keys != {};
    var g :| g in w.recv.table;
    EntryFact(w, a, g);
    FactsOf(w, a, g);
    if !Harmless(v, g) {
      HarmlessSame(w, v, g, h);
      HarmfulOpen(w, a, g);
      RestSame(w, v, g, h);
    }
    StrandedProper(v, h);
    var es, u, some := MakeRoom(v, g);
    StillStranded(v, u, g, some, h);
    StrandedUnsafe(u, h);
    UnsafeBack(v, es, u);
  }

  lemma StrandedProper(v: World, h: Hash)
    requires Stranded(v, h)
    ensures Sound(v) && h in v.sent && h !in v.recv.table
  {}

  lemma StillStranded(v: World, u: World, g: Hash, some: set<nat>, h: Hash)
    requires Stranded(v, h) && Apart(v, u, g, some) && g != h && Sound(u)
    ensures Stranded(u, h)
  {
    hide Shipment.Segs;
    SameOpen(v, u, h);
  }

  lemma HarmlessSame(w: World, v: World, g: Hash, h: Hash)
    requires w.Proper() && v.sent == w.sent && g != h
    requires forall x, i: nat :: x != h ==> ((x, i) in v.used <==> (x, i) in w.used) && ((x, i) in v.dma <==> (x, i) in w.dma)
    ensures Harmless(w, g) ==> Harmless(v, g)
  {
    hide Shipment.Segs;
    if Harmless(w, g) {
      if k: nat :| IsSegment(w, g, k) && Finished(w, g, k) {
        assert IsSegment(v, g, k) && Finished(v, g, k);
      } else if forall k: nat :: IsSegment(w, g, k) ==> (g, k) in w.used {
        forall k: nat | IsSegment(v, g, k) ensures (g, k) in v.used {
          assert IsSegment(w, g, k);
        }
      }
    }
  }

  lemma RestSame(w: World, v: World, g: Hash, h: Hash)
    requires Rest(w, g, {}) && v.sent == w.sent && g != h && v.recv.table == w.recv.table && Closed(v.recv)
    requires v.recv.channels == w.recv.channels && w.recv.chunks.Keys <= v.recv.chunks.Keys
    requires forall x, i: nat :: x != h ==> ((x, i) in v.used <==> (x, i) in w.used) && ((x, i) in v.dma <==> (x, i) in w.dma)
    requires forall x, i: nat :: x != h && (x, i) in w.dma ==> v.dma[(x, i)] == w.dma[(x, i)]
    ensures Rest(v, g, {})
  {
    hide Shipment.Segs;
    forall i: nat | IsSegment(v, g, i) ensures Waiting(v, g, i) {
      assert IsSegment(w, g, i) && Waiting(w, g, i);
    }
  }

  // ---------- the exact condition ----------

  /** After a careless event some mild run goes wrong. */
  lemma CarelessGoesWrong(w: World, a: Aux, e: Event)
    requires Inv(w, a) && |w.recv.table| <= MAX_SEGMENTED_MESSAGE_COUNT && Enabled(w, e) && !Careful(w, e)
    ensures GoesWrong(After(w, e))
  {
    hide Inv, After, GoesWrong, Enabled;
    if e.Expire? {
      ExpireUnsafe(w, a, e);
    } else if e.Close? {
      CloseUnsafe(w, a, e);
    } else {
      RequestUnsafe(w, a, e);
    }
  }

  // ---------- the table never holds more than it can ----------

  lemma OneKeyMore<K, V>(m: map<K, V>, k: K, v: V)
    ensures |m[k := v]| <= |m| + 1
    ensures k in m ==> |m[k := v]| == |m|
  {
    assert m[k := v].Keys == m.Keys + {k};
  }

  lemma FewerKeys<K, V>(m: map<K, V>, ks: set<K>)
    ensures |m - ks| <= |m|
  {
    assert (m - ks).Keys == m.Keys - ks;
    assert m.Keys == (m.Keys - ks) + (m.Keys * ks);
  }

  lemma PushFits(r: Receiver, hash: Hash, remaining: uint32, id: ChunkId, service: ClassHash, deadline: int)
    requires id in r.chunks && |r.table| <= MAX_SEGMENTED_MESSAGE_COUNT
    ensures |Push(r, hash, remaining, id, service, deadline).table| <= MAX_SEGMENTED_MESSAGE_COUNT
  {
    OneKeyMore(r.table, hash, Entry(remaining, id, service, deadline));
  }

  lemma CountDownFits(r: Receiver, hash: Hash, service: ClassHash, from: DeviceIndex)
    requires Closed(r) && hash in r.table
    ensures |CountDown(r, hash, service, from).table| <= |r.table|
  {
    FewerKeys(r.table, {hash});
    OneKeyMore(r.table, hash, r.table[hash].(remaining := Wrap32(r.table[hash].remaining - 1)));
  }

  lemma ReceiveFits(r: Receiver, h: DatagramHeader, data: seq<byte>, loan: Loan, now: int, from: DeviceIndex)
    requires Closed(r) && |r.table| <= MAX_SEGMENTED_MESSAGE_COUNT
    ensures |Receive(r, h, data, loan, now, from).table| <= MAX_SEGMENTED_MESSAGE_COUNT
  {
    hide TakeNext, Push, CountDown;
    var hash := h.messageHash;
    if h.serviceHash !in r.channels {
    } else if hash in r.table {
      CountDownFits(Copy(r, r.table[hash].chunk, h, data), hash, h.serviceHash, from);
    } else if loan.Granted? {
      var s := r.(chunks := r.chunks[loan.id := NewChunk(loan)]);
      if h.submessageCount > 1 {
        PushFits(s, hash, h.submessageCount - 1, loan.id, h.serviceHash, Deadline(h, now));
        PushHas(s, hash, h.submessageCount - 1, loan.id, h.serviceHash, Deadline(h, now));
      }
    }
  }

  lemma PushHas(r: Receiver, hash: Hash, remaining: uint32, id: ChunkId, service: ClassHash, deadline: int)
    requires id in r.chunks
    ensures id in Push(r, hash, remaining, id, service, deadline).chunks
  {}

  lemma LoanBufferFits(r: Receiver, h: DatagramHeader, loan: Loan, now: int)
    requires Closed(r) && |r.table| <= MAX_SEGMENTED_MESSAGE_COUNT
    ensures |LoanBuffer(r, h, loan, now).0.table| <= MAX_SEGMENTED_MESSAGE_COUNT
  {
    hide Push;
    if h.serviceHash in r.channels && h.messageHash !in r.table && loan.Granted? {
      PushFits(r.(chunks := r.chunks[loan.id := NewChunk(loan)]), h.messageHash, h.submessageCount,
               loan.id, h.serviceHash, Deadline(h, now));
    }
  }

  lemma ReleaseBufferFits(r: Receiver, h: DatagramHeader, shouldRelease: bool, from: DeviceIndex)
    requires Closed(r)
    ensures |ReleaseBuffer(r, h, shouldRelease, from).table| <= |r.table|
  {
    hide CountDown;
    FewerKeys(r.table, {h.messageHash});
    if h.serviceHash in r.channels && h.messageHash in r.table {
      CountDownFits(r, h.messageHash, h.serviceHash, from);
    }
  }

  lemma StepFits(w: World, e: Event)
    requires Enabled(w, e) && |w.recv.table| <= MAX_SEGMENTED_MESSAGE_COUNT
    ensures |After(w, e).recv.table| <= MAX_SEGMENTED_MESSAGE_COUNT
  {
    hide Shipment.Segs, Shipment.Header, TakeNext, Receive, LoanBuffer, ReleaseBuffer, ReceiveBytes, Careful;
    match e
    case Deliver(h, i, loan, now, from) =>
      DatagramParses(w.recv, w.sent[h], i, loan, now, from);
      ReceiveFits(w.recv, w.sent[h].Header(i), w.sent[h].Segs()[i].data, loan, now, from);
    case Request(h, i, loan, now) => LoanBufferFits(w.recv, w.sent[h].Header(i), loan, now);
    case Complete(h, i, from) => ReleaseBufferFits(w.recv, w.sent[h].Header(i), false, from);
    case Abort(h, i, from) => ReleaseBufferFits(w.recv, w.sent[h].Header(i), true, from);
    case Expire(h, _) => FewerKeys(w.recv.table, {h});
    case Close(service) => FewerKeys(w.recv.table, Gone(w.recv, service));
    case _ =>
  }
}

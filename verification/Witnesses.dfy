/** Inputs on which the code gives less than the plain claim, each reached by a run. */
module Witnesses {
  import opened Types
  import opened DataWriter
  import opened Reassembly
  import opened Routing
  import E = EndToEnd
  import X = EndToEndExact
  import M = MemoryPool
  import MX = MemoryPoolExact
  import L = TwoLocks

  const SERVICE: ClassHash := [0, 0, 0, 0]

  // ---------- a buffer taken away from a transfer ----------

  /** Two bytes, sent in two datagrams. */
  function TwoBytes(): E.Shipment {
    E.Shipment(Message(SERVICE, 7, [], [10, 20], 1), 1)
  }

  lemma TwoBytesProper()
    ensures TwoBytes().Proper() && |TwoBytes().Segs()| == 2
  {
    var m := TwoBytes().m;
    assert m.Content() == [10, 20];
    OffsetsFitIfContentFits(m, 1);
    CutsCount(m, 1, 0);
    assert Pieces(0, 1) == 0 && Pieces(1, 1) == 1 && Pieces(2, 1) == 2;
  }

  function Before(): M.Pool {
    M.Pool(E.World(map[7 := TwoBytes()], Receiver({SERVICE}, map[], map[], []), {}, map[]), map[])
  }

  function Step(e: E.Event): M.Step {
    MX.Plain(e)
  }

  /** A mild event is a careful step. */
  lemma MildStep(w: E.World, e: E.Event, moved: map<ChunkId, ChunkId>)
    requires E.Enabled(w, e) && X.Mild(w, e) && !e.Write?
    ensures var s, x := M.Pool(w, moved), Step(e);
            M.Enabled(s, x) && M.Careful(s, x) && M.After(s, x) == M.Pool(E.After(w, e), moved)
  {
    hide E.Enabled, E.After, E.Careful;
  }

  /** The first segment's buffer is asked for. */
  lemma {:induction false} AskTwo() returns (v: E.World)
    ensures M.Run([Before(), M.Pool(v, map[])], [Step(E.Request(7, 0, Granted(0, [], [0, 0]), 0))])
    ensures E.Sound(v) && 7 in v.recv.table && MX.MoreToSend(M.Pool(v, map[]))
    ensures var x := Step(E.Expire(7, v.recv.table[7].deadline + 1));
            M.Enabled(M.Pool(v, map[]), x) && !M.Careful(M.Pool(v, map[]), x)
  {
    TwoBytesProper();
    var s, w := Before(), Before().world;
    var loan := Granted(0, [], [0, 0]);
    E.SegmentFacts(TwoBytes(), 0);
    hide E.Shipment.Segs, E.Shipment.Header, E.Harmless, TwoBytes;
    var e := E.Request(7, 0, loan, 0);
    v := E.Asked(E.Admit(w, 7, 0, loan, 0), 7, 0);
    MX.RequestFacts(w, 7, 0, loan);
    NotHarmless(v);
    assert (8 as Hash) !in v.sent;
    hide E.After, X.Mild, X.Rest;
    MildStep(w, e, map[]);
    hide M.After;
  }

  /** The first segment's buffer is asked for, and the entry times out while it is being written:
      a careful run, then an event that is not, after which a careful run publishes wrongly. */
  lemma {:induction false} CarelessRun() returns (ss: seq<M.Pool>, xs: seq<M.Step>, x: M.Step)
    ensures M.Run(ss, xs) && M.Enabled(ss[|xs|], x) && x.Do? && x.e.Expire?
    ensures !M.Careful(ss[|xs|], x) && !MX.Safe(M.After(ss[|xs|], x))
  {
    var v := AskTwo();
    ss, xs := [Before(), M.Pool(v, map[])], [Step(E.Request(7, 0, Granted(0, [], [0, 0]), 0))];
    x := Step(E.Expire(7, v.recv.table[7].deadline + 1));
    hide M.Careful, MX.Safe, Before;
    MX.GuaranteeHoldsExactly(ss, xs, x);
  }

  lemma NotHarmless(w: E.World)
    requires w.Proper() && 7 in w.sent && |w.sent[7].Segs()| == 2 && w.used == {(7, 0)} && (7, 0) in w.dma
    ensures !E.Harmless(w, 7)
  {
    hide E.Shipment.Segs;
    assert E.IsSegment(w, 7, 1) && (7, 1) !in w.used;
  }

  // ---------- memory that is loaned again while it is written into ----------

  /** Two bytes in one datagram, and two others in two. */
  function One(): E.Shipment {
    E.Shipment(Message(SERVICE, 7, [], [10, 11], 1), 2)
  }

  function Two(): E.Shipment {
    E.Shipment(Message(SERVICE, 8, [], [20, 21], 1), 1)
  }

  lemma ShipmentsProper()
    ensures One().Proper() && One().Segs() == [Segment(0, [10, 11])]
    ensures Two().Proper() && Two().Segs() == [Segment(0, [20]), Segment(1, [21])]
  {
    var m, n := One().m, Two().m;
    assert m.Content() == [10, 11] && n.Content() == [20, 21];
    OffsetsFitIfContentFits(m, 2);
    OffsetsFitIfContentFits(n, 1);
    assert Pieces(0, 2) == 0 && Pieces(2, 2) == 1;
    assert Pieces(0, 1) == 0 && Pieces(1, 1) == 1 && Pieces(2, 1) == 2;
    assert m.Content()[0..2] == [10, 11] && n.Content()[0..1] == [20] && n.Content()[1..2] == [21];
    assert Cuts(m, 2, 2) == [] && Cuts(n, 1, 2) == [];
    assert Cuts(n, 1, 1) == [Segment(1, [21])] + Cuts(n, 1, 2);
  }

  const FROM := DeviceIndex(PCIE, 1)
  const NOTHING := Chunk(Held, [], [], 0)

  function Sent(): map<Hash, E.Shipment> {
    map[7 := One(), 8 := Two()]
  }

  /** What the headers and datagrams of the three segments say. */
  lemma SentFacts(w: E.World)
    requires w.sent == Sent()
    ensures w.Proper() && E.IsSegment(w, 7, 0) && E.IsSegment(w, 8, 0) && E.IsSegment(w, 8, 1)
    ensures forall i: nat :: E.IsSegment(w, 7, i) ==> i == 0
    ensures w.sent[7].m.serviceHash == SERVICE == w.sent[8].m.serviceHash && w.sent[8].m.payload == [20, 21]
    ensures w.sent[7].m.hash == 7 && w.sent[8].m.hash == 8
    ensures HeaderIs(w.sent[7].Header(0), 7, 1, 0) && w.sent[7].Segs()[0].data == [10, 11]
    ensures HeaderIs(w.sent[8].Header(0), 8, 2, 0) && w.sent[8].Segs()[0].data == [20]
    ensures HeaderIs(w.sent[8].Header(1), 8, 2, 1) && w.sent[8].Segs()[1].data == [21]
  {
    ShipmentsProper();
    E.SegmentFacts(One(), 0);
    E.SegmentFacts(Two(), 0);
    E.SegmentFacts(Two(), 1);
    hide E.Shipment.Segs, E.Shipment.Header, E.Shipment.Proper;
  }

  predicate HeaderIs(d: DatagramHeader, hash: Hash, count: nat, offset: nat) {
    && d.serviceHash == SERVICE && d.messageHash == hash && d.submessageCount == count && d.submessageOffset == offset
    && d.userHeaderSize == 0 && d.userPayloadSize == 2
  }

  function Start(): E.World {
    E.World(Sent(), Receiver({SERVICE}, map[], map[], []), {}, map[])
  }

  /** Memory 0 is taken for message 7. */
  function Owned(table: map<Hash, Entry>, owner: Owner, givenUp: nat): E.World {
    E.World(Sent(), Receiver({SERVICE}, table, map[0 := Chunk(owner, [], [0, 0], givenUp)], []),
            {(7, 0)}, map[(7, 0) := E.Transfer(0, false)])
  }

  const ENTRY := Entry(1, 0, SERVICE, 1000)

  /** Memory 0 is taken for message 8, in chunk 1. */
  function Reused(payload: seq<byte>, written: bool): M.Pool {
    M.Pool(E.World(Sent(),
                   Receiver({SERVICE}, map[8 := Entry(1, 1, SERVICE, 1000)],
                            map[0 := Chunk(Released, [], [0, 0], 1), 1 := Chunk(Held, [], payload, 0)], []),
                   {(7, 0), (8, 0)}, map[(7, 0) := E.Transfer(0, written)]),
           map[0 := 1])
  }

  lemma LoanedOne(d: DatagramHeader)
    requires HeaderIs(d, 7, 1, 0)
    ensures var (r, buffer) := LoanBuffer(Start().recv, d, Granted(0, [], [0, 0]), 0);
            r == Owned(map[7 := ENTRY], Held, 0).recv && buffer == Some(0)
  {}

  /** The buffer is asked for. */
  lemma AskOne()
    ensures var e := E.Request(7, 0, Granted(0, [], [0, 0]), 0);
            E.Enabled(Start(), e) && X.Mild(Start(), e) && E.After(Start(), e) == Owned(map[7 := ENTRY], Held, 0)
  {
    SentFacts(Start());
    LoanedOne(Start().sent[7].Header(0));
    hide E.Shipment.Segs, E.Shipment.Header, E.Shipment.Proper, E.Harmless, E.IsSegment, LoanBuffer, Sent;
  }

  /** The entry expires: nobody can restart the message, so that is careful. */
  lemma ExpireOne()
    ensures var w, e := Owned(map[7 := ENTRY], Held, 0), E.Expire(7, 1001);
            E.Enabled(w, e) && X.Mild(w, e) && E.After(w, e) == Owned(map[], Detached, 0)
  {
    var w := Owned(map[7 := ENTRY], Held, 0);
    SentFacts(w);
    hide E.Shipment.Segs, E.Shipment.Header, E.Shipment.Proper, E.IsSegment, Sent;
    assert E.Harmless(w, 7);
    assert w.recv.table - {7} == map[];
  }

  /** But giving the chunk back is not. */
  lemma GiveBackOne()
    ensures var s, x := M.Pool(Owned(map[], Detached, 0), map[]), Step(E.ReleaseExpired(0));
            M.Enabled(s, x) && !M.Careful(s, x) && M.After(s, x) == M.Pool(Owned(map[], Released, 1), map[])
  {
    SentFacts(Owned(map[], Detached, 0));
    hide E.Shipment.Segs, E.Shipment.Header, E.Shipment.Proper, E.IsSegment, Sent;
    assert M.Writing(Owned(map[], Released, 1), 7, 0);
  }

  lemma ReceivedFirst(d: DatagramHeader)
    requires HeaderIs(d, 8, 2, 0)
    ensures Receive(Owned(map[], Released, 1).recv, d, [20], Granted(1, [], [0, 0]), 0, FROM) == Reused([20, 0], false).world.recv
  {
    assert Place([0, 0], 0, [20]) == [20, 0];
    hide Place;
  }

  lemma DeliverFirst()
    ensures var w, e := Owned(map[], Released, 1), E.Deliver(8, 0, Granted(1, [], [0, 0]), 0, FROM);
            E.Enabled(w, e) && X.Mild(w, e) && E.After(w, e) == Reused([20, 0], false).world
  {
    var w, loan := Owned(map[], Released, 1), Granted(1, [], [0, 0]);
    SentFacts(w);
    ReceivedFirst(w.sent[8].Header(0));
    E.DatagramTakenExactly(w.recv, w.sent[8], 0, loan, 0, FROM);
    hide E.Shipment.Segs, E.Shipment.Header, E.Shipment.Bytes, E.Shipment.Proper, ReceiveBytes, Receive, E.IsSegment, Sent;
  }

  /** The loan gets the memory that was given back. */
  lemma DeliverReused()
    ensures var s, x := M.Pool(Owned(map[], Released, 1), map[]), M.Do(E.Deliver(8, 0, Granted(1, [], [0, 0]), 0, FROM), Some(0), NOTHING);
            M.Enabled(s, x) && M.Careful(s, x) && M.After(s, x) == Reused([20, 0], false)
  {
    DeliverFirst();
    hide E.Enabled, E.After, E.Careful, Sent;
    assert M.MoveOn(map[], 0, 1) == map[0 := 1];
    hide M.MoveOn;
  }

  lemma Spilled(d: DatagramHeader)
    requires HeaderIs(d, 7, 1, 0)
    ensures TakeNext(Chunk(Held, [], [20, 0], 0), d, [10, 11]) == Chunk(Held, [], [10, 11], 0)
  {
    assert Place([20, 0], 0, [10, 11]) == [10, 11];
    hide Place;
  }

  lemma ReusedSound()
    ensures var w := Reused([20, 0], false).world;
            && E.Sound(w) && E.IsSegment(w, 7, 0)
            && TakeNext(w.recv.chunks[1], w.sent[7].Header(0), w.sent[7].Segs()[0].data) == Chunk(Held, [], [10, 11], 0)
  {
    SentFacts(Reused([20, 0], false).world);
    hide Sent, E.Shipment.Segs, E.Shipment.Header, E.Shipment.Proper, TakeNext, HeaderIs;
    Spilled(Reused([20, 0], false).world.sent[7].Header(0));
  }

  lemma WriteStray()
    ensures var s, x := Reused([20, 0], false), M.Do(E.Write(7, 0), None, Chunk(Held, [], [10, 11], 0));
            M.Enabled(s, x) && M.Careful(s, x) && M.After(s, x) == Reused([10, 11], true)
  {
    var s, spill := Reused([20, 0], false), Chunk(Held, [], [10, 11], 0);
    ReusedSound();
    hide E.Shipment.Segs, E.Shipment.Header, E.Shipment.Proper, TakeNext, Sent, E.Sound, E.IsSegment;
    hide M.Enabled, M.Careful, M.After;
    MX.HitEnabled(s, 7, 0, 0, 1, spill);
    assert M.Stray(s.world, 7, 0, 1, spill) == Reused([10, 11], true).world;
  }

  lemma ReceivedSecond(d: DatagramHeader)
    requires HeaderIs(d, 8, 2, 1)
    ensures var r := Receive(Reused([10, 11], true).world.recv, d, [21], Refused, 0, FROM);
            && r.published == [Publication(SERVICE, 1, FROM)] && r.chunks.Keys == {0, 1}
            && r.chunks[0].owner == Released && r.chunks[1].owner == Published && r.chunks[1].userPayload == [10, 21]
  {
    assert Place([10, 11], 1, [21]) == [10, 21];
    hide Place;
  }

  /** The last segment of message 8 publishes it. */
  lemma DeliverSecond()
    ensures var w, e := Reused([10, 11], true).world, E.Deliver(8, 1, Refused, 0, FROM);
            && E.Enabled(w, e) && X.Mild(w, e) && E.After(w, e).sent == w.sent
            && E.After(w, e).recv.published == [Publication(SERVICE, 1, FROM)]
            && 1 in E.After(w, e).recv.chunks && E.After(w, e).recv.chunks[1].userPayload == [10, 21]
  {
    var w := Reused([10, 11], true).world;
    SentFacts(w);
    ReceivedSecond(w.sent[8].Header(1));
    E.DatagramTakenExactly(w.recv, w.sent[8], 1, Refused, 0, FROM);
    hide E.Shipment.Segs, E.Shipment.Header, E.Shipment.Bytes, E.Shipment.Proper, ReceiveBytes, Receive, E.IsSegment, Sent;
  }

  /** From the memory being given back to the wrong publication. */
  lemma {:induction false} StrayRun() returns (ys: seq<M.Step>, t: M.Pool)
    ensures MX.Leads(M.Pool(Owned(map[], Released, 1), map[]), ys, t) && t.world.sent == Sent()
    ensures t.world.recv.published == [Publication(SERVICE, 1, FROM)] && 1 in t.world.recv.chunks
    ensures t.world.recv.chunks[1].userPayload == [10, 21]
  {
    DeliverReused();
    WriteStray();
    DeliverSecond();
    var u, v, w := M.Pool(Owned(map[], Released, 1), map[]), Reused([20, 0], false), Reused([10, 11], true);
    var y0 := M.Do(E.Deliver(8, 0, Granted(1, [], [0, 0]), 0, FROM), Some(0), NOTHING);
    var y1 := M.Do(E.Write(7, 0), None, Chunk(Held, [], [10, 11], 0));
    var e2 := E.Deliver(8, 1, Refused, 0, FROM);
    hide M.Enabled, M.Careful, M.After, MX.Leads, E.Enabled, E.After, X.Mild, Sent, Owned, NOTHING;
    MildStep(w.world, e2, w.moved);
    t := M.Pool(E.After(w.world, e2), w.moved);
    MX.LeadsOne(u, y0);
    MX.LeadsOne(v, y1);
    MX.LeadsOne(w, Step(e2));
    MX.LeadsOn(u, [y0], v, [y1], w);
    MX.LeadsOn(u, [y0] + [y1], w, [Step(e2)], t);
    ys := [y0] + [y1] + [Step(e2)];
  }

  lemma StartInit()
    ensures M.Init(M.Pool(Start(), map[]))
  {
    SentFacts(Start());
    hide Sent;
  }

  lemma RunOfTwo(s: M.Pool, x: M.Step, t: M.Pool, y: M.Step, u: M.Pool)
    requires M.Init(s) && M.Enabled(s, x) && M.Careful(s, x) && M.After(s, x) == t
    requires M.Enabled(t, y) && M.Careful(t, y) && M.After(t, y) == u
    ensures M.Run([s, t, u], [x, y])
  {
    hide M.Enabled, M.Careful, M.After, M.Init;
  }

  /** A careful run up to a state in which a buffer is given back while it is being written into; and a
      careful run from there that publishes message 8, sent as [20, 21], with a byte of message 7. */
  lemma {:induction false} ReusedMemory() returns (ss: seq<M.Pool>, xs: seq<M.Step>, x: M.Step, ys: seq<M.Step>, t: M.Pool)
    ensures M.Run(ss, xs) && M.Enabled(ss[|xs|], x) && x == Step(E.ReleaseExpired(0)) && !M.Careful(ss[|xs|], x)
    ensures MX.Leads(M.After(ss[|xs|], x), ys, t)
    ensures t.world.recv.published == [Publication(SERVICE, 1, FROM)] && 1 in t.world.recv.chunks
    ensures t.world.recv.chunks[1].userPayload == [10, 21]
    ensures 8 in t.world.sent && t.world.sent[8].m.payload == [20, 21]
  {
    var e0, e1 := E.Request(7, 0, Granted(0, [], [0, 0]), 0), E.Expire(7, 1001);
    var w1, w2 := Owned(map[7 := ENTRY], Held, 0), Owned(map[], Detached, 0);
    AskOne();
    ExpireOne();
    GiveBackOne();
    StartInit();
    ys, t := StrayRun();
    hide M.Enabled, M.Careful, M.After, M.Init, M.Run, MX.Leads, E.Enabled, E.After, X.Mild, Owned, Start, Step;
    MildStep(Start(), e0, map[]);
    MildStep(w1, e1, map[]);
    RunOfTwo(M.Pool(Start(), map[]), Step(e0), M.Pool(w1, map[]), Step(e1), M.Pool(w2, map[]));
    ss, xs := [M.Pool(Start(), map[]), M.Pool(w1, map[]), M.Pool(w2, map[])], [Step(e0), Step(e1)];
    x := Step(E.ReleaseExpired(0));
    SentFacts(w2);
  }

  // ---------- two threads ----------

  /** The first of the two segments of message n. */
  function FirstOf(n: Hash): L.Job {
    L.Job(L.UserData, DatagramHeader(SERVICE, n, 2, 0, 1, 2, 1, 0), [10], DeviceIndex(UDP, 1))
  }

  function Room(n: ChunkId): Loan {
    Granted(n, [], [0, 0])
  }

  function Idle(): L.System {
    L.System(Receiver({SERVICE}, map[], map[], []), L.Free, L.Free, L.Waiting, L.Asleep, 0)
  }

  lemma RunsOne(s: L.System, x: L.Step)
    requires L.Enabled(s, x)
    ensures L.Runs(s, [x]) && L.End(s, [x]) == L.After(s, x)
  {
    hide L.Enabled, L.After;
    assert L.Runs(L.After(s, x), [x][1..]);
  }

  lemma {:induction false} RunsOn(s: L.System, xs: seq<L.Step>, ys: seq<L.Step>)
    requires L.Runs(s, xs) && L.Runs(L.End(s, xs), ys)
    ensures L.Runs(s, xs + ys) && L.End(s, xs + ys) == L.End(L.End(s, xs), ys)
    decreases |xs|
  {
    hide L.Enabled, L.After;
    if xs == [] {
      assert xs + ys == ys;
    } else {
      RunsOn(L.After(s, xs[0]), xs[1..], ys);
      assert (xs + ys)[1..] == xs[1..] + ys;
    }
  }

  lemma RunsMore(s: L.System, xs: seq<L.Step>, t: L.System, x: L.Step)
    requires L.Runs(s, xs) && L.End(s, xs) == t && L.Enabled(t, x)
    ensures L.Runs(s, xs + [x]) && L.End(s, xs + [x]) == L.After(t, x)
  {
    hide L.Enabled, L.After;
    RunsOne(t, x);
    RunsOn(s, xs, [x]);
  }

  /** Nobody under way, n messages begun, numbered from 0, each in its own chunk. */
  ghost predicate Begun(s: L.System, n: nat) {
    && s.rx == L.Waiting && s.sw == L.Asleep && s.endpoints == L.Free && s.table == L.Free
    && SERVICE in s.recv.channels && Closed(s.recv)
    && (forall h: Hash :: h in s.recv.table <==> h < n) && |s.recv.table| == n
    && (forall id: ChunkId :: id in s.recv.chunks <==> id < n)
  }

  /** From there up to the push of the next message. */
  lemma UpToPush(s: L.System, n: nat) returns (steps: seq<L.Step>, t: L.System)
    requires Begun(s, n) && n <= MAX_SEGMENTED_MESSAGE_COUNT
    ensures L.Runs(s, steps) && L.End(s, steps) == t && L.Enabled(t, L.PushEntry)
    ensures t == s.(endpoints := L.ByReceive, table := L.ByReceive,
                    recv := s.recv.(chunks := s.recv.chunks[n := NewChunk(Room(n))]),
                    rx := L.Pushing(FirstOf(n), Room(n), s.clock))
  {
    var s1 := L.After(s, L.Arrive(FirstOf(n)));
    RunsOne(s, L.Arrive(FirstOf(n)));
    var s2 := L.After(s1, L.LockToFind);
    RunsMore(s, [L.Arrive(FirstOf(n))], s1, L.LockToFind);
    var s3 := L.After(s2, L.Find);
    RunsMore(s, [L.Arrive(FirstOf(n))] + [L.LockToFind], s2, L.Find);
    var s4 := L.After(s3, L.LoanChunk(Room(n)));
    RunsMore(s, [L.Arrive(FirstOf(n))] + [L.LockToFind] + [L.Find], s3, L.LoanChunk(Room(n)));
    t := L.After(s4, L.LockToPush);
    steps := [L.Arrive(FirstOf(n))] + [L.LockToFind] + [L.Find] + [L.LoanChunk(Room(n))];
    RunsMore(s, steps, s4, L.LockToPush);
    steps := steps + [L.LockToPush];
  }

  lemma OneKeyMore<K, V>(m: map<K, V>, k: K, v: V)
    requires k !in m
    ensures |m[k := v]| == |m| + 1
  {
    assert m[k := v].Keys == m.Keys + {k};
  }

  /** One message more is begun. */
  lemma BeginOne(s: L.System, n: nat) returns (steps: seq<L.Step>)
    requires Begun(s, n) && n < MAX_SEGMENTED_MESSAGE_COUNT
    ensures L.Runs(s, steps) && Begun(L.End(s, steps), n + 1)
  {
    var t;
    steps, t := UpToPush(s, n);
    var t1 := L.After(t, L.PushEntry);
    RunsMore(s, steps, t, L.PushEntry);
    var t2 := L.After(t1, L.CopyData);
    RunsMore(s, steps + [L.PushEntry], t1, L.CopyData);
    var t3 := L.After(t2, L.Finish);
    RunsMore(s, steps + [L.PushEntry] + [L.CopyData], t2, L.Finish);
    steps := steps + [L.PushEntry] + [L.CopyData] + [L.Finish];
    hide L.Runs, L.End, L.Enabled, TakeNext;
    var e := Entry(1, n, SERVICE, Deadline(FirstOf(n).h, s.clock));
    OneKeyMore(s.recv.table, n, e);
    assert t3.recv.table == s.recv.table[n := e];
    assert t3.recv.chunks.Keys == s.recv.chunks.Keys + {n};
  }

  lemma NoneBegun()
    ensures Begun(Idle(), 0)
  {
    var s := Idle();
    assert |s.recv.table| == 0 && |s.recv.chunks| == 0;
    assert forall h: Hash :: h !in s.recv.table;
    assert forall id: ChunkId :: id !in s.recv.chunks;
    assert SERVICE in s.recv.channels;
    assert Closed(s.recv);
  }

  lemma {:induction false} BeginMany(n: nat) returns (steps: seq<L.Step>)
    requires n <= MAX_SEGMENTED_MESSAGE_COUNT
    ensures L.Runs(Idle(), steps) && Begun(L.End(Idle(), steps), n)
  {
    hide Begun, Idle, L.Enabled, L.After;
    if n == 0 {
      NoneBegun();
      steps := [];
    } else {
      var xs := BeginMany(n - 1);
      var ys := BeginOne(L.End(Idle(), xs), n - 1);
      RunsOn(Idle(), xs, ys);
      steps := xs + ys;
    }
  }

  /** One message more than the table holds: its chunk is released, and the next step copies a
      segment into it. */
  lemma OverflowRun() returns (steps: seq<L.Step>)
    ensures L.Init(Idle()) && L.Runs(Idle(), steps)
    ensures var e := L.End(Idle(), steps);
            && L.Enabled(e, L.CopyData) && e.rx.Copying? && e.rx.overflow
            && e.rx.id in e.recv.chunks && e.recv.chunks[e.rx.id].owner == Released && e.recv.chunks[e.rx.id].givenUp == 1
  {
    var n := MAX_SEGMENTED_MESSAGE_COUNT;
    steps := BeginMany(n);
    var s := L.End(Idle(), steps);
    var more, t := UpToPush(s, n);
    RunsOn(Idle(), steps, more);
    RunsMore(Idle(), steps + more, t, L.PushEntry);
    steps := steps + more + [L.PushEntry];
  }

  /** A sweep that finds nothing to expire when it wakes, and an entry pushed after that which is
      expired for it: the deadline was computed before. */
  lemma LateRun() returns (steps: seq<L.Step>, s: L.System)
    ensures L.Init(Idle()) && L.Runs(Idle(), steps) && s == L.End(Idle(), steps) && s.sw != L.Asleep
    ensures L.ToExpire(s, s.sw.now) == {} && L.Late(s, s.sw.now)
    ensures L.Enabled(s, L.PushEntry) && L.ToExpire(L.After(s, L.PushEntry), s.sw.now) == {0}
  {
    NoneBegun();
    var t;
    steps, t := UpToPush(Idle(), 0);
    var t1 := L.After(t, L.Tick(1001));
    RunsMore(Idle(), steps, t, L.Tick(1001));
    s := L.After(t1, L.Wake);
    RunsMore(Idle(), steps + [L.Tick(1001)], t1, L.Wake);
    steps := steps + [L.Tick(1001)] + [L.Wake];
    hide L.Runs, L.End;
    assert Deadline(FirstOf(0).h, 0) == 1000;
  }

  // ---------- the routing cache ----------

  const DEVICE := DeviceIndex(UDP, 1)

  function Peer(): DeviceRecord {
    DeviceRecord(PubSubInfo([Service([], [], [])], {UDP}, 1, 0, false), [DEVICE])
  }

  function Over(): View {
    View(_ => SERVICE, {UDP}, {UDP}, UDP)
  }

  function Farewell(): PubSubInfo {
    PubSubInfo([], {UDP}, 1, 0, true)
  }

  lemma PeerIsDestination()
    ensures ComputeDeviceIndices(Over(), [Peer()], SERVICE) == [DEVICE]
    ensures RecordsAfter([Peer()], Farewell(), DEVICE) == []
  {
    var services := Peer().info.userSubscribers;
    assert Over().classHash(services[0]) == SERVICE;
    assert Contribution(Over(), Peer(), SERVICE) == [DEVICE];
    assert [Peer()][1..] == [];
  }

  /** The cache was last cleared with one record; its gateway terminates; a lookup cached then is not
      the lookup on the records of the last clear. */
  lemma CachedAfterTermination()
    ensures var cleared, now := [Peer()], RecordsAfter([Peer()], Farewell(), DEVICE);
            var cached := ComputeDeviceIndices(Over(), now, SERVICE);
            && CacheSound(map[SERVICE := cached], Over(), now, map[SERVICE := now], map[SERVICE := {}])
            && cached != ComputeDeviceIndices(Over(), cleared, SERVICE)
  {
    PeerIsDestination();
    EmptyCacheSound(Over(), [], map[], map[]);
    QueryKeepsSound(map[], Over(), [], SERVICE, map[], map[]);
  }

  /** A lookup cached before the termination still names the terminated gateway's device. */
  lemma CachedBeforeTermination()
    ensures var before, now := [Peer()], RecordsAfter([Peer()], Farewell(), DEVICE);
            var cached := ComputeDeviceIndices(Over(), before, SERVICE);
            && CacheSound(map[SERVICE := cached], Over(), now, map[SERVICE := before], AlsoGone(map[SERVICE := {}], 1))
            && cached == [DEVICE] && ComputeDeviceIndices(Over(), now, SERVICE) == []
  {
    PeerIsDestination();
    EmptyCacheSound(Over(), [Peer()], map[], map[]);
    QueryKeepsSound(map[], Over(), [Peer()], SERVICE, map[], map[]);
    TerminationKeepsSound(map[SERVICE := [DEVICE]], Over(), [Peer()], 0, map[SERVICE := [Peer()]], map[SERVICE := {}]);
    assert [Peer()][..0] + [Peer()][1..] == [];
  }
}

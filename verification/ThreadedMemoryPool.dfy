/** The end-to-end guarantee with the threads interleaved, by copy and by DMA: the callbacks and the
    timeout sweep at every lock operation, the DMA engines at any moment, and memory that is loaned
    again. What the threads do, one operation after the other, is a run of MemoryPool; as long as that
    run is careful, what has been published is right at every moment. */
module ThreadedMemoryPool {
  import opened Types
  import opened DataWriter
  import opened Reassembly
  import E = EndToEnd
  import M = MemoryPool
  import L = TwoLocks
  import T = ThreadedEndToEnd

  /** The header that comes with segment i of h, as a call has it. */
  ghost predicate IsHeader(w: E.World, h: Hash, i: nat, d: DatagramHeader)
    requires w.Proper()
  {
    E.IsSegment(w, h, i) && d == w.sent[h].Header(i)
  }

  /** The operation is this event. */
  ghost predicate Stands(w: E.World, op: L.Operation, e: E.Event)
    requires w.Proper()
  {
    match op
    case Nothing => false
    case Received(job, loan, now) =>
      && e.Deliver? && e == E.Deliver(e.hash, e.i, loan, now, job.from) && IsHeader(w, e.hash, e.i, job.h)
      && job.data == w.sent[e.hash].Segs()[e.i].data && |job.data| + 44 < TWO32
    case Lent(job, loan, now) => e.Request? && e == E.Request(e.hash, e.i, loan, now) && IsHeader(w, e.hash, e.i, job.h)
    case Returned(job) =>
      && (e.Complete? || e.Abort?) && IsHeader(w, e.hash, e.i, job.h) && e.from == job.from
      && job.callback == L.BufferReleased(e.Abort?)
    case Wrote(id, h, data) =>
      && e.Write? && IsHeader(w, e.hash, e.i, h) && data == w.sent[e.hash].Segs()[e.i].data
      && (e.hash, e.i) in w.dma && w.dma[(e.hash, e.i)].chunk == id
    case Expired(hash, now) => e == E.Expire(hash, now)
    case GivenBack(id) => e == E.ReleaseExpired(id)
  }

  /** A step of the threads or of a DMA engine, with what it is to the pool if it has an effect; or what
      happens outside of them: a message is sent, or a datagram fails the length check, which comes before
      any lock. */
  datatype Act =
    | Silent(a: L.Step)
    | Act(a: L.Step, x: M.Step)
    | Outside(x: M.Step)

  ghost predicate Enabled(s: L.System, m: M.Pool, act: Act) {
    match act
    case Silent(a) => L.Enabled(s, a) && L.OperationOf(s, a).Nothing?
    case Act(a, x) =>
      && L.Enabled(s, a) && x.Do? && M.Enabled(m, x) && M.Careful(m, x)
      && E.Sound(m.world) && Stands(m.world, L.OperationOf(s, a), x.e)
    case Outside(x) => !x.Do? && M.Enabled(m, x)
  }

  ghost function SystemAfter(s: L.System, m: M.Pool, act: Act): L.System
    requires Enabled(s, m, act)
  {
    if act.Outside? then s else L.After(s, act.a)
  }

  ghost function PoolAfter(s: L.System, m: M.Pool, act: Act): M.Pool
    requires Enabled(s, m, act)
  {
    if act.Silent? then m else M.After(m, act.x)
  }

  /** An interleaving whose operations are a careful run of the pool. */
  ghost predicate Runs(s: L.System, m: M.Pool, acts: seq<Act>)
    decreases |acts|
  {
    acts == [] || (Enabled(s, m, acts[0]) && Runs(SystemAfter(s, m, acts[0]), PoolAfter(s, m, acts[0]), acts[1..]))
  }

  ghost function End(s: L.System, m: M.Pool, acts: seq<Act>): (L.System, M.Pool)
    requires Runs(s, m, acts)
    decreases |acts|
  {
    if acts == [] then (s, m) else End(SystemAfter(s, m, acts[0]), PoolAfter(s, m, acts[0]), acts[1..])
  }

  ghost predicate Mirrors(s: L.System, m: M.Pool, a: E.Aux) {
    L.Inv(s) && L.Known(s) && M.Inv(m, a) && m.world.recv == L.Atomic(s)
  }

  /** The event does to the receiver what the operation does. */
  lemma StandsFor(w: E.World, op: L.Operation, e: E.Event, r: Receiver)
    requires E.Enabled(w, e) && w.Proper() && Stands(w, op, e) && L.Does(w.recv, op, r)
    ensures E.After(w, e).recv == r
  {
    if op.Received? {
      E.DatagramTakenExactly(w.recv, w.sent[e.hash], e.i, e.loan, e.now, e.from);
    }
    hide E.Shipment.Segs, E.Shipment.Header, E.Shipment.Bytes, E.Shipment.Proper, Receive, ReceiveBytes, LoanBuffer, ReleaseBuffer,
         Copy, Detach, GiveBack;
  }

  lemma {:induction false} ActKeeps(s: L.System, m: M.Pool, a: E.Aux, act: Act) returns (b: E.Aux)
    requires Mirrors(s, m, a) && Enabled(s, m, act)
    ensures Mirrors(SystemAfter(s, m, act), PoolAfter(s, m, act), b)
  {
    hide L.Inv, L.After, L.Enabled, L.Atomic, L.Does, L.OperationOf, L.Known, M.Inv, M.After, M.Enabled, M.Careful, E.After,
         E.Enabled, Stands, E.Sound;
    if act.Outside? {
      b := M.StepKeeps(m, a, act.x) by { OutsideCareful(m, act.x); }
      OutsideRecv(m, act.x);
    } else {
      L.StepKeeps(s, act.a);
      L.StepDoes(s, act.a);
      if act.Silent? {
        NothingDone(L.Atomic(s), L.OperationOf(s, act.a), L.Atomic(L.After(s, act.a)));
        b := a;
      } else {
        b := M.StepKeeps(m, a, act.x);
        PoolEnabled(m, act.x);
        StandsFor(m.world, L.OperationOf(s, act.a), act.x.e, L.Atomic(L.After(s, act.a)));
      }
    }
  }

  lemma PoolEnabled(m: M.Pool, x: M.Step)
    requires M.Enabled(m, x) && x.Do?
    ensures E.Enabled(m.world, x.e) && m.world.Proper()
  {}

  lemma OutsideCareful(m: M.Pool, x: M.Step)
    requires M.Enabled(m, x) && !x.Do?
    ensures M.Careful(m, x)
  {}

  lemma OutsideRecv(m: M.Pool, x: M.Step)
    requires M.Enabled(m, x) && !x.Do?
    ensures M.After(m, x).world.recv == m.world.recv
  {
    if x.Mangled? {
      M.MangledChangesNothing(m, x);
    }
  }

  lemma NothingDone(r: Receiver, op: L.Operation, r': Receiver)
    requires L.Does(r, op, r') && op.Nothing?
    ensures r' == r
  {}

  lemma {:induction false} RunKeeps(s: L.System, m: M.Pool, a: E.Aux, acts: seq<Act>) returns (b: E.Aux)
    requires Mirrors(s, m, a) && Runs(s, m, acts)
    ensures Mirrors(End(s, m, acts).0, End(s, m, acts).1, b)
    decreases |acts|
  {
    hide Mirrors, Enabled, SystemAfter, PoolAfter;
    if acts == [] {
      b := a;
    } else {
      var c := ActKeeps(s, m, a, acts[0]);
      b := RunKeeps(SystemAfter(s, m, acts[0]), PoolAfter(s, m, acts[0]), c, acts[1..]);
    }
  }

  lemma MirrorsShadow(s: L.System, m: M.Pool, a: E.Aux)
    requires Mirrors(s, m, a)
    ensures T.Shadows(s, m.world, a)
  {}

  lemma Start(s: L.System, m: M.Pool) returns (a: E.Aux)
    requires L.Init(s) && M.Init(m) && m.world.recv == s.recv
    ensures Mirrors(s, m, a)
  {
    L.InitInv(s);
    a := M.InitInv(m);
    hide M.Inv, L.Inv;
  }

  /** In every interleaving of callbacks, sweep and DMA engines whose operations are a careful run, at
      every moment: the publications are sent messages, each a different one, byte for byte. */
  lemma {:induction false} ThreadedEndToEnd(s: L.System, m: M.Pool, acts: seq<Act>) returns (which: seq<Hash>)
    requires L.Init(s) && M.Init(m) && m.world.recv == s.recv && Runs(s, m, acts)
    ensures var r, sent := End(s, m, acts).0.recv, End(s, m, acts).1.world.sent;
            && |which| == |r.published|
            && (forall k :: 0 <= k < |which| ==> which[k] in sent && E.Delivers(r, r.published[k], sent[which[k]].m))
            && (forall j, k :: 0 <= j < k < |which| ==> which[j] != which[k])
  {
    hide Mirrors, E.Delivers, L.Init, M.Init, Runs, End, T.Shadows;
    var a := Start(s, m);
    var b := RunKeeps(s, m, a, acts);
    MirrorsShadow(End(s, m, acts).0, End(s, m, acts).1, b);
    which := T.AllDelivered(End(s, m, acts).0, End(s, m, acts).1.world, b);
  }
}

/** The end-to-end guarantee with the threads interleaved, for messages that arrive by copy: the
    receive path and the timeout sweep at every lock operation, fed with segments of sent messages in
    any order, with losses. */
module ThreadedEndToEnd {
  import opened Types
  import opened DataWriter
  import opened Reassembly
  import E = EndToEnd
  import L = TwoLocks

  // ---------- what arrives ----------

  /** The job is segment i of the sent message h, in a datagram that passes the length check. */
  ghost predicate Carries(sent: map<Hash, E.Shipment>, job: L.Job, h: Hash, i: nat) {
    && h in sent && sent[h].Proper() && sent[h].m.hash == h && i < |sent[h].Segs()|
    && job.callback.UserData? && job.h == sent[h].Header(i) && job.data == sent[h].Segs()[i].data
    && |job.data| + 44 < TWO32
  }

  /** The jobs that arrive are segments of sent messages, and no datagram arrives twice; nothing is
      written by DMA. */
  ghost predicate Genuine(sent: map<Hash, E.Shipment>, steps: seq<L.Step>) {
    && (forall h :: h in sent ==> sent[h].Proper() && sent[h].m.hash == h)
    && (forall k :: 0 <= k < |steps| && steps[k].Arrive? ==> exists h: Hash, i: nat :: Carries(sent, steps[k].job, h, i))
    && (forall k, l :: 0 <= k < l < |steps| && steps[k].Arrive? && steps[l].Arrive? ==> steps[k].job.h != steps[l].job.h)
    && (forall k :: 0 <= k < |steps| ==> !steps[k].WriteByDma?)
  }

  /** The job has not been received yet. */
  ghost predicate Unreceived(w: E.World, job: L.Job) {
    exists h: Hash, i: nat :: Carries(w.sent, job, h, i) && (h, i) !in w.used
  }

  /** The job of a receive that has not taken effect. */
  function InHand(s: L.System): Option<L.Job> {
    match s.rx
    case Entered(job) => Some(job)
    case Finding(job) => Some(job)
    case NotFound(job) => Some(job)
    case Loaned(job, _, _) => Some(job)
    case Pushing(job, _, _) => Some(job)
    case _ => None
  }

  /** A callback takes effect. */
  predicate IsCall(op: L.Operation) {
    op.Received? || op.Lent? || op.Returned?
  }

  lemma InHandAfter(s: L.System, x: L.Step)
    requires L.Enabled(s, x)
    ensures IsCall(L.OperationOf(s, x)) ==>
              && InHand(s) == Some(L.OperationOf(s, x).job) && InHand(L.After(s, x)) == None
              && (L.OperationOf(s, x).job.callback.UserData? <==> L.OperationOf(s, x).Received?)
    ensures !IsCall(L.OperationOf(s, x)) ==>
              InHand(L.After(s, x)) == if x.Arrive? then Some(x.job) else InHand(s)
    ensures x.Arrive? ==> L.OperationOf(s, x).Nothing? && InHand(s) == None
    ensures L.OperationOf(s, x).Wrote? <==> x.WriteByDma?
  {
    hide Copy, Publish, Detach, GiveBack, Push, Decrement, Release;
  }

  // ---------- one step of the threads is one careful event, or none ----------

  /** The atomic state of the threads is a world in which all is well. */
  ghost predicate Shadows(s: L.System, w: E.World, a: E.Aux) {
    L.Inv(s) && L.Known(s) && E.Inv(w, a) && w.recv == L.Atomic(s)
  }

  /** And there is no DMA. */
  ghost predicate Mirrors(s: L.System, w: E.World, a: E.Aux) {
    Shadows(s, w, a) && w.dma == map[]
  }

  lemma NoDmaIsHarmless(w: E.World, h: Hash)
    requires w.Proper() && w.dma == map[]
    ensures E.Harmless(w, h)
  {}

  lemma ReceivedEvent(w: E.World, a: E.Aux, job: L.Job, loan: Loan, now: int, h: Hash, i: nat)
    requires E.Inv(w, a) && w.dma == map[] && Carries(w.sent, job, h, i) && (h, i) !in w.used
    requires ValidLoan(w.recv, job.h, loan)
    ensures var e := E.Deliver(h, i, loan, now, job.from);
            && E.Enabled(w, e) && E.Careful(w, e) && Closed(w.recv)
            && E.After(w, e)
               == E.World(w.sent, Receive(w.recv, job.h, job.data, loan, now, job.from), w.used + {(h, i)}, map[])
  {
    E.InvSound(w, a);
    E.DatagramTakenExactly(w.recv, w.sent[h], i, loan, now, job.from);
    hide E.Inv, Receive, ReceiveBytes, E.Shipment.Segs, E.Shipment.Header, E.Shipment.Bytes;
  }

  lemma ReceivedStep(w: E.World, a: E.Aux, job: L.Job, loan: Loan, now: int) returns (v: E.World, b: E.Aux, h: Hash, i: nat)
    requires E.Inv(w, a) && w.dma == map[] && Unreceived(w, job) && Closed(w.recv) && ValidLoan(w.recv, job.h, loan)
    ensures E.Inv(v, b) && v.dma == map[] && v.sent == w.sent
    ensures v.recv == Receive(w.recv, job.h, job.data, loan, now, job.from)
    ensures Carries(w.sent, job, h, i) && v.used == w.used + {(h, i)}
  {
    h, i :| Carries(w.sent, job, h, i) && (h, i) !in w.used;
    ReceivedEvent(w, a, job, loan, now, h, i);
    hide E.Inv, E.After, E.Enabled, E.Careful, Carries, Receive;
    var e := E.Deliver(h, i, loan, now, job.from);
    v := E.After(w, e);
    b := E.StepKeeps(w, a, e);
  }

  lemma SweepEvents(w: E.World, e: E.Event)
    requires E.Sound(w) && w.dma == map[]
    requires match e
             case Expire(hash, now) => hash in w.recv.table && w.recv.table[hash].deadline < now
             case ReleaseExpired(id) => id in w.recv.chunks && w.recv.chunks[id].owner == Detached
             case _ => false
    ensures E.Enabled(w, e) && E.Careful(w, e)
    ensures E.After(w, e) == w.(recv := if e.Expire? then Detach(w.recv, e.hash) else GiveBack(w.recv, e.id))
  {
    if e.Expire? {
      NoDmaIsHarmless(w, e.hash);
    }
    hide E.Harmless, E.Shipment.Segs, E.Shipment.Header, E.Shipment.Bytes, Detach, GiveBack;
  }

  lemma ExpiredStep(w: E.World, a: E.Aux, hash: Hash, now: int) returns (v: E.World, b: E.Aux)
    requires E.Inv(w, a) && w.dma == map[] && Closed(w.recv) && hash in w.recv.table && w.recv.table[hash].deadline < now
    ensures E.Inv(v, b) && v.dma == map[] && v.sent == w.sent && v.used == w.used && v.recv == Detach(w.recv, hash)
  {
    E.InvSound(w, a);
    SweepEvents(w, E.Expire(hash, now));
    hide E.Inv, E.After, E.Enabled, E.Careful, Detach;
    v := E.After(w, E.Expire(hash, now));
    b := E.StepKeeps(w, a, E.Expire(hash, now));
  }

  lemma GivenBackStep(w: E.World, a: E.Aux, id: ChunkId) returns (v: E.World, b: E.Aux)
    requires E.Inv(w, a) && w.dma == map[] && id in w.recv.chunks && w.recv.chunks[id].owner == Detached
    ensures E.Inv(v, b) && v.dma == map[] && v.sent == w.sent && v.used == w.used && v.recv == GiveBack(w.recv, id)
  {
    E.InvSound(w, a);
    SweepEvents(w, E.ReleaseExpired(id));
    hide E.Inv, E.After, E.Enabled, E.Careful, GiveBack;
    v := E.After(w, E.ReleaseExpired(id));
    b := E.StepKeeps(w, a, E.ReleaseExpired(id));
  }

  /** The jobs still to be received, in hand or to come, are all different. */
  ghost predicate Pending(s: L.System, w: E.World, steps: seq<L.Step>) {
    && (InHand(s).Some? ==> Unreceived(w, InHand(s).value))
    && (forall k :: 0 <= k < |steps| && steps[k].Arrive? ==> Unreceived(w, steps[k].job))
    && (forall k :: 0 <= k < |steps| && steps[k].Arrive? && InHand(s).Some? ==> steps[k].job.h != InHand(s).value.h)
    && (forall k, l :: 0 <= k < l < |steps| && steps[k].Arrive? && steps[l].Arrive? ==> steps[k].job.h != steps[l].job.h)
    && (forall k :: 0 <= k < |steps| ==> !steps[k].WriteByDma?)
  }

  /** Receiving one job leaves the others unreceived. */
  lemma OtherUnreceived(w: E.World, v: E.World, job: L.Job, h: Hash, i: nat, other: L.Job)
    requires v.sent == w.sent && v.used == w.used + {(h, i)} && Carries(w.sent, job, h, i)
    requires Unreceived(w, other) && other.h != job.h
    ensures Unreceived(v, other)
  {
    hide E.Shipment.Segs, E.Shipment.Header, E.Shipment.Proper;
    var g: Hash, j: nat :| Carries(w.sent, other, g, j) && (g, j) !in w.used;
    assert (g, j) != (h, i);
    assert Carries(v.sent, other, g, j);
  }

  lemma SameUnreceived(w: E.World, v: E.World, job: L.Job)
    requires v.sent == w.sent && v.used == w.used && Unreceived(w, job)
    ensures Unreceived(v, job)
  {
    hide Carries;
  }

  lemma PendingRest(s: L.System, w: E.World, s': L.System, v: E.World, steps: seq<L.Step>)
    requires steps != [] && L.Enabled(s, steps[0]) && s' == L.After(s, steps[0]) && Pending(s, w, steps)
    requires v.sent == w.sent
    requires var op := L.OperationOf(s, steps[0]);
             if IsCall(op) then exists h: Hash, i: nat :: Carries(w.sent, op.job, h, i) && v.used == w.used + {(h, i)}
             else v.used == w.used
    ensures Pending(s', v, steps[1..])
  {
    InHandAfter(s, steps[0]);
    var rest, op := steps[1..], L.OperationOf(s, steps[0]);
    hide L.After, L.Enabled, L.OperationOf, Carries, Unreceived;
    forall k | 0 <= k < |rest| && rest[k].Arrive? ensures Unreceived(v, rest[k].job) {
      assert rest[k] == steps[k + 1];
      if IsCall(op) {
        var h: Hash, i: nat :| Carries(w.sent, op.job, h, i) && v.used == w.used + {(h, i)};
        OtherUnreceived(w, v, op.job, h, i, rest[k].job);
      } else {
        SameUnreceived(w, v, rest[k].job);
      }
    }
    if InHand(s').Some? {
      SameUnreceived(w, v, InHand(s').value);
    }
  }

  lemma OnlyUserData(w: E.World, job: L.Job)
    requires Unreceived(w, job)
    ensures job.callback.UserData?
  {}

  lemma MirrorStep(s: L.System, w: E.World, a: E.Aux, steps: seq<L.Step>) returns (v: E.World, b: E.Aux)
    requires Mirrors(s, w, a) && steps != [] && L.Enabled(s, steps[0]) && Pending(s, w, steps)
    ensures Mirrors(L.After(s, steps[0]), v, b) && Pending(L.After(s, steps[0]), v, steps[1..]) && v.sent == w.sent
  {
    var x, s' := steps[0], L.After(s, steps[0]);
    var op := L.OperationOf(s, x);
    L.StepKeeps(s, x);
    L.StepDoes(s, x);
    InHandAfter(s, x);
    if IsCall(op) {
      OnlyUserData(w, op.job);
    }
    hide L.After, L.Enabled, L.OperationOf, L.Inv, L.Atomic, E.Inv, Carries, Unreceived;
    v, b := w, a;
    match op {
      case Nothing =>
      case Received(job, loan, now) =>
        var h, i;
        v, b, h, i := ReceivedStep(w, a, job, loan, now);
      case Expired(hash, now) => v, b := ExpiredStep(w, a, hash, now);
      case GivenBack(id) => v, b := GivenBackStep(w, a, id);
      case _ => assert false;
    }
    PendingRest(s, w, s', v, steps);
  }

  lemma {:induction false} MirrorRun(s: L.System, w: E.World, a: E.Aux, steps: seq<L.Step>) returns (v: E.World, b: E.Aux)
    requires Mirrors(s, w, a) && L.Runs(s, steps) && Pending(s, w, steps)
    ensures Mirrors(L.End(s, steps), v, b) && v.sent == w.sent
    decreases |steps|
  {
    hide Mirrors, Pending, L.After, L.Enabled;
    if steps == [] {
      v, b := w, a;
    } else {
      var u, c := MirrorStep(s, w, a, steps);
      v, b := MirrorRun(L.After(s, steps[0]), u, c, steps[1..]);
    }
  }

  // ---------- the guarantee ----------

  /** What has been published is already so in the atomic state, with the same bytes. */
  lemma PublishedAlready(s: L.System)
    requires L.Inv(s) && L.Known(s)
    ensures |s.recv.published| <= |L.Atomic(s).published|
    ensures forall k :: 0 <= k < |s.recv.published| ==>
              var p := s.recv.published[k];
              && L.Atomic(s).published[k] == p && p.chunk in s.recv.chunks && p.chunk in L.Atomic(s).chunks
              && L.Atomic(s).chunks[p.chunk].userHeader == s.recv.chunks[p.chunk].userHeader
              && L.Atomic(s).chunks[p.chunk].userPayload == s.recv.chunks[p.chunk].userPayload
  {
    hide TakeNext, EntriesOwn, HeldHasEntry;
    if s.rx.Copying? || (s.rx.Copied? && s.rx.publish) {
      forall k | 0 <= k < |s.recv.published| ensures s.recv.published[k].chunk != s.rx.id {
        NotPublishedYet(s, k);
      }
    }
    PublishedKnown(L.Atomic(s));
  }

  lemma PublishedKnown(r: Receiver)
    requires PublishedOnce(r)
    ensures forall k :: 0 <= k < |r.published| ==> r.published[k].chunk in r.chunks
  {}

  /** The chunk a receive is copying into, or about to publish, has not been published. */
  lemma NotPublishedYet(s: L.System, k: nat)
    requires L.Inv(s) && L.Known(s) && k < |s.recv.published|
    requires s.rx.Copying? || (s.rx.Copied? && s.rx.publish)
    ensures s.recv.published[k].chunk != s.rx.id
  {
    hide TakeNext, EntriesOwn, HeldHasEntry;
    var r := L.Atomic(s);
    assert r.published[k] == s.recv.published[k];
    if s.rx.publish {
      assert r.published[|s.recv.published|].chunk == s.rx.id;
    }
  }

  lemma Start(sent: map<Hash, E.Shipment>, s: L.System, steps: seq<L.Step>) returns (w: E.World, a: E.Aux)
    requires L.Init(s) && Genuine(sent, steps)
    ensures Mirrors(s, w, a) && Pending(s, w, steps) && w.sent == sent
  {
    w := E.World(sent, s.recv, {}, map[]);
    L.InitInv(s);
    a := E.InitInv(w);
    forall k | 0 <= k < |steps| && steps[k].Arrive? ensures Unreceived(w, steps[k].job) {
      var h: Hash, i: nat :| Carries(sent, steps[k].job, h, i);
      assert Carries(w.sent, steps[k].job, h, i) && (h, i) !in w.used;
    }
  }

  lemma DeliveredToo(s: L.System, w: E.World, a: E.Aux, k: nat)
    requires Shadows(s, w, a) && k < |s.recv.published|
    ensures var p := s.recv.published[k];
            && k < |w.recv.published| && w.recv.published[k] == p
            && p.chunk in a.msgOf && a.msgOf[p.chunk] in w.sent && E.Delivers(s.recv, p, w.sent[a.msgOf[p.chunk]].m)
  {
    PublishedAlready(s);
    hide L.Inv, L.Atomic, E.Inv, L.Known;
    E.PublishedWhole(w, a, k);
  }

  lemma DistinctToo(s: L.System, w: E.World, a: E.Aux, j: nat, k: nat)
    requires Shadows(s, w, a) && j < k < |s.recv.published|
    ensures s.recv.published[j].chunk in a.msgOf && s.recv.published[k].chunk in a.msgOf
    ensures a.msgOf[s.recv.published[j].chunk] != a.msgOf[s.recv.published[k].chunk]
  {
    DeliveredToo(s, w, a, j);
    DeliveredToo(s, w, a, k);
    hide L.Inv, L.Atomic, E.Inv, L.Known, E.Delivers;
    E.PublishedApart(w, a, j, k);
  }

  lemma {:induction false} AllDelivered(s: L.System, w: E.World, a: E.Aux) returns (which: seq<Hash>)
    requires Shadows(s, w, a)
    ensures |which| == |s.recv.published|
    ensures forall k :: 0 <= k < |which| ==>
              which[k] in w.sent && E.Delivers(s.recv, s.recv.published[k], w.sent[which[k]].m)
    ensures forall j, k :: 0 <= j < k < |which| ==> which[j] != which[k]
  {
    hide Shadows, E.Delivers;
    which := [];
    while |which| < |s.recv.published|
      invariant |which| <= |s.recv.published|
      invariant forall k :: 0 <= k < |which| ==>
                  && s.recv.published[k].chunk in a.msgOf && which[k] == a.msgOf[s.recv.published[k].chunk]
                  && which[k] in w.sent && E.Delivers(s.recv, s.recv.published[k], w.sent[which[k]].m)
    {
      DeliveredToo(s, w, a, |which|);
      which := which + [a.msgOf[s.recv.published[|which|].chunk]];
    }
    forall j, k | 0 <= j < k < |which| ensures which[j] != which[k] {
      DistinctToo(s, w, a, j, k);
    }
  }

  lemma MirrorsShadow(s: L.System, w: E.World, a: E.Aux)
    requires Mirrors(s, w, a)
    ensures Shadows(s, w, a)
  {}

  /** In every interleaving of the threads, at every moment: if what arrives are segments of sent
      messages, each at most once, then the publications are sent messages, each a different one,
      byte for byte. No room in the table is needed, and no bound on loans or timeouts. */
  lemma ThreadedEndToEnd(sent: map<Hash, E.Shipment>, s: L.System, steps: seq<L.Step>) returns (which: seq<Hash>)
    requires L.Init(s) && L.Runs(s, steps) && Genuine(sent, steps)
    ensures var r := L.End(s, steps).recv;
            && |which| == |r.published|
            && (forall k :: 0 <= k < |which| ==> which[k] in sent && E.Delivers(r, r.published[k], sent[which[k]].m))
            && (forall j, k :: 0 <= j < k < |which| ==> which[j] != which[k])
  {
    hide Mirrors, Pending, Genuine, E.Delivers, L.Init, L.Runs, L.End;
    var w, a := Start(sent, s, steps);
    var v, b := MirrorRun(s, w, a, steps);
    MirrorsShadow(L.End(s, steps), v, b);
    which := AllDelivered(L.End(s, steps), v, b);
  }
}

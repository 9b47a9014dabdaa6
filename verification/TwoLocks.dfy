/** The transports' callbacks, the timeout sweep and the DMA engines, interleaved at every lock
    operation. A callback takes the endpoints mutex and inside it the table mutex, twice if it pushes;
    the sweep takes an expired entry out under the table mutex, drops that, and only then takes the
    endpoints mutex to release the chunk; a DMA engine takes no lock. The endpoints mutex lets one
    callback in at a time, so `rx` stands for any number of receiving threads. The set of channels is
    fixed. */
module TwoLocks {
  import opened Types
  import opened Reassembly
  import opened Helpers

  /** receive, loanBuffer and releaseBuffer. */
  datatype Callback = UserData | BufferNeeded | BufferReleased(shouldRelease: bool)

  /** A call; only user data comes with bytes. */
  datatype Job = Job(callback: Callback, h: DatagramHeader, data: seq<byte>, from: DeviceIndex)

  /** Where the callback that holds the endpoints mutex is. `overflow` remembers that the push found
      the table full. */
  datatype Receiving =
    | Waiting
    | Entered(job: Job)
    | Finding(job: Job)
    | NotFound(job: Job)
    | Loaned(job: Job, loan: Loan, now: int)
    | Pushing(job: Job, loan: Loan, now: int)
    | Copying(job: Job, id: ChunkId, publish: bool, overflow: bool)
    | Copied(job: Job, id: ChunkId, publish: bool)

  datatype Sweeping =
    | Asleep
    | Passing(now: int)
    | Scanning(now: int)
    | Holding(now: int, id: ChunkId)
    | Releasing(now: int, id: ChunkId)

  datatype Lock = Free | ByReceive | BySweep

  datatype System = System(recv: Receiver, endpoints: Lock, table: Lock, rx: Receiving, sw: Sweeping, clock: int)

  datatype Step =
    | Arrive(job: Job)
    | NoChannel
    | LockToFind
    | Find
    | LoanChunk(loan: Loan)
    | LockToPush
    | PushEntry
    | CopyData
    | Finish
    | Wake
    | LockToScan
    | Scan(hash: Hash)
    | ScanNone
    | LockToRelease
    | ReleaseChunk
    | Tick(d: nat)
    | WriteByDma(id: ChunkId, h: DatagramHeader, data: seq<byte>)

  /** Two segments of one message that do not overlap. */
  predicate Disjoint(g: DatagramHeader, data: seq<byte>, h: DatagramHeader, data': seq<byte>) {
    && g.userHeaderSize == h.userHeaderSize
    && (g.submessageOffset + |data| <= h.submessageOffset || h.submessageOffset + |data'| <= g.submessageOffset)
  }

  predicate Enabled(s: System, a: Step) {
    match a
    case Arrive(_) => s.rx == Waiting && s.endpoints == Free
    case NoChannel => s.rx.Entered? && s.rx.job.h.serviceHash !in s.recv.channels
    case LockToFind => s.rx.Entered? && s.rx.job.h.serviceHash in s.recv.channels && s.table == Free
    case Find => s.rx.Finding? && Closed(s.recv)
    case LoanChunk(loan) => s.rx.NotFound? && ValidLoan(s.recv, s.rx.job.h, loan)
    case LockToPush => s.rx.Loaned? && s.table == Free
    case PushEntry => s.rx.Pushing? && s.rx.loan.Granted? && s.rx.loan.id in s.recv.chunks
    case CopyData => s.rx.Copying? && s.rx.id in s.recv.chunks
    case Finish => s.rx.Copied? && s.rx.id in s.recv.chunks
    case Wake => s.sw == Asleep
    case LockToScan => s.sw.Passing? && s.table == Free
    case Scan(hash) => s.sw.Scanning? && Closed(s.recv) && hash in s.recv.table && s.recv.table[hash].deadline < s.sw.now
    case ScanNone => s.sw.Scanning? && forall hash :: hash in s.recv.table ==> s.recv.table[hash].deadline >= s.sw.now
    case LockToRelease => s.sw.Holding? && s.endpoints == Free
    case ReleaseChunk => s.sw.Releasing? && s.sw.id in s.recv.chunks
    case Tick(_) => true
    case WriteByDma(id, h, data) =>
      && id in s.recv.chunks
      && (s.rx.Loaned? || s.rx.Pushing? ==> s.rx.loan.Granted? && s.rx.loan.id != id)
      && (s.rx.Copying? && s.rx.id == id ==> Disjoint(h, data, s.rx.job.h, s.rx.job.data))
  }

  /** The calls that need a chunk when they find no entry. */
  predicate Obtains(job: Job) {
    !job.callback.BufferReleased?
  }

  /** The callback has found the entry: it counts a segment down and goes on to copy it or publish the
      chunk, has a buffer to return, or takes the entry out. */
  function Found(s: System, job: Job): System
    requires Closed(s.recv) && job.h.messageHash in s.recv.table
  {
    var hash := job.h.messageHash;
    var id := s.recv.table[hash].chunk;
    match job.callback
    case UserData =>
      s.(recv := Decrement(s.recv, hash), table := Free, rx := Copying(job, id, Completes(s.recv, hash), false))
    case BufferNeeded => s.(table := Free, rx := Copied(job, id, false))
    case BufferReleased(shouldRelease) =>
      if shouldRelease then s.(recv := Release(s.recv, hash), table := Free, rx := Copied(job, id, false))
      else s.(recv := Decrement(s.recv, hash), table := Free, rx := Copied(job, id, Completes(s.recv, hash)))
  }

  /** The segments an entry waits for when it is pushed. */
  function ToCome(job: Job): uint32 {
    if job.callback.UserData? then Wrap32(job.h.submessageCount - 1) else job.h.submessageCount
  }

  function After(s: System, a: Step): System
    requires Enabled(s, a)
  {
    match a
    case Arrive(job) => s.(endpoints := ByReceive, rx := Entered(job))
    case NoChannel => s.(endpoints := Free, rx := Waiting)
    case LockToFind => s.(table := ByReceive, rx := Finding(s.rx.job))
    case Find =>
      if s.rx.job.h.messageHash in s.recv.table then Found(s, s.rx.job)
      else if Obtains(s.rx.job) then s.(table := Free, rx := NotFound(s.rx.job))
      else s.(table := Free, endpoints := Free, rx := Waiting)
    case LoanChunk(loan) =>
      var job := s.rx.job;
      if loan.Refused? then s.(endpoints := Free, rx := Waiting)
      else
        s.(recv := s.recv.(chunks := s.recv.chunks[loan.id := NewChunk(loan)]),
           rx := if job.callback.BufferNeeded? || job.h.submessageCount > 1 then Loaned(job, loan, s.clock)
                 else Copying(job, loan.id, true, false))
    case LockToPush => s.(table := ByReceive, rx := Pushing(s.rx.job, s.rx.loan, s.rx.now))
    case PushEntry =>
      var job, id := s.rx.job, s.rx.loan.id;
      s.(recv := Push(s.recv, job.h.messageHash, ToCome(job), id, job.h.serviceHash, Deadline(job.h, s.rx.now)),
         table := Free,
         rx := if job.callback.BufferNeeded? then Copied(job, id, false)
               else Copying(job, id, false, |s.recv.table| >= MAX_SEGMENTED_MESSAGE_COUNT))
    case CopyData =>
      s.(recv := Copy(s.recv, s.rx.id, s.rx.job.h, s.rx.job.data), rx := Copied(s.rx.job, s.rx.id, s.rx.publish))
    case Finish =>
      s.(recv := if s.rx.publish then Publish(s.recv, s.rx.id, s.rx.job.h.serviceHash, s.rx.job.from) else s.recv,
         endpoints := Free, rx := Waiting)
    case Wake => s.(sw := Passing(s.clock))
    case LockToScan => s.(table := BySweep, sw := Scanning(s.sw.now))
    case Scan(hash) =>
      s.(recv := Detach(s.recv, hash), table := Free, sw := Holding(s.sw.now, s.recv.table[hash].chunk))
    case ScanNone => s.(table := Free, sw := Asleep)
    case LockToRelease => s.(endpoints := BySweep, sw := Releasing(s.sw.now, s.sw.id))
    case ReleaseChunk =>
      s.(recv := GiveBack(s.recv, s.sw.id), endpoints := Free, sw := Passing(s.sw.now))
    case Tick(d) => s.(clock := s.clock + d)
    case WriteByDma(id, h, data) => s.(recv := Copy(s.recv, id, h, data))
  }

  // ---------- the atomic state behind it ----------

  function Publishing(r: Receiver, id: ChunkId, publish: bool, job: Job): Receiver
    requires id in r.chunks
  {
    if publish then Publish(r, id, job.h.serviceHash, job.from) else r
  }

  predicate Known(s: System) {
    (s.rx.Copying? || s.rx.Copied?) ==> s.rx.id in s.recv.chunks
  }

  /** A callback takes effect where it finds the entry, or where it pushes: from there its copy and
      publication count as done; a chunk loaned but not pushed yet counts as not loaned. */
  function Atomic(s: System): Receiver
    requires Known(s)
  {
    match s.rx
    case Loaned(_, loan, _) => if loan.Granted? then s.recv.(chunks := s.recv.chunks - {loan.id}) else s.recv
    case Pushing(_, loan, _) => if loan.Granted? then s.recv.(chunks := s.recv.chunks - {loan.id}) else s.recv
    case Copying(job, id, publish, _) => Publishing(Copy(s.recv, id, job.h, job.data), id, publish, job)
    case Copied(job, id, publish) => Publishing(s.recv, id, publish, job)
    case _ => s.recv
  }

  // ---------- the invariant ----------

  /** Each mutex is held by whom the program counters say. */
  predicate LocksOk(s: System) {
    && (s.endpoints == ByReceive <==> s.rx != Waiting)
    && (s.endpoints == BySweep <==> s.sw.Releasing?)
    && (s.table == ByReceive <==> s.rx.Finding? || s.rx.Pushing?)
    && (s.table == BySweep <==> s.sw.Scanning?)
  }

  ghost predicate ReceiveOk(s: System) {
    match s.rx
    case Waiting => true
    case Entered(_) => true
    case Finding(job) => job.h.serviceHash in s.recv.channels
    case NotFound(job) => Obtains(job) && job.h.serviceHash in s.recv.channels && job.h.messageHash !in s.recv.table
    case Loaned(job, loan, now) => LoanedOk(s, job, loan, now)
    case Pushing(job, loan, now) => LoanedOk(s, job, loan, now)
    case Copying(job, id, publish, overflow) =>
      && job.callback.UserData? && id in s.recv.chunks && (publish ==> !overflow)
      && (publish ==> s.recv.chunks[id].owner == Held)
      && (if overflow then s.recv.chunks[id].owner == Released else s.recv.chunks[id].givenUp == 0)
    case Copied(_, id, publish) => id in s.recv.chunks && (publish ==> s.recv.chunks[id].owner == Held)
  }

  ghost predicate LoanedOk(s: System, job: Job, loan: Loan, now: int) {
    && job.h.serviceHash in s.recv.channels && job.h.messageHash !in s.recv.table
    && Obtains(job) && (job.callback.UserData? ==> job.h.submessageCount > 1) && now <= s.clock
    && loan.Granted? && loan.id in s.recv.chunks && s.recv.chunks[loan.id] == NewChunk(loan)
    && |loan.userHeader| == job.h.userHeaderSize && |loan.userPayload| == job.h.userPayloadSize
  }

  ghost predicate SweepOk(s: System) {
    && (s.sw.Holding? || s.sw.Releasing? ==> s.sw.id in s.recv.chunks && s.recv.chunks[s.sw.id].owner == Detached)
    && (s.sw != Asleep ==> s.sw.now <= s.clock)
  }

  ghost predicate Inv(s: System) {
    LocksOk(s) && ReceiveOk(s) && SweepOk(s) && Conserved(Atomic(s))
  }

  // ---------- every step is one atomic operation, or none ----------

  /** The operation the atomic state sees at a step. */
  datatype Operation =
    | Nothing
    | Received(job: Job, loan: Loan, now: int)
    | Lent(job: Job, loan: Loan, now: int)
    | Returned(job: Job)
    | Wrote(id: ChunkId, h: DatagramHeader, data: seq<byte>)
    | Expired(hash: Hash, now: int)
    | GivenBack(id: ChunkId)

  /** The operation of a callback that takes effect with this loan. */
  function CallOf(job: Job, loan: Loan, now: int): Operation {
    match job.callback
    case UserData => Received(job, loan, now)
    case BufferNeeded => Lent(job, loan, now)
    case BufferReleased(_) => Returned(job)
  }

  function OperationOf(s: System, a: Step): Operation
    requires Enabled(s, a)
  {
    match a
    case Find =>
      if s.rx.job.h.messageHash in s.recv.table || !Obtains(s.rx.job) then CallOf(s.rx.job, Refused, s.clock) else Nothing
    case LoanChunk(loan) =>
      if loan.Granted? && (s.rx.job.callback.BufferNeeded? || s.rx.job.h.submessageCount > 1) then Nothing
      else CallOf(s.rx.job, loan, s.clock)
    case NoChannel => CallOf(s.rx.job, Refused, s.clock)
    case PushEntry => CallOf(s.rx.job, s.rx.loan, s.rx.now)
    case Scan(hash) => Expired(hash, s.sw.now)
    case ReleaseChunk => GivenBack(s.sw.id)
    case WriteByDma(id, h, data) => Wrote(id, h, data)
    case _ => Nothing
  }

  ghost predicate Does(r: Receiver, op: Operation, r': Receiver) {
    Closed(r) &&
    match op
    case Nothing => r' == r
    case Received(job, loan, now) =>
      ValidLoan(r, job.h, loan) && r' == Receive(r, job.h, job.data, loan, now, job.from)
    case Lent(job, loan, now) => ValidLoan(r, job.h, loan) && r' == LoanBuffer(r, job.h, loan, now).0
    case Returned(job) =>
      job.callback.BufferReleased? && r' == ReleaseBuffer(r, job.h, job.callback.shouldRelease, job.from)
    case Wrote(id, h, data) => id in r.chunks && r' == Copy(r, id, h, data)
    case Expired(hash, now) => hash in r.table && r.table[hash].deadline < now && r' == Detach(r, hash)
    case GivenBack(id) => id in r.chunks && r.chunks[id].owner == Detached && r' == GiveBack(r, id)
  }

  lemma AtomicClosed(s: System)
    requires Inv(s)
    ensures Closed(Atomic(s))
  {
    hide ConservedBut;
    EntriesKnown(Atomic(s), {});
  }

  lemma FindDoes(s: System)
    requires Inv(s) && Enabled(s, Find)
    ensures Known(After(s, Find)) && Does(Atomic(s), OperationOf(s, Find), Atomic(After(s, Find)))
  {
    hide ConservedBut, TakeNext, GiveUp;
    AtomicClosed(s);
  }

  lemma LoanDoes(s: System, loan: Loan)
    requires Inv(s) && Enabled(s, LoanChunk(loan))
    ensures Known(After(s, LoanChunk(loan)))
    ensures Does(Atomic(s), OperationOf(s, LoanChunk(loan)), Atomic(After(s, LoanChunk(loan))))
  {
    hide ConservedBut, TakeNext;
    AtomicClosed(s);
    if loan.Granted? {
      MapTwice(s.recv.chunks, loan.id, NewChunk(loan), NewChunk(loan));
    }
  }

  lemma PushIsReceive(r: Receiver, h: DatagramHeader, data: seq<byte>, loan: Loan, now: int, from: DeviceIndex)
    requires loan.Granted? && loan.id in r.chunks && r.chunks[loan.id] == NewChunk(loan)
    requires h.serviceHash in r.channels && h.messageHash !in r.table && h.submessageCount > 1
    requires Closed(r.(chunks := r.chunks - {loan.id}))
    ensures Receive(r.(chunks := r.chunks - {loan.id}), h, data, loan, now, from)
            == Copy(Push(r, h.messageHash, h.submessageCount - 1, loan.id, h.serviceHash, Deadline(h, now)), loan.id, h, data)
  {
    hide TakeNext, Push;
    assert (r.chunks - {loan.id})[loan.id := NewChunk(loan)] == r.chunks;
  }

  lemma PushIsLoan(r: Receiver, h: DatagramHeader, loan: Loan, now: int)
    requires loan.Granted? && loan.id in r.chunks && r.chunks[loan.id] == NewChunk(loan)
    requires h.serviceHash in r.channels && h.messageHash !in r.table
    requires Closed(r.(chunks := r.chunks - {loan.id}))
    ensures LoanBuffer(r.(chunks := r.chunks - {loan.id}), h, loan, now).0
            == Push(r, h.messageHash, h.submessageCount, loan.id, h.serviceHash, Deadline(h, now))
  {
    hide Push;
    assert (r.chunks - {loan.id})[loan.id := NewChunk(loan)] == r.chunks;
  }

  lemma PushKeepsChunks(r: Receiver, hash: Hash, remaining: uint32, id: ChunkId, service: ClassHash, deadline: int)
    requires id in r.chunks
    ensures Push(r, hash, remaining, id, service, deadline).chunks.Keys == r.chunks.Keys
    ensures forall i :: i in r.chunks && i != id ==> Push(r, hash, remaining, id, service, deadline).chunks[i] == r.chunks[i]
  {}

  lemma PushDoes(s: System)
    requires Inv(s) && Enabled(s, PushEntry)
    ensures Known(After(s, PushEntry)) && Does(Atomic(s), OperationOf(s, PushEntry), Atomic(After(s, PushEntry)))
  {
    hide ConservedBut, TakeNext, Receive, LoanBuffer, Push;
    AtomicClosed(s);
    var job := s.rx.job;
    PushKeepsChunks(s.recv, job.h.messageHash, ToCome(job), s.rx.loan.id, job.h.serviceHash, Deadline(job.h, s.rx.now));
    if job.callback.UserData? {
      PushIsReceive(s.recv, job.h, job.data, s.rx.loan, s.rx.now, job.from);
    } else {
      PushIsLoan(s.recv, job.h, s.rx.loan, s.rx.now);
    }
  }

  lemma CopyDetach(r: Receiver, id: ChunkId, h: DatagramHeader, data: seq<byte>, hash: Hash)
    requires Closed(r) && id in r.chunks && hash in r.table
    ensures Copy(Detach(r, hash), id, h, data) == Detach(Copy(r, id, h, data), hash)
  {
    hide Place;
    var c := r.table[hash].chunk;
    assert Copy(Detach(r, hash), id, h, data).chunks == Detach(Copy(r, id, h, data), hash).chunks;
  }

  lemma PublishDetach(r: Receiver, id: ChunkId, service: ClassHash, from: DeviceIndex, hash: Hash)
    requires Closed(r) && id in r.chunks && hash in r.table && r.table[hash].chunk != id
    ensures Publish(Detach(r, hash), id, service, from) == Detach(Publish(r, id, service, from), hash)
  {
    assert Publish(Detach(r, hash), id, service, from).chunks == Detach(Publish(r, id, service, from), hash).chunks;
  }

  lemma UnloanDetach(r: Receiver, id: ChunkId, hash: Hash)
    requires Closed(r) && hash in r.table && r.table[hash].chunk != id
    requires Closed(r.(chunks := r.chunks - {id}))
    ensures Detach(r, hash).(chunks := Detach(r, hash).chunks - {id}) == Detach(r.(chunks := r.chunks - {id}), hash)
  {
    assert Detach(r, hash).chunks - {id} == Detach(r.(chunks := r.chunks - {id}), hash).chunks;
  }

  /** Taking out an entry leaves the rest of a receive as it was. */
  lemma ScanDoes(s: System, hash: Hash)
    requires Inv(s) && Enabled(s, Scan(hash))
    ensures Known(After(s, Scan(hash)))
    ensures Does(Atomic(s), OperationOf(s, Scan(hash)), Atomic(After(s, Scan(hash))))
  {
    AtomicClosed(s);
    EntryHeld(s, hash);
    hide ConservedBut, Copy, Publish, Detach;
    var id := s.recv.table[hash].chunk;
    match s.rx
    case Copying(job, c, publish, _) =>
      CopyDetach(s.recv, c, job.h, job.data, hash);
      if publish {
        PublishDetach(Copy(s.recv, c, job.h, job.data), c, job.h.serviceHash, job.from, hash);
      }
    case Copied(job, c, publish) =>
      if publish {
        PublishDetach(s.recv, c, job.h.serviceHash, job.from, hash);
      }
    case Loaned(_, loan, _) => UnloanDetach(s.recv, loan.id, hash);
    case _ =>
  }

  /** An entry's chunk is not one that a receive has at hand. */
  lemma EntryHeld(s: System, hash: Hash)
    requires Inv(s) && hash in s.recv.table && Closed(s.recv)
    ensures Known(s) && s.recv.table[hash].chunk in s.recv.chunks && s.recv.chunks[s.recv.table[hash].chunk].owner == Held
    ensures Atomic(s).table == s.recv.table
    ensures (s.rx.Copying? || s.rx.Copied?) && s.rx.publish ==> s.recv.table[hash].chunk != s.rx.id
    ensures s.rx.Loaned? || s.rx.Pushing? ==> s.recv.table[hash].chunk != s.rx.loan.id
  {
    hide TakeNext, GivenUpOnce, PublishedOnce, HeldHasEntry;
    assert Atomic(s).table == s.recv.table;
    assert Atomic(s).chunks[s.recv.table[hash].chunk].owner == Held;
  }

  lemma FinishDoes(s: System, a: Step)
    requires Inv(s) && Enabled(s, a) && (a.CopyData? || a.Finish? || a.ReleaseChunk?)
    ensures Known(After(s, a)) && Does(Atomic(s), OperationOf(s, a), Atomic(After(s, a)))
  {
    AtomicClosed(s);
    hide ConservedBut, TakeNext;
  }

  /** Segments that do not overlap may be copied in either order. */
  lemma PlaceTwice(buffer: seq<byte>, at: nat, data: seq<byte>, at': nat, data': seq<byte>)
    requires at + |data| <= at' || at' + |data'| <= at
    ensures Place(Place(buffer, at, data), at', data') == Place(Place(buffer, at', data'), at, data)
  {
    var x, y := Place(Place(buffer, at, data), at', data'), Place(Place(buffer, at', data'), at, data);
    assert forall i :: 0 <= i < |buffer| ==> x[i] == y[i];
  }

  lemma TakeTwice(c: Chunk, g: DatagramHeader, data: seq<byte>, h: DatagramHeader, data': seq<byte>)
    requires Disjoint(g, data, h, data')
    ensures TakeNext(TakeNext(c, g, data), h, data') == TakeNext(TakeNext(c, h, data'), g, data)
  {
    hide Place;
    var n := g.userHeaderSize;
    if g.submessageOffset < n && h.submessageOffset < n {
      PlaceTwice(c.userHeader, g.submessageOffset, data, h.submessageOffset, data');
    } else if g.submessageOffset >= n && h.submessageOffset >= n {
      PlaceTwice(c.userPayload, g.submessageOffset - n, data, h.submessageOffset - n, data');
    }
  }

  lemma CopyTwice(r: Receiver, id: ChunkId, g: DatagramHeader, data: seq<byte>, id': ChunkId, h: DatagramHeader, data': seq<byte>)
    requires id in r.chunks && id' in r.chunks && (id == id' ==> Disjoint(g, data, h, data'))
    ensures Copy(Copy(r, id, g, data), id', h, data') == Copy(Copy(r, id', h, data'), id, g, data)
  {
    hide TakeNext;
    if id == id' {
      TakeTwice(r.chunks[id], g, data, h, data');
    }
    assert Copy(Copy(r, id, g, data), id', h, data').chunks == Copy(Copy(r, id', h, data'), id, g, data).chunks;
  }

  lemma PublishCopy(r: Receiver, id: ChunkId, service: ClassHash, from: DeviceIndex, id': ChunkId, h: DatagramHeader, data: seq<byte>)
    requires id in r.chunks && id' in r.chunks
    ensures Publish(Copy(r, id', h, data), id, service, from) == Copy(Publish(r, id, service, from), id', h, data)
  {
    hide Place;
    assert Publish(Copy(r, id', h, data), id, service, from).chunks == Copy(Publish(r, id, service, from), id', h, data).chunks;
  }

  lemma WriteDoes(s: System, a: Step)
    requires Inv(s) && Enabled(s, a) && a.WriteByDma?
    ensures Known(After(s, a)) && Does(Atomic(s), OperationOf(s, a), Atomic(After(s, a)))
  {
    AtomicClosed(s);
    hide ConservedBut, TakeNext, Publish;
    match s.rx
    case Copying(job, id, publish, _) =>
      CopyTwice(s.recv, a.id, a.h, a.data, id, job.h, job.data);
      if publish {
        PublishCopy(Copy(s.recv, id, job.h, job.data), id, job.h.serviceHash, job.from, a.id, a.h, a.data);
      }
    case Copied(job, id, publish) =>
      if publish {
        PublishCopy(s.recv, id, job.h.serviceHash, job.from, a.id, a.h, a.data);
      }
    case Loaned(_, loan, _) => UnloanCopy(s.recv, loan.id, a.id, a.h, a.data);
    case Pushing(_, loan, _) => UnloanCopy(s.recv, loan.id, a.id, a.h, a.data);
    case _ =>
  }

  lemma UnloanCopy(r: Receiver, id: ChunkId, id': ChunkId, h: DatagramHeader, data: seq<byte>)
    requires id' in r.chunks && id != id'
    ensures Copy(r, id', h, data).(chunks := Copy(r, id', h, data).chunks - {id}) == Copy(r.(chunks := r.chunks - {id}), id', h, data)
  {
    hide TakeNext;
    assert Copy(r, id', h, data).chunks - {id} == Copy(r.(chunks := r.chunks - {id}), id', h, data).chunks;
  }

  lemma OtherDoes(s: System, a: Step)
    requires Inv(s) && Enabled(s, a) && !a.WriteByDma?
    requires !(a.Find? || a.LoanChunk? || a.PushEntry? || a.Scan? || a.CopyData? || a.Finish? || a.ReleaseChunk?)
    ensures Known(After(s, a)) && Does(Atomic(s), OperationOf(s, a), Atomic(After(s, a)))
  {
    AtomicClosed(s);
    hide ConservedBut, Copy, Publish;
  }

  lemma StepDoes(s: System, a: Step)
    requires Inv(s) && Enabled(s, a)
    ensures Known(After(s, a)) && Does(Atomic(s), OperationOf(s, a), Atomic(After(s, a)))
  {
    hide Inv, After, Enabled, Does, OperationOf, Atomic;
    match a
    case Find => FindDoes(s);
    case LoanChunk(loan) => LoanDoes(s, loan);
    case PushEntry => PushDoes(s);
    case Scan(hash) => ScanDoes(s, hash);
    case CopyData => FinishDoes(s, a);
    case Finish => FinishDoes(s, a);
    case ReleaseChunk => FinishDoes(s, a);
    case WriteByDma(_, _, _) => WriteDoes(s, a);
    case _ => OtherDoes(s, a);
  }

  // ---------- the invariant is kept ----------

  lemma DoesConserves(r: Receiver, op: Operation, r': Receiver)
    requires Conserved(r) && Does(r, op, r')
    ensures Conserved(r')
  {
    hide ConservedBut, Receive, LoanBuffer, ReleaseBuffer, Copy, Detach, GiveBack;
    match op
    case Nothing =>
    case Received(job, loan, now) => ReceiveConserves(r, job.h, job.data, loan, now, job.from);
    case Expired(hash, now) => DetachConserves(r, hash);
    case GivenBack(id) => GiveBackConserves(r, id);
    case Lent(job, loan, now) => LoanBufferConserves(r, job.h, loan, now);
    case Returned(job) => ReleaseBufferConserves(r, job.h, job.callback.shouldRelease, job.from);
    case Wrote(id, h, data) => CopyConserves(r, {}, id, h, data);
  }

  lemma StepKeepsLocks(s: System, a: Step)
    requires LocksOk(s) && Enabled(s, a)
    ensures LocksOk(After(s, a))
  {
    hide Copy, Publish, Detach, GiveBack, Push, Decrement;
  }

  lemma FindKeeps(s: System)
    requires Inv(s) && Enabled(s, Find)
    ensures ReceiveOk(After(s, Find))
  {
    AtomicClosed(s);
    if s.rx.job.h.messageHash in s.recv.table {
      EntryHeld(s, s.rx.job.h.messageHash);
      HeldNotGivenUp(s);
    }
    hide ConservedBut;
  }

  lemma ObtainKeeps(s: System, a: Step)
    requires Inv(s) && Enabled(s, a) && (a.LoanChunk? || a.LockToPush? || a.PushEntry?)
    ensures ReceiveOk(After(s, a))
  {
    hide ConservedBut, TakeNext;
  }

  lemma CopyKeeps(s: System, a: Step)
    requires Inv(s) && Enabled(s, a) && (a.CopyData? || a.Finish?)
    ensures ReceiveOk(After(s, a))
  {
    hide ConservedBut;
  }

  /** Steps that leave the receive where it is, or take the first lock. */
  lemma LockKeeps(s: System, a: Step)
    requires Inv(s) && Enabled(s, a)
    requires !(a.Find? || a.LoanChunk? || a.LockToPush? || a.PushEntry? || a.CopyData? || a.Finish? || a.Scan? || a.ReleaseChunk?)
    ensures ReceiveOk(After(s, a))
  {
    hide ConservedBut, TakeNext, Atomic;
  }

  /** The receive's own steps. */
  lemma ReceiveStepKeeps(s: System, a: Step)
    requires Inv(s) && Enabled(s, a) && !a.Scan? && !a.ReleaseChunk?
    ensures ReceiveOk(After(s, a))
  {
    hide Inv, After, Enabled, ReceiveOk;
    if a.Find? {
      FindKeeps(s);
    } else if a.LoanChunk? || a.LockToPush? || a.PushEntry? {
      ObtainKeeps(s, a);
    } else if a.CopyData? || a.Finish? {
      CopyKeeps(s, a);
    } else {
      LockKeeps(s, a);
    }
  }

  lemma HeldNotGivenUp(s: System)
    requires Inv(s) && Known(s)
    ensures forall id :: id in Atomic(s).chunks && Atomic(s).chunks[id].owner == Held ==> Atomic(s).chunks[id].givenUp == 0
  {}

  /** What the sweep does to a receive under way: nothing it could notice. */
  lemma SweepStepKeeps(s: System, a: Step)
    requires Inv(s) && Enabled(s, a) && (a.Scan? || a.ReleaseChunk?)
    ensures ReceiveOk(After(s, a))
  {
    AtomicClosed(s);
    if a.Scan? {
      EntryHeld(s, a.hash);
    }
    hide ConservedBut, TakeNext;
  }

  lemma SweepKeepsSweep(s: System, a: Step)
    requires Inv(s) && Enabled(s, a)
    requires !(a.Find? || a.LoanChunk? || a.PushEntry? || a.CopyData? || a.Finish?)
    ensures SweepOk(After(s, a))
  {
    hide ConservedBut, Atomic, ReceiveOk;
  }

  lemma InvKnown(s: System)
    requires Inv(s)
    ensures Known(s)
  {}

  /** What finding an entry does to the chunk of the sweep: nothing. */
  lemma FindKeepsSweep(s: System)
    requires Inv(s) && Enabled(s, Find)
    ensures SweepOk(After(s, Find))
  {
    if s.rx.job.h.messageHash in s.recv.table {
      InvKnown(s);
      EntryHeld(s, s.rx.job.h.messageHash);
    }
    hide ConservedBut, Atomic, ReceiveOk;
  }

  lemma ReceiveKeepsSweep(s: System, a: Step)
    requires Inv(s) && Enabled(s, a)
    requires a.LoanChunk? || a.PushEntry? || a.CopyData? || a.Finish?
    ensures SweepOk(After(s, a))
  {
    if s.sw.Holding? || s.sw.Releasing? {
      DetachedElsewhere(s);
    }
    hide ConservedBut, Place, Atomic, ReceiveOk;
  }

  lemma StepKeepsSweep(s: System, a: Step)
    requires Inv(s) && Enabled(s, a)
    ensures SweepOk(After(s, a))
  {
    hide Inv, After, Enabled, SweepOk;
    if a.Find? {
      FindKeepsSweep(s);
    } else if a.LoanChunk? || a.PushEntry? || a.CopyData? || a.Finish? {
      ReceiveKeepsSweep(s, a);
    } else {
      SweepKeepsSweep(s, a);
    }
  }

  /** The chunk the sweep has is not one that a receive has at hand to give up. */
  lemma DetachedElsewhere(s: System)
    requires Inv(s) && (s.sw.Holding? || s.sw.Releasing?) && Known(s)
    ensures s.rx.Loaned? || s.rx.Pushing? ==> s.rx.loan.Granted? && s.rx.loan.id != s.sw.id
    ensures (s.rx.Copying? || s.rx.Copied?) && s.rx.publish ==> s.rx.id != s.sw.id
  {
    hide TakeNext;
  }

  lemma StepKeeps(s: System, a: Step)
    requires Inv(s) && Enabled(s, a)
    ensures Inv(After(s, a))
  {
    hide ReceiveOk, SweepOk, ConservedBut, After, Enabled, Does;
    InvKnown(s);
    StepDoes(s, a);
    DoesConserves(Atomic(s), OperationOf(s, a), Atomic(After(s, a)));
    StepKeepsLocks(s, a);
    StepKeepsSweep(s, a);
    if a.Scan? || a.ReleaseChunk? {
      SweepStepKeeps(s, a);
    } else {
      ReceiveStepKeeps(s, a);
    }
  }

  // ---------- what follows ----------

  /** Nothing loaned, nobody under way. */
  ghost predicate Init(s: System) {
    && s.recv == Receiver(s.recv.channels, map[], map[], [])
    && s.endpoints == Free && s.table == Free && s.rx == Waiting && s.sw == Asleep
  }

  ghost predicate Runs(s: System, steps: seq<Step>)
    decreases |steps|
  {
    steps == [] || (Enabled(s, steps[0]) && Runs(After(s, steps[0]), steps[1..]))
  }

  ghost function End(s: System, steps: seq<Step>): System
    requires Runs(s, steps)
    decreases |steps|
  {
    if steps == [] then s else End(After(s, steps[0]), steps[1..])
  }

  lemma InitInv(s: System)
    requires Init(s)
    ensures Inv(s)
  {
    InitiallyConserved(s.recv.channels);
  }

  lemma {:induction false} RunsInv(s: System, steps: seq<Step>)
    requires Inv(s) && Runs(s, steps)
    ensures Inv(End(s, steps))
    decreases |steps|
  {
    hide Inv, After, Enabled;
    if steps != [] {
      StepKeeps(s, steps[0]);
      RunsInv(After(s, steps[0]), steps[1..]);
    }
  }

  ghost predicate Performs(r: Receiver, ops: seq<Operation>, r': Receiver)
    decreases |ops|
  {
    if ops == [] then r == r'
    else exists m :: Does(r, ops[0], m) && Performs(m, ops[1..], r')
  }

  /** The operations that the steps of a run stand for, in order. */
  ghost function Operations(s: System, steps: seq<Step>): (ops: seq<Operation>)
    requires Runs(s, steps)
    ensures |ops| == |steps|
    decreases |steps|
  {
    if steps == [] then [] else [OperationOf(s, steps[0])] + Operations(After(s, steps[0]), steps[1..])
  }

  /** Every interleaving does, one after the other, the atomic operations its steps stand for: the
      receives of the jobs that arrived with the loans that were granted, the expiries and the
      releases of expired chunks. */
  lemma {:induction false} InterleavingsAreAtomic(s: System, steps: seq<Step>)
    requires Inv(s) && Runs(s, steps)
    ensures Known(s) && Known(End(s, steps))
    ensures Performs(Atomic(s), Operations(s, steps), Atomic(End(s, steps)))
    ensures End(s, steps).rx == Waiting ==> Performs(Atomic(s), Operations(s, steps), End(s, steps).recv)
    decreases |steps|
  {
    hide Inv, After, Enabled, Does, Publishing;
    InvKnown(s);
    if steps != [] {
      var s' := After(s, steps[0]);
      StepKeeps(s, steps[0]);
      StepDoes(s, steps[0]);
      InterleavingsAreAtomic(s', steps[1..]);
      var ops := Operations(s, steps);
      assert ops[1..] == Operations(s', steps[1..]);
      assert Does(Atomic(s), ops[0], Atomic(s')) && Performs(Atomic(s'), ops[1..], Atomic(End(s', steps[1..])));
    }
  }

  /** In every interleaving: a segment is copied into a chunk that has been given up if and only if
      its message found the table full; in particular never because the sweep released it. And what
      is published has not been given up before. */
  lemma CopiesIntoLiveChunks(s: System, steps: seq<Step>)
    requires Init(s) && Runs(s, steps)
    ensures var e := End(s, steps);
            && (e.rx.Copying? ==> e.rx.id in e.recv.chunks && (e.recv.chunks[e.rx.id].givenUp != 0 <==> e.rx.overflow))
            && (e.rx.Copied? && e.rx.publish ==> e.rx.id in e.recv.chunks && e.recv.chunks[e.rx.id].givenUp == 0)
  {
    InitInv(s);
    RunsInv(s, steps);
    var e := End(s, steps);
    InvKnown(e);
    AtHand(e);
  }

  lemma AtHand(s: System)
    requires Inv(s) && Known(s)
    ensures s.rx.Copying? && s.rx.overflow ==> s.recv.chunks[s.rx.id].givenUp != 0
    ensures s.rx.Copied? && s.rx.publish ==> s.recv.chunks[s.rx.id].givenUp == 0
  {
    hide TakeNext;
    assert s.rx.Copying? || s.rx.Copied? ==> s.rx.id in Atomic(s).chunks;
  }

  /** In every interleaving, every chunk has been given up at most once: none is both published and
      released. */
  lemma GivenUpAtMostOnce(s: System, steps: seq<Step>, id: ChunkId)
    requires Init(s) && Runs(s, steps) && id in End(s, steps).recv.chunks
    ensures End(s, steps).recv.chunks[id].givenUp <= 1
  {
    InitInv(s);
    RunsInv(s, steps);
    OnceAtMost(End(s, steps), id);
  }

  lemma OnceAtMost(s: System, id: ChunkId)
    requires Inv(s) && id in s.recv.chunks
    ensures s.recv.chunks[id].givenUp <= 1
  {
    hide TakeNext;
    assert id in Atomic(s).chunks || ((s.rx.Loaned? || s.rx.Pushing?) && s.rx.loan.Granted? && id == s.rx.loan.id);
  }

  /** The threads cannot deadlock: while one of them is under way, one of them can go on. */
  lemma NoDeadlock(s: System) returns (a: Step)
    requires Inv(s) && (s.rx != Waiting || s.sw != Asleep)
    ensures Enabled(s, a) && !a.Arrive? && !a.Wake? && !a.Tick?
  {
    InvParts(s);
    hide Inv, LoanedOk;
    if s.sw.Scanning? {
      if hash :| hash in s.recv.table && s.recv.table[hash].deadline < s.sw.now {
        a := Scan(hash);
      } else {
        a := ScanNone;
      }
    } else if s.sw.Releasing? {
      a := ReleaseChunk;
    } else if s.rx == Waiting {
      a := if s.sw.Holding? then LockToRelease else LockToScan;
    } else {
      a := ReceiveGoesOn(s);
    }
  }

  lemma ReceiveGoesOn(s: System) returns (a: Step)
    requires LocksOk(s) && ReceiveOk(s) && Closed(s.recv) && s.rx != Waiting && !s.sw.Scanning?
    ensures Enabled(s, a) && !a.Arrive? && !a.Wake? && !a.Tick?
  {
    match s.rx
    case Entered(job) => a := if job.h.serviceHash in s.recv.channels then LockToFind else NoChannel;
    case Finding(_) => a := Find;
    case NotFound(_) => a := LoanChunk(Refused);
    case Loaned(_, _, _) => a := LockToPush;
    case Pushing(_, _, _) => a := PushEntry;
    case Copying(_, _, _, _) => a := CopyData;
    case Copied(_, _, _) => a := Finish;
  }

  lemma InvParts(s: System)
    requires Inv(s)
    ensures LocksOk(s) && ReceiveOk(s) && SweepOk(s) && Known(s) && Closed(s.recv)
  {
    AtomicClosed(s);
    hide ConservedBut, TakeNext;
  }

  /** The entries a sweep that looks back from `now` has still to take out. */
  ghost function ToExpire(s: System, now: int): set<Hash> {
    set hash | hash in s.recv.table && s.recv.table[hash].deadline < now
  }

  /** A receive computes the deadline before it waits for the table; so it may push an entry that
      is expired for a sweep that started in between. */
  predicate Late(s: System, now: int) {
    (s.rx.Loaned? || s.rx.Pushing?) && Deadline(s.rx.job.h, s.rx.now) < now
  }

  ghost function Passes(s: System, now: int): nat {
    |ToExpire(s, now)| + if Late(s, now) then 1 else 0
  }

  lemma OneMore<T>(x: set<T>, y: set<T>, e: T)
    requires x <= y + {e}
    ensures |x| <= |y| + 1
  {
    SubsetSize(x, y + {e});
  }

  lemma StepExpires(s: System, a: Step)
    requires Inv(s) && Enabled(s, a) && s.sw != Asleep && !a.Scan?
    ensures ToExpire(After(s, a), s.sw.now)
            <= ToExpire(s, s.sw.now) + (if a.PushEntry? && Late(s, s.sw.now) then {s.rx.job.h.messageHash} else {})
    ensures Late(After(s, a), s.sw.now) ==> Late(s, s.sw.now) && !a.PushEntry?
  {
    hide ConservedBut, TakeNext, Atomic;
  }

  lemma ScanExpires(s: System, a: Step)
    requires Inv(s) && Enabled(s, a) && a.Scan?
    ensures Passes(After(s, a), s.sw.now) < Passes(s, s.sw.now)
  {
    var now, s' := s.sw.now, After(s, a);
    hide ConservedBut, Atomic;
    assert ToExpire(s', now) == ToExpire(s, now) - {a.hash};
    assert a.hash in ToExpire(s, now);
  }

  lemma NoneExpires(s: System, a: Step)
    requires Enabled(s, a) && a.ScanNone?
    ensures ToExpire(s, s.sw.now) == {}
  {}

  /** The sweep ends, whatever is pushed meanwhile: each pass takes out one of the entries it has to
      expire, and no other step adds to them but the one late push. */
  lemma SweepEnds(s: System, a: Step)
    requires Inv(s) && Enabled(s, a) && s.sw != Asleep
    ensures Passes(After(s, a), s.sw.now) <= Passes(s, s.sw.now)
    ensures a.Scan? ==> Passes(After(s, a), s.sw.now) < Passes(s, s.sw.now)
    ensures a.ScanNone? ==> ToExpire(s, s.sw.now) == {}
  {
    var now, s' := s.sw.now, After(s, a);
    if a.Scan? {
      ScanExpires(s, a);
    } else {
      StepExpires(s, a);
      if a.ScanNone? {
        NoneExpires(s, a);
      }
      hide After, Enabled, Inv, Late, ToExpire;
      if a.PushEntry? && Late(s, now) {
        OneMore(ToExpire(s', now), ToExpire(s, now), s.rx.job.h.messageHash);
      } else {
        SubsetSize(ToExpire(s', now), ToExpire(s, now));
      }
    }
  }

  /** The passes of the sweep among these steps. */
  function Scans(steps: seq<Step>): nat {
    if steps == [] then 0 else (if steps[0].Scan? then 1 else 0) + Scans(steps[1..])
  }

  lemma SameSweep(s: System, a: Step)
    requires Enabled(s, a) && s.sw != Asleep && !a.ScanNone?
    ensures After(s, a).sw != Asleep && After(s, a).sw.now == s.sw.now
  {
    hide Copy, Publish, Detach, GiveBack, Push, Decrement;
  }

  /** From when it wakes until a pass finds nothing, in any interleaving, a sweep makes no more
      passes than there are entries to expire, and one. */
  lemma {:induction false} SweepIsBounded(s: System, steps: seq<Step>)
    requires Inv(s) && Runs(s, steps) && s.sw != Asleep
    requires forall k :: 0 <= k < |steps| ==> !steps[k].ScanNone?
    ensures End(s, steps).sw != Asleep && End(s, steps).sw.now == s.sw.now
    ensures Scans(steps) + Passes(End(s, steps), s.sw.now) <= Passes(s, s.sw.now) <= |ToExpire(s, s.sw.now)| + 1
    decreases |steps|
  {
    hide Inv, After, Enabled, ToExpire, Late;
    if steps != [] {
      StepKeeps(s, steps[0]);
      SameSweep(s, steps[0]);
      SweepEnds(s, steps[0]);
      SweepIsBounded(After(s, steps[0]), steps[1..]);
    }
  }
}

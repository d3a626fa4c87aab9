/** What the scheduler promises: every accepted task runs exactly once, slice by slice, on one
    coroutine at a time, and `stop` drains the queues in a bounded number of steps. */
module SchedulerTheorems {
  import opened Sums
  import opened SchedulerMachine
  import opened SchedulerInvariant

  // ----- Ownership -----

  ghost predicate Pooled(s: State, c: nat) { c in s.pool }

  ghost predicate QueuedAt(s: State, c: nat, q: nat, i: nat) {
    q < |s.queues| && i < |s.queues[q]| && s.queues[q][i] == Resumption(c)
  }

  predicate InHand(pc: Pc, c: nat) {
    pc == Resume(c) || pc == Running(c) || (pc.Submitting? && pc.coro == c) || pc == Returned(c)
  }

  ghost predicate HeldAt(s: State, c: nat, w: nat) {
    w < |s.workers| && InHand(s.workers[w].pc, c)
  }

  /** Every coroutine is idle in the pool, or in one entry of one queue, or in the hands of one worker,
      with the status that belongs there; so two workers never resume the same coroutine. */
  lemma ExclusiveOwner(s: State, c: nat)
    requires Reachable(s) && c < |s.coros|
    ensures Pooled(s, c) ==>
              Ended(s.coros[c].status) && (forall q: nat, i: nat :: !QueuedAt(s, c, q, i))
                && (forall w: nat :: !HeldAt(s, c, w))
    ensures forall q: nat, i: nat :: QueuedAt(s, c, q, i) ==>
              Resumable(s.coros[c].status) && (forall w: nat :: !HeldAt(s, c, w))
              && (forall p: nat, k: nat :: QueuedAt(s, c, p, k) ==> p == q && k == i)
    ensures forall w: nat, v: nat :: HeldAt(s, c, w) && HeldAt(s, c, v) ==> w == v
    ensures Pooled(s, c) || (exists q: nat, i: nat :: QueuedAt(s, c, q, i)) || (exists w: nat :: HeldAt(s, c, w))
  {
    ReachableInv(s);
    var j := s.coros[c].job;
    forall q: nat, i: nat | QueuedAt(s, c, q, i)
      ensures c !in s.pool && j < |s.jobs| && s.jobs[j].place == Queued(q) && Resumable(s.coros[c].status)
      ensures forall p: nat, k: nat :: QueuedAt(s, c, p, k) ==> p == q && k == i
    {
      QueuedOnce(s, c, q, i);
    }
    forall w: nat | HeldAt(s, c, w)
      ensures c !in s.pool && j < |s.jobs| && s.jobs[j].place == Held(w)
    {
      assert PcOk(s, w, s.workers[w].pc);
    }
    if c !in s.pool {
      Located(s, c);
    }
  }

  lemma QueuedOnce(s: State, c: nat, q: nat, i: nat)
    requires Inv(s) && c < |s.coros| && QueuedAt(s, c, q, i)
    ensures c !in s.pool && s.coros[c].job < |s.jobs| && s.jobs[s.coros[c].job].place == Queued(q)
    ensures Resumable(s.coros[c].status)
    ensures forall p: nat, k: nat :: QueuedAt(s, c, p, k) ==> p == q && k == i
  {
    assert TaskOk(s, s.queues[q][i], Queued(q));
    forall p: nat, k: nat | QueuedAt(s, c, p, k)
      ensures p == q && k == i
    {
      assert TaskOk(s, s.queues[p][k], Queued(p));
      assert JobOf(s, s.queues[p][k]) == JobOf(s, s.queues[q][i]);
    }
  }

  lemma Located(s: State, c: nat)
    requires Inv(s) && c < |s.coros| && c !in s.pool
    ensures (exists q: nat, i: nat :: QueuedAt(s, c, q, i)) || (exists w: nat :: HeldAt(s, c, w))
  {
    var j := s.coros[c].job;
    assert Carries(s, c, j);
    assert JobOk(s, j);
    match s.jobs[j].place
    case Queued(q) =>
      var i :| 0 <= i < |s.queues[q]| && JobOf(s, s.queues[q][i]) == j;
      assert TaskOk(s, s.queues[q][i], Queued(q));
      assert QueuedAt(s, c, q, i);
    case Held(w) =>
      assert PcOk(s, w, s.workers[w].pc);
      assert HeldAt(s, c, w);
    case Finished =>
  }

  /** A coroutine runs exactly while it is some worker's current coroutine. */
  lemma RunningIsCurrent(s: State, c: nat)
    requires Reachable(s) && c < |s.coros|
    ensures s.coros[c].status == RUNN <==>
              exists w :: 0 <= w < |s.workers|
                          && (s.workers[w].pc == Running(c) || (s.workers[w].pc.Submitting?
                            && s.workers[w].pc.coro == c))
  {
    ReachableInv(s);
    if s.coros[c].status == RUNN {
      ExclusiveOwner(s, c);
      if i: nat, q: nat :| QueuedAt(s, c, q, i) {
        QueuedOnce(s, c, q, i);
      } else {
        var w: nat :| HeldAt(s, c, w);
        assert PcOk(s, w, s.workers[w].pc);
      }
    }
    forall w | 0 <= w < |s.workers|
               && (s.workers[w].pc == Running(c) || (s.workers[w].pc.Submitting? && s.workers[w].pc.coro == c))
      ensures s.coros[c].status == RUNN
    {
      assert PcOk(s, w, s.workers[w].pc);
    }
  }

  /** The status assertions of `resume`, `yield` and `reset` never fail. */
  lemma GuardsHold(s: State, w: nat)
    requires Reachable(s) && w < |s.workers|
    ensures s.workers[w].pc != GuardFailed
  {
    ReachableInv(s);
    assert PcOk(s, w, s.workers[w].pc);
  }

  // ----- Conservation -----

  ghost predicate EntryOf(s: State, j: nat, q: nat, i: nat) {
    q < |s.queues| && i < |s.queues[q]| && JobOf(s, s.queues[q][i]) == j
  }

  ghost predicate WorkOf(s: State, j: nat, w: nat) {
    w < |s.workers| && Holds(s, s.workers[w].pc, j)
  }

  ghost predicate Done(s: State, j: nat) { j < |s.jobs| && s.jobs[j].place == Finished }

  /** Accepted = queued + held + finished: every accepted task is in exactly one queue
      entry, or held by exactly one worker, or finished, and nothing else is queued or held. */
  lemma Conservation(s: State, j: nat)
    requires Reachable(s)
    ensures j < |s.jobs| <==>
              (exists q: nat, i: nat :: EntryOf(s, j, q, i)) || (exists w: nat :: WorkOf(s, j, w)) || Done(s, j)
    ensures forall q: nat, i: nat :: EntryOf(s, j, q, i) ==>
              !Done(s, j) && (forall w: nat :: !WorkOf(s, j, w))
              && (forall p: nat, k: nat :: EntryOf(s, j, p, k) ==> p == q && k == i)
    ensures forall w: nat :: WorkOf(s, j, w) ==> !Done(s, j) && (forall v: nat :: WorkOf(s, j, v) ==> v == w)
  {
    ReachableInv(s);
    forall q: nat, i: nat | EntryOf(s, j, q, i)
      ensures j < |s.jobs| && s.jobs[j].place == Queued(q)
      ensures forall p: nat, k: nat :: EntryOf(s, j, p, k) ==> p == q && k == i
    {
      assert TaskOk(s, s.queues[q][i], Queued(q));
      forall p: nat, k: nat | EntryOf(s, j, p, k)
        ensures p == q && k == i
      {
        assert TaskOk(s, s.queues[p][k], Queued(p));
      }
    }
    forall w: nat | WorkOf(s, j, w)
      ensures j < |s.jobs| && s.jobs[j].place == Held(w)
    {
      assert PcOk(s, w, s.workers[w].pc);
      HeldBy(s, w, s.workers[w].pc, j);
    }
    if j < |s.jobs| {
      assert JobOk(s, j);
      match s.jobs[j].place
      case Queued(q) =>
        var i :| 0 <= i < |s.queues[q]| && JobOf(s, s.queues[q][i]) == j;
        assert EntryOf(s, j, q, i);
      case Held(w) => assert WorkOf(s, j, w);
      case Finished =>
    }
  }

  // ----- Slices -----

  /** Whichever workers run them, the slices of a task are begun in program order, each
      once, and a finished task has begun exactly one more than it pauses. */
  lemma SliceOrder(s: State, j: nat)
    requires Reachable(s) && j < |s.jobs|
    ensures SlicesOf(s.trace, j) == UpTo(|SlicesOf(s.trace, j)|)
    ensures |SlicesOf(s.trace, j)| <= s.jobs[j].program.pauses + 1
    ensures Done(s, j) ==> |SlicesOf(s.trace, j)| == s.jobs[j].program.pauses + 1
    ensures s.jobs[j].place.Queued? ==> |SlicesOf(s.trace, j)| <= s.jobs[j].program.pauses
  {
    ReachableInv(s);
    assert JobOk(s, j);
    if s.jobs[j].place.Queued? && s.jobs[j].carrier.On? {
      var q := s.jobs[j].place.q;
      var i :| 0 <= i < |s.queues[q]| && JobOf(s, s.queues[q][i]) == j;
      assert TaskOk(s, s.queues[q][i], Queued(q));
    }
  }

  // ----- Draining -----

  ghost predicate NoLate(s: State) {
    forall j :: 0 <= j < |s.jobs| ==> !s.jobs[j].late
  }

  /** When all workers have left `run`, what is left in a queue was put there by an outside thread
      after `stop`, and it has not been started: `pickTask` may give up early, but no worker leaves
      while a task that was queued in time waits. */
  lemma DrainLeavesOnlyLate(s: State, q: nat, i: nat)
    requires Reachable(s) && AllExited(s) && q < |s.queues| && i < |s.queues[q]|
    ensures var j := JobOf(s, s.queues[q][i]);
            j < |s.jobs| && s.jobs[j].late && SlicesOf(s.trace, j) == []
  {
    ReachableInv(s);
    var j := JobOf(s, s.queues[q][i]);
    assert TaskOk(s, s.queues[q][i], Queued(q));
    assert JobOk(s, j);
    NobodyAttends(s, q);
    assert !Waiting(s, q, j);
  }

  /** Every queue in which a task waits that was not late has a worker that is busy, or has yet to look at that
      queue, or is about to dequeue from a non-empty one. */
  lemma NoQueueUnattended(s: State, q: nat, i: nat)
    requires Reachable(s) && q < |s.queues| && i < |s.queues[q]|
    ensures var j := JobOf(s, s.queues[q][i]); j < |s.jobs| && (s.jobs[j].late || Attended(s, q))
  {
    ReachableInv(s);
    var j := JobOf(s, s.queues[q][i]);
    assert TaskOk(s, s.queues[q][i], Queued(q));
    assert s.jobs[j].late || Waiting(s, q, j);
  }

  lemma NobodyAttends(s: State, q: nat)
    requires AttentionOk(s) && AllExited(s) && q < |s.queues|
    ensures !Attended(s, q)
  {
    forall w | 0 <= w < |s.workers|
      ensures !Attends(s, w, q)
    {
      assert s.workers[w].pc == Exited;
    }
  }

  /** After the drain the queues are all empty exactly when no task is still recorded as late;
      `SchedulerDrain.StopDrainsIff` says when that is sure to be so. */
  lemma DrainComplete(s: State)
    requires Reachable(s) && AllExited(s)
    ensures (forall q :: 0 <= q < |s.queues| ==> s.queues[q] == []) <==> NoLate(s)
  {
    ReachableInv(s);
    if NoLate(s) {
      forall q | 0 <= q < |s.queues|
        ensures s.queues[q] == []
      {
        if s.queues[q] != [] {
          DrainLeavesOnlyLate(s, q, 0);
        }
      }
    }
    if j :| 0 <= j < |s.jobs| && s.jobs[j].late {
      assert JobOk(s, j);
    }
  }

  /** No enqueue by an outside thread comes while the scheduler is stopped. */
  ghost predicate PutsInTime(s: State, moves: seq<Move>)
    decreases |moves|
  {
    moves == [] ||
    ((moves[0].Put? && moves[0].k < |s.clients| && s.clients[moves[0].k].Checked? ==> !s.stopped)
     && PutsInTime(Next(s, moves[0]), moves[1..]))
  }

  lemma NextNoLate(s: State, mv: Move)
    requires NoLate(s) && (mv.Put? && mv.k < |s.clients| && s.clients[mv.k].Checked? ==> !s.stopped)
    ensures NoLate(Next(s, mv))
  {
    if mv.Step? && mv.w < |s.workers| {
      WorkerLate(s, mv.w);
    }
  }

  lemma WorkerLate(s: State, w: nat)
    requires w < |s.workers|
    ensures var s' := WorkerStep(s, w);
            |s.jobs| <= |s'.jobs|
            && forall j :: 0 <= j < |s'.jobs| ==> s'.jobs[j].late ==> j < |s.jobs| && s.jobs[j].late
  {
  }

  lemma {:induction false} RunNoLate(s: State, moves: seq<Move>)
    requires NoLate(s) && PutsInTime(s, moves)
    ensures NoLate(Run(s, moves))
    decreases |moves|
  {
    if moves != [] {
      NextNoLate(s, moves[0]);
      RunNoLate(Next(s, moves[0]), moves[1..]);
    }
  }

  /** After `stop`, with every submission in time, every accepted task
      was started once, ran all its slices in order and finished once. */
  lemma ExactlyOnce(workers: nat, clients: nat, moves: seq<Move>, j: nat)
    requires workers > 0 && PutsInTime(Init(workers, clients), moves)
    requires var s := Run(Init(workers, clients), moves); AllExited(s) && j < |s.jobs|
    ensures var s := Run(Init(workers, clients), moves);
            Done(s, j) && SlicesOf(s.trace, j) == UpTo(s.jobs[j].program.pauses + 1)
  {
    var s := Run(Init(workers, clients), moves);
    assert Reachable(s);
    RunNoLate(Init(workers, clients), moves);
    DrainComplete(s);
    Conservation(s, j);
    SliceOrder(s, j);
  }

  /** A submission that straddles `stop` is accepted and never run: one worker, one outside thread. */
  lemma LateTaskIsStranded()
    ensures exists s :: Reachable(s) && AllExited(s) && s.stopped && s.queues == [[], [Callback(0)]] && s.trace == []
  {
    var r := Request(Program(0, false), false, 7);
    var s3 := CheckedThenStopped(r);
    ScanAndExit(s3);
    var s9 := s3.(workers := [Worker(true, Exited)]);
    ReachableNext(s9, Put(0));
    var s10 := Next(s9, Put(0));
    assert s10.queues == s9.queues[1 := s9.queues[1] + [Callback(0)]];
    assert s9.queues[1] + [Callback(0)] == [Callback(0)];
    assert s10.queues == [[], [Callback(0)]];
  }

  lemma CheckedThenStopped(r: Request) returns (s: State)
    ensures Reachable(s) && s.stopped && s.workers == [Worker(false, LoopTop)] && s.queues == [[], []]
    ensures s.clients == [Checked(r)] && s.jobs == [] && s.trace == []
  {
    s := Init(1, 1);
    assert s == Run(s, []);
    assert s.queues == [[], []] && s.workers == [Worker(true, Exited)] && s.clients == [Ready];
    ReachableNext(s, Start);
    s := Next(s, Start);
    assert s.workers == [Worker(false, LoopTop)];
    ReachableNext(s, Check(0, r));
    s := Next(s, Check(0, r));
    ReachableNext(s, Stop);
    s := Next(s, Stop);
  }

  /** A single worker that finds both queues empty leaves. */
  lemma ScanAndExit(s: State)
    requires Reachable(s) && s.stopped && s.workers == [Worker(false, LoopTop)] && s.queues == [[], []]
    ensures var s' := Next(Next(Next(Next(Next(Next(s, Step(0)), Step(0)), Step(0)), Step(0)), Step(0)), Step(0));
            Reachable(s') && s' == s.(workers := [Worker(true, Exited)])
  {
    var t := s;
    t := Next(t, Step(0));
    ReachableNext(s, Step(0));
    assert t == s.(workers := [Worker(true, SeeOwn)]);
    ReachableNext(t, Step(0));
    t := Next(t, Step(0));
    assert t == s.(workers := [Worker(true, SeeGlobal)]);
    ReachableNext(t, Step(0));
    t := Next(t, Step(0));
    assert t == s.(workers := [Worker(true, SeeSteal(0))]);
    ReachableNext(t, Step(0));
    t := Next(t, Step(0));
    assert t == s.(workers := [Worker(true, SeeSteal(1))]);
    ReachableNext(t, Step(0));
    t := Next(t, Step(0));
    assert t == s.(workers := [Worker(true, NoTask)]);
    ReachableNext(t, Step(0));
    t := Next(t, Step(0));
    assert t == s.(workers := [Worker(true, Exited)]);
  }

  // ----- How long the drain takes -----

  /** Slices that a request that passed its check will still add. */
  function RequestSlices(r: Request): nat { r.program.pauses + 1 }

  const SLICES_LEFT: Job -> nat :=
    (job: Job) => if job.ran <= job.program.pauses then job.program.pauses + 1 - job.ran else 0
  const WORKER_SLICES: Worker -> nat :=
    (worker: Worker) => if worker.pc.Submitting? then RequestSlices(worker.pc.request) else 0
  const CLIENT_SLICES: Client -> nat :=
    (client: Client) => if client.Checked? then RequestSlices(client.request) else 0

  /** The slices that accepted tasks, and tasks whose submission is under way, have yet to begin. */
  ghost function Remaining(s: State): nat {
    Sum(s.jobs, SLICES_LEFT) + Sum(s.workers, WORKER_SLICES) + Sum(s.clients, CLIENT_SLICES)
  }

  /** How many instructions a worker of `n` may still take before it begins a slice or exits. */
  function Phase(n: nat, pc: Pc): nat {
    match pc
    case Exited => 0
    case NullCoroutine(_) => 0
    case GuardFailed => 0
    case NoTask => 1
    case Resume(_) => 2
    case TakePool(_) => 3
    case SeePool(_) => 4
    case TakeFrom(_) => 5
    case SeeSteal(i) => if i <= n then 6 + n - i else 6
    case SeeGlobal => 7 + n
    case SeeOwn => 8 + n
    case LoopTop => 9 + n
    case Returned(_) => 9 + n
    case Running(_) => 10 + n
    case Submitting(_, _) => 11 + n
  }

  /** A worker in its first loop has one more scan before it. */
  function WorkerPhase(n: nat): Worker -> nat {
    (worker: Worker) =>
      if worker.draining || worker.pc == LoopTop then Phase(n, worker.pc) else Phase(n, worker.pc) + 10 + n
  }

  const CLIENT_PHASE: Client -> nat := (client: Client) => if client.Checked? then 1 else 0

  ghost function Phases(s: State): nat {
    Sum(s.workers, WorkerPhase(|s.workers|)) + Sum(s.clients, CLIENT_PHASE)
  }

  /** Bounds the moves that can still change something after `stop`. */
  ghost function Measure(s: State): nat {
    Remaining(s) * (9 + |s.workers|) + Phases(s)
  }

  lemma WorkersSum(s: State, s': State, w: nat, f: Worker -> nat)
    requires w < |s.workers| == |s'.workers|
    requires forall v :: 0 <= v < |s.workers| && v != w ==> s'.workers[v] == s.workers[v]
    ensures Sum(s'.workers, f) + f(s.workers[w]) == Sum(s.workers, f) + f(s'.workers[w])
  {
    assert s'.workers == s.workers[w := s'.workers[w]];
    SumUpdate(s.workers, f, w, s'.workers[w]);
  }

  lemma SameRemaining(s: State, s': State)
    requires NoSlice(s, s') && forall j :: 0 <= j < |s.jobs| ==> s'.jobs[j].program == s.jobs[j].program
    ensures Sum(s'.jobs, SLICES_LEFT) == Sum(s.jobs, SLICES_LEFT)
  {
    SumCongruent(s.jobs, s'.jobs, SLICES_LEFT);
  }

  lemma ResumeRemaining(s: State, w: nat, c: nat)
    requires Inv(s) && w < |s.workers| && s.workers[w].pc == Resume(c)
    ensures var s' := Begin(s, w, c);
            Sum(s.jobs, SLICES_LEFT) == Sum(s'.jobs, SLICES_LEFT) + 1 && |s'.trace| == |s.trace| + 1
  {
    var s' := Begin(s, w, c);
    assert PcOk(s, w, s.workers[w].pc);
    var j := s.coros[c].job;
    assert JobOk(s, j);
    SumUpdate(s.jobs, SLICES_LEFT, j, s'.jobs[j]);
  }

  lemma AcceptRemaining(s: State, r: Request, late: bool)
    ensures var s' := Accept(s, r, late);
            Sum(s'.jobs, SLICES_LEFT) == Sum(s.jobs, SLICES_LEFT) + RequestSlices(r) && s'.trace == s.trace
  {
    var s' := Accept(s, r, late);
    SumAppend(s.jobs, SLICES_LEFT, s'.jobs[|s.jobs|]);
  }

  /** The instructions of a worker that neither begin a slice nor accept a task. */
  lemma NoSliceStep(s: State, w: nat)
    requires w < |s.workers| && !s.workers[w].pc.Resume? && !s.workers[w].pc.Submitting?
    ensures NoSlice(s, WorkerStep(s, w))
    ensures forall j :: 0 <= j < |s.jobs| ==> WorkerStep(s, w).jobs[j].program == s.jobs[j].program
  {
  }

  /** Only `Resume` begins a slice, and its task has one left; an accepted submission moves its slices to a task. */
  lemma StepRemaining(s: State, w: nat)
    requires Inv(s) && w < |s.workers|
    ensures var s' := WorkerStep(s, w);
            var begun := if s.workers[w].pc.Resume? then 1 else 0;
            && Sum(s.jobs, SLICES_LEFT) + WORKER_SLICES(s.workers[w])
               == Sum(s'.jobs, SLICES_LEFT) + WORKER_SLICES(s'.workers[w]) + begun
            && |s'.trace| == |s.trace| + begun
  {
    var pc := s.workers[w].pc;
    if pc.Resume? {
      ResumeRemaining(s, w, pc.coro);
    } else if pc.Submitting? {
      AcceptRemaining(s, pc.request, false);
    } else {
      NoSliceStep(s, w);
      SameRemaining(s, WorkerStep(s, w));
      StepFrame(s, w);
    }
  }

  /** Every instruction that is not the start of a slice brings the worker closer to one, or to its exit. */
  lemma StepPhase(s: State, w: nat)
    requires Inv(s) && w < |s.workers| && s.stopped
    requires WorkerStep(s, w) != s
    ensures var n, s' := |s.workers|, WorkerStep(s, w);
            WorkerPhase(n)(s'.workers[w]) <
              WorkerPhase(n)(s.workers[w]) + (if s.workers[w].pc.Resume? then 9 + n else 0)
  {
    WorkerInv(s, w);
    assert PcOk(s, w, s.workers[w].pc);
    assert PcOk(WorkerStep(s, w), w, WorkerStep(s, w).workers[w].pc);
  }

  /** After `stop` a worker's instruction lowers the measure, and the slices begun and those left add up. */
  lemma StepMeasure(s: State, w: nat)
    requires Inv(s) && w < |s.workers| && s.stopped && WorkerStep(s, w) != s
    ensures var s' := WorkerStep(s, w);
            Measure(s') < Measure(s) && Remaining(s') + |s'.trace| == Remaining(s) + |s.trace|
  {
    StepRemaining(s, w);
    StepPhase(s, w);
    StepFrame(s, w);
    MeasureBy(s, WorkerStep(s, w), w, if s.workers[w].pc.Resume? then 1 else 0);
  }

  lemma MeasureBy(s: State, s': State, w: nat, begun: nat)
    requires w < |s.workers| == |s'.workers| && s'.clients == s.clients && begun <= 1
    requires forall v :: 0 <= v < |s.workers| && v != w ==> s'.workers[v] == s.workers[v]
    requires Sum(s.jobs, SLICES_LEFT) + WORKER_SLICES(s.workers[w])
             == Sum(s'.jobs, SLICES_LEFT) + WORKER_SLICES(s'.workers[w]) + begun
    requires |s'.trace| == |s.trace| + begun
    requires var n := |s.workers|;
             WorkerPhase(n)(s'.workers[w]) < WorkerPhase(n)(s.workers[w]) + (if begun == 1 then 9 + n else 0)
    ensures Measure(s') < Measure(s) && Remaining(s') + |s'.trace| == Remaining(s) + |s.trace|
  {
    WorkersSum(s, s', w, WORKER_SLICES);
    PhasesBy(s, s', w);
    Lower(Remaining(s), Remaining(s'), 9 + |s.workers|, begun, Phases(s), Phases(s'));
  }

  lemma PhasesBy(s: State, s': State, w: nat)
    requires w < |s.workers| == |s'.workers| && s'.clients == s.clients
    requires forall v :: 0 <= v < |s.workers| && v != w ==> s'.workers[v] == s.workers[v]
    ensures var f := WorkerPhase(|s.workers|);
            Phases(s') + f(s.workers[w]) == Phases(s) + f(s'.workers[w])
  {
    WorkersSum(s, s', w, WorkerPhase(|s.workers|));
  }

  lemma Lower(r: nat, r': nat, n: nat, d: nat, p: nat, p': nat)
    requires r == r' + d && d <= 1 && p' < p + (if d == 1 then n else 0)
    ensures r' * n + p' < r * n + p
  {
    if d == 1 {
      assert r * n == r' * n + n;
    }
  }

  lemma PutMeasure(s: State, k: nat)
    requires s.stopped && k < |s.clients| && s.clients[k].Checked?
    ensures var s' := Next(s, Put(k));
            Measure(s') < Measure(s) && Remaining(s') + |s'.trace| == Remaining(s) + |s.trace|
  {
    var s' := Next(s, Put(k));
    var s0 := s.(clients := s.clients[k := Ready]);
    AcceptRemaining(s0, s.clients[k].request, s.stopped);
    SumUpdate(s.clients, CLIENT_SLICES, k, Ready);
    SumUpdate(s.clients, CLIENT_PHASE, k, Ready);
    assert Remaining(s') == Remaining(s);
  }

  lemma MoveMeasure(s: State, mv: Move)
    requires Inv(s) && s.stopped && mv != Start && Next(s, mv) != s
    ensures var s' := Next(s, mv);
            s'.stopped && Measure(s') < Measure(s) && Remaining(s') + |s'.trace| == Remaining(s) + |s.trace|
  {
    match mv
    case Step(w) =>
      StepMeasure(s, w);
      StepFrame(s, w);
    case Put(k) => PutMeasure(s, k);
    case Submit(w, r) =>
    case Check(k, r) =>
    case Stop =>
  }

  /** The moves of a run that change something. */
  ghost function Effective(s: State, moves: seq<Move>): nat
    decreases |moves|
  {
    if moves == [] then 0
    else (if Next(s, moves[0]) != s then 1 else 0) + Effective(Next(s, moves[0]), moves[1..])
  }

  /** After `stop`, and until the next `start`, at most `Measure` moves change anything, whatever the
      interleaving; and each slice begun is one that was left, so the resumes of the drain are
      the slices that were left at its start minus those left at its end. */
  lemma {:induction false} DrainTerminates(s: State, moves: seq<Move>)
    requires Inv(s) && s.stopped && Start !in moves
    ensures var s' := Run(s, moves);
            s'.stopped && Effective(s, moves) + Measure(s') <= Measure(s)
            && Remaining(s') + |s'.trace| == Remaining(s) + |s.trace|
    decreases |moves|
  {
    if moves != [] {
      assert moves[0] in moves;
      if Next(s, moves[0]) != s {
        MoveMeasure(s, moves[0]);
      }
      NextInv(s, moves[0]);
      DrainTerminates(Next(s, moves[0]), moves[1..]);
    }
  }

  /** After `stop` a worker that has not left `run` can always take a step, unless it
      dereferenced a null coroutine; so the drain ends with every other worker gone. */
  lemma DrainGoesOn(s: State, w: nat)
    requires Reachable(s) && w < |s.workers|
    ensures Next(s, Step(w)) == s <==> s.workers[w].pc == Exited || s.workers[w].pc.NullCoroutine?
  {
    ReachableInv(s);
    assert PcOk(s, w, s.workers[w].pc);
    if s.workers[w].pc != Exited && !s.workers[w].pc.NullCoroutine? {
      PcMoves(s, w);
    }
  }

  lemma PcMoves(s: State, w: nat)
    requires w < |s.workers| && PcOk(s, w, s.workers[w].pc)
    requires s.workers[w].pc != Exited && !s.workers[w].pc.NullCoroutine?
    ensures WorkerStep(s, w).workers[w].pc != s.workers[w].pc
  {
  }

  /** When all workers have left and no submission is under way, the resumes
      since `stop` are exactly the slices that were left then, unless a late task remains. */
  lemma DrainResumes(s: State, moves: seq<Move>)
    requires Reachable(s) && s.stopped && Start !in moves
    requires var s' := Run(s, moves);
             AllExited(s') && NoLate(s') && forall k :: 0 <= k < |s'.clients| ==> s'.clients[k] == Ready
    ensures |Run(s, moves).trace| == |s.trace| + Remaining(s)
  {
    ReachableInv(s);
    DrainTerminates(s, moves);
    var s' := Run(s, moves);
    RunReachable(s, moves);
    DrainComplete(s');
    forall j | 0 <= j < |s'.jobs|
      ensures SLICES_LEFT(s'.jobs[j]) == 0
    {
      Conservation(s', j);
      ReachableInv(s');
      assert JobOk(s', j);
    }
    SumZero(s'.jobs, SLICES_LEFT);
    SumZero(s'.workers, WORKER_SLICES);
    SumZero(s'.clients, CLIENT_SLICES);
  }

  lemma {:induction false} RunReachable(s: State, moves: seq<Move>)
    requires Reachable(s)
    ensures Reachable(Run(s, moves))
    decreases |moves|
  {
    if moves != [] {
      ReachableNext(s, moves[0]);
      RunReachable(Next(s, moves[0]), moves[1..]);
    }
  }
}

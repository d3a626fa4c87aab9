/** What every reachable state of the scheduler satisfies: who owns each task and each
    coroutine, and why no queue is left unattended. */
module SchedulerInvariant {
  import opened SchedulerMachine

  // ----- Ownership -----

  ghost predicate Carries(s: State, c: nat, j: nat) {
    c < |s.coros| && j < |s.jobs| && s.coros[c].job == j && s.jobs[j].carrier == On(c)
  }

  predicate Resumable(status: Status) { status == RADY || status == SUSP }

  predicate Ended(status: Status) { status == DEAD || status == ECPT }

  /** The coroutine `c` with its job, at this place. */
  ghost predicate CarriedAt(s: State, c: nat, p: Place) {
    c < |s.coros| && c !in s.pool && Carries(s, c, s.coros[c].job) && s.jobs[s.coros[c].job].place == p
  }

  ghost predicate FreshAt(s: State, j: nat, p: Place) {
    j < |s.jobs| && s.jobs[j].place == p && s.jobs[j].carrier == NoCoro
  }

  ghost predicate TaskOk(s: State, t: Task, p: Place) {
    match t
    case Callback(j) => FreshAt(s, j, p)
    case Resumption(c) => CarriedAt(s, c, p) && Resumable(s.coros[c].status)
  }

  ghost predicate QueuesOk(s: State) {
    && |s.queues| == |s.workers| + 1
    && (forall q, i :: 0 <= q < |s.queues| && 0 <= i < |s.queues[q]| ==> TaskOk(s, s.queues[q][i], Queued(q)))
    && (forall q, i, k :: 0 <= q < |s.queues| && 0 <= i < k < |s.queues[q]| ==>
          JobOf(s, s.queues[q][i]) != JobOf(s, s.queues[q][k]))
  }

  /** What a worker holds at its instruction. */
  ghost predicate PcOk(s: State, w: nat, pc: Pc) {
    match pc
    case TakeFrom(q) => q < |s.queues|
    case SeePool(j) => FreshAt(s, j, Held(w))
    case TakePool(j) => FreshAt(s, j, Held(w))
    case NullCoroutine(j) => FreshAt(s, j, Held(w))
    case Resume(c) => CarriedAt(s, c, Held(w)) && Resumable(s.coros[c].status)
    case Running(c) => CarriedAt(s, c, Held(w)) && s.coros[c].status == RUNN
    case Submitting(c, _) => CarriedAt(s, c, Held(w)) && s.coros[c].status == RUNN
    case Returned(c) => CarriedAt(s, c, Held(w)) && (s.coros[c].status == SUSP || Ended(s.coros[c].status))
    case GuardFailed => false
    case _ => true
  }

  ghost predicate WorkersOk(s: State) {
    && |s.workers| > 0
    && (forall w :: 0 <= w < |s.workers| ==> PcOk(s, w, s.workers[w].pc))
  }

  predicate Holds(s: State, pc: Pc, j: nat) {
    match pc
    case SeePool(job) => job == j
    case TakePool(job) => job == j
    case NullCoroutine(job) => job == j
    case Resume(c) => c < |s.coros| && s.coros[c].job == j
    case Running(c) => c < |s.coros| && s.coros[c].job == j
    case Submitting(c, _) => c < |s.coros| && s.coros[c].job == j
    case Returned(c) => c < |s.coros| && s.coros[c].job == j
    case _ => false
  }

  ghost predicate InQueue(s: State, q: nat, j: nat) {
    q < |s.queues| && exists i :: 0 <= i < |s.queues[q]| && JobOf(s, s.queues[q][i]) == j
  }

  /** An accepted task is where its record says, and has run as far as its coroutine has. */
  ghost predicate JobOk(s: State, j: nat)
    requires j < |s.jobs|
  {
    var job := s.jobs[j];
    && (match job.place
        case Queued(q) => InQueue(s, q, j)
        case Held(w) => w < |s.workers| && Holds(s, s.workers[w].pc, j)
        case Finished => job.carrier == NoCoro && job.ran == job.program.pauses + 1)
    && (job.late ==> job.place.Queued? && job.ran == 0)
    && (match job.carrier
        case NoCoro => job.place != Finished ==> job.ran == 0
        case On(c) =>
          && c < |s.coros| && s.coros[c].job == j && c !in s.pool
          && job.ran == s.coros[c].next + (if s.coros[c].status == RUNN then 1 else 0)
          && (if Ended(s.coros[c].status)
              then s.coros[c].next == job.program.pauses + 1 && (s.coros[c].status == ECPT <==> job.program.throws)
              else s.coros[c].next <= job.program.pauses))
  }

  ghost predicate JobsOk(s: State) {
    forall j :: 0 <= j < |s.jobs| ==> JobOk(s, j)
  }

  /** A coroutine is idle in the pool, with an ended status, or carries a task. */
  ghost predicate PoolOk(s: State) {
    && (forall i, k :: 0 <= i < k < |s.pool| ==> s.pool[i] != s.pool[k])
    && (forall i :: 0 <= i < |s.pool| ==> s.pool[i] < |s.coros| && Ended(s.coros[s.pool[i]].status))
    && (forall c :: 0 <= c < |s.coros| && c !in s.pool ==> Carries(s, c, s.coros[c].job))
  }

  // ----- Slices -----

  /** The slices of task `j`, in the order in which they were begun. */
  function SlicesOf(trace: seq<Slice>, j: nat): seq<nat> {
    if trace == [] then []
    else
      var before, last := SlicesOf(trace[..|trace| - 1], j), trace[|trace| - 1];
      if last.job == j then before + [last.index] else before
  }

  function UpTo(n: nat): (r: seq<nat>)
    ensures |r| == n && forall i :: 0 <= i < n ==> r[i] == i
  {
    if n == 0 then [] else UpTo(n - 1) + [n - 1]
  }

  ghost predicate TraceOk(s: State) {
    && (forall j :: 0 <= j < |s.jobs| ==> SlicesOf(s.trace, j) == UpTo(s.jobs[j].ran))
    && (forall i :: 0 <= i < |s.trace| ==> s.trace[i].job < |s.jobs|)
  }

  // ----- Attention -----

  /** Where the steal loop of `w` comes to queue `q`. */
  function StealPosition(s: State, w: nat, q: nat): nat
    requires w < |s.workers| && q < |s.workers|
  {
    if q > w then q - w - 1 else |s.workers| - 1 - w + q
  }

  /** The worker is busy, or has yet to look at queue `q`, or is about to dequeue from a non-empty queue. */
  ghost predicate Attends(s: State, w: nat, q: nat)
    requires w < |s.workers| && q < |s.queues|
  {
    var pc := s.workers[w].pc;
    if !s.workers[w].draining then pc != Exited
    else
      match pc
      case SeeGlobal => q != w
      case SeeSteal(i) => q < |s.workers| && q != w && StealPosition(s, w, q) >= i
      case TakeFrom(p) => NonEmpty(s, p)
      case NoTask => false
      case Exited => false
      case _ => true
  }

  /** A task that is not late waits in `q`. */
  ghost predicate Waiting(s: State, q: nat, j: nat) {
    j < |s.jobs| && s.jobs[j].place == Queued(q) && !s.jobs[j].late
  }

  ghost predicate Attended(s: State, q: nat)
    requires q < |s.queues|
  {
    exists w :: 0 <= w < |s.workers| && Attends(s, w, q)
  }

  ghost predicate AttentionOk(s: State) {
    && (forall q: nat, j: nat :: q < |s.queues| && Waiting(s, q, j) ==> Attended(s, q))
    && (forall w :: 0 <= w < |s.workers| ==>
          (s.workers[w].draining ==> s.stopped) && (s.workers[w].pc == Exited ==> s.workers[w].draining))
  }

  ghost predicate DataOk(s: State) {
    QueuesOk(s) && WorkersOk(s) && JobsOk(s) && PoolOk(s) && TraceOk(s)
  }

  ghost predicate Inv(s: State) {
    DataOk(s) && AttentionOk(s)
  }

  lemma InitInv(workers: nat, clients: nat)
    requires workers > 0
    ensures Inv(Init(workers, clients))
  {
  }

  // ----- Data: a step that only moves a program counter -----

  ghost predicate SameData(s: State, s': State) {
    s'.queues == s.queues && s'.pool == s.pool && s'.coros == s.coros && s'.jobs == s.jobs && s'.trace == s.trace
  }

  lemma ControlData(s: State, s': State, w: nat)
    requires DataOk(s) && SameData(s, s') && w < |s.workers| == |s'.workers|
    requires forall v :: 0 <= v < |s.workers| && v != w ==> s'.workers[v] == s.workers[v]
    requires PcOk(s', w, s'.workers[w].pc)
    requires forall j :: 0 <= j < |s.jobs| && Holds(s, s.workers[w].pc, j) ==> Holds(s', s'.workers[w].pc, j)
    ensures DataOk(s')
  {
    forall j | 0 <= j < |s'.jobs|
      ensures JobOk(s', j)
    {
      assert JobOk(s, j);
      if s.jobs[j].place.Queued? {
        assert InQueue(s', s.jobs[j].place.q, j);
      }
    }
    forall v | 0 <= v < |s'.workers|
      ensures PcOk(s', v, s'.workers[v].pc)
    {
      if v != w {
        assert PcOk(s, v, s.workers[v].pc);
      }
    }
  }

  // ----- Data: a step that concerns one task -----

  /** Nothing that belongs to a task other than `j` changes. */
  ghost predicate Others(s: State, s': State, j: nat) {
    && |s.jobs| <= |s'.jobs| && (forall i :: 0 <= i < |s.jobs| && i != j ==> s'.jobs[i] == s.jobs[i])
    && |s.coros| <= |s'.coros|
    && (forall c :: 0 <= c < |s.coros| && c !in s.pool && s.coros[c].job != j ==>
          s'.coros[c] == s.coros[c] && c !in s'.pool)
    && |s'.workers| == |s.workers| && |s'.queues| == |s.queues|
  }

  lemma OtherTask(s: State, s': State, j: nat, t: Task, p: Place)
    requires Others(s, s', j) && TaskOk(s, t, p) && JobOf(s, t) != j
    ensures TaskOk(s', t, p) && JobOf(s', t) == JobOf(s, t)
  {
  }

  lemma OtherWorker(s: State, s': State, j: nat, w: nat, pc: Pc)
    requires Others(s, s', j) && PcOk(s, w, pc) && !Holds(s, pc, j)
    ensures PcOk(s', w, pc) && forall i: nat :: Holds(s', pc, i) <==> Holds(s, pc, i)
  {
  }

  /** The task of a worker at this instruction is held by that worker. */
  lemma HeldBy(s: State, w: nat, pc: Pc, j: nat)
    requires PcOk(s, w, pc) && Holds(s, pc, j)
    ensures j < |s.jobs| && s.jobs[j].place == Held(w)
  {
  }

  /** The workers other than `w` are as they were when `w` deals with task `j`. */
  lemma OtherWorkers(s: State, s': State, j: nat, w: nat)
    requires WorkersOk(s) && Others(s, s', j) && w < |s.workers|
    requires forall v :: 0 <= v < |s.workers| && v != w ==> s'.workers[v] == s.workers[v]
    requires j < |s.jobs| ==> s.jobs[j].place == Held(w) || s.jobs[j].place.Queued?
    requires PcOk(s', w, s'.workers[w].pc)
    ensures WorkersOk(s')
    ensures forall v, i: nat :: 0 <= v < |s.workers| && v != w ==>
              (Holds(s', s'.workers[v].pc, i) <==> Holds(s, s.workers[v].pc, i))
  {
    forall v | 0 <= v < |s.workers| && v != w
      ensures PcOk(s', v, s'.workers[v].pc)
      ensures forall i: nat :: Holds(s', s'.workers[v].pc, i) <==> Holds(s, s.workers[v].pc, i)
    {
      if Holds(s, s.workers[v].pc, j) {
        HeldBy(s, v, s.workers[v].pc, j);
      }
      OtherWorker(s, s', j, v, s.workers[v].pc);
    }
  }

  /** Where task `i` is, when it is not the one the step concerns. */
  ghost predicate Kept(s: State, s': State, i: nat)
    requires i < |s.jobs|
  {
    && (s.jobs[i].place.Queued? ==> InQueue(s', s.jobs[i].place.q, i))
    && (s.jobs[i].place.Held? ==>
          s.jobs[i].place.w < |s'.workers| && Holds(s', s'.workers[s.jobs[i].place.w].pc, i))
  }

  lemma OtherJob(s: State, s': State, j: nat, i: nat)
    requires Others(s, s', j) && i < |s.jobs| && i != j && JobOk(s, i) && Kept(s, s', i)
    ensures JobOk(s', i)
  {
  }

  lemma QueueStays(s: State, s': State, j: nat, i: nat)
    requires QueuesOk(s) && Others(s, s', j) && i < |s.jobs| && i != j
    requires s.jobs[i].place.Queued? && InQueue(s, s.jobs[i].place.q, i)
    requires var q := s.jobs[i].place.q; forall t :: t in s.queues[q] && JobOf(s, t) == i ==> t in s'.queues[q]
    ensures InQueue(s', s.jobs[i].place.q, i)
  {
    var q := s.jobs[i].place.q;
    var k :| 0 <= k < |s.queues[q]| && JobOf(s, s.queues[q][k]) == i;
    assert s.queues[q][k] in s.queues[q];
    OtherTask(s, s', j, s.queues[q][k], Queued(q));
    var k' :| 0 <= k' < |s'.queues[q]| && s'.queues[q][k'] == s.queues[q][k];
  }

  // ----- Data: dequeuing -----

  lemma TakeData(s: State, w: nat, q: nat)
    requires DataOk(s) && w < |s.workers| && s.workers[w].pc == TakeFrom(q) && NonEmpty(s, q)
    ensures DataOk(Take(s, w, q))
  {
    var s' := Take(s, w, q);
    var j := JobOf(s, s.queues[q][0]);
    assert TaskOk(s, s.queues[q][0], Queued(q));
    assert JobOk(s, j);
    assert Others(s, s', j);
    TakeQueues(s, w, q);
    OtherWorkers(s, s', j, w);
    forall i | 0 <= i < |s'.jobs|
      ensures JobOk(s', i)
    {
      assert JobOk(s, i);
      if i != j {
        if s.jobs[i].place.Queued? {
          assert forall t :: t in s.queues[q] && JobOf(s, t) == i ==> t in s.queues[q][1..];
          QueueStays(s, s', j, i);
        }
        OtherJob(s, s', j, i);
      }
    }
  }

  lemma TakeQueues(s: State, w: nat, q: nat)
    requires DataOk(s) && w < |s.workers| && NonEmpty(s, q)
    requires Others(s, Take(s, w, q), JobOf(s, s.queues[q][0]))
    ensures QueuesOk(Take(s, w, q))
  {
    var s' := Take(s, w, q);
    var j := JobOf(s, s.queues[q][0]);
    assert TaskOk(s, s.queues[q][0], Queued(q));
    forall p, i | 0 <= p < |s'.queues| && 0 <= i < |s'.queues[p]|
      ensures TaskOk(s', s'.queues[p][i], Queued(p))
      ensures JobOf(s', s'.queues[p][i]) == JobOf(s, s'.queues[p][i])
    {
      var i0 := if p == q then i + 1 else i;
      assert s'.queues[p][i] == s.queues[p][i0];
      assert TaskOk(s, s.queues[p][i0], Queued(p));
      OtherTask(s, s', j, s.queues[p][i0], Queued(p));
    }
  }

  // ----- Data: a step on a task that is held by the worker, or that is new -----

  /** The queues are unchanged, or task `j` was put at the end of queue `q`. */
  ghost predicate QueuesBy(s: State, s': State, j: nat, q: nat, t: Task) {
    || s'.queues == s.queues
    || (q < |s.queues| && s'.queues == s.queues[q := s.queues[q] + [t]] && TaskOk(s', t, Queued(q))
      && JobOf(s', t) == j)
  }

  /** No queue entry stands for a task that is held or not accepted yet. */
  lemma NotQueued(s: State, j: nat, q: nat, i: nat)
    requires QueuesOk(s) && q < |s.queues| && i < |s.queues[q]|
    requires j >= |s.jobs| || !s.jobs[j].place.Queued?
    ensures JobOf(s, s.queues[q][i]) != j && JobOf(s, s.queues[q][i]) < |s.jobs|
  {
    assert TaskOk(s, s.queues[q][i], Queued(q));
  }

  lemma QueuesAfter(s: State, s': State, j: nat, q: nat, t: Task)
    requires QueuesOk(s) && Others(s, s', j) && QueuesBy(s, s', j, q, t)
    requires j >= |s.jobs| || !s.jobs[j].place.Queued?
    ensures QueuesOk(s')
  {
    forall p, i | 0 <= p < |s.queues| && 0 <= i < |s.queues[p]|
      ensures TaskOk(s', s.queues[p][i], Queued(p))
      ensures JobOf(s', s.queues[p][i]) == JobOf(s, s.queues[p][i]) != j
    {
      NotQueued(s, j, p, i);
      assert TaskOk(s, s.queues[p][i], Queued(p));
      OtherTask(s, s', j, s.queues[p][i], Queued(p));
    }
  }

  lemma StepData(s: State, s': State, j: nat, w: nat, q: nat, t: Task)
    requires DataOk(s) && Others(s, s', j) && QueuesBy(s, s', j, q, t) && w < |s.workers|
    requires forall v :: 0 <= v < |s.workers| && v != w ==> s'.workers[v] == s.workers[v]
    requires j >= |s.jobs| || s.jobs[j].place == Held(w)
    requires forall i :: 0 <= i < |s.jobs| && i != j && Holds(s, s.workers[w].pc, i) ==> Holds(s', s'.workers[w].pc, i)
    requires |s'.jobs| == |s.jobs| || |s'.jobs| == j + 1 == |s.jobs| + 1
    requires PcOk(s', w, s'.workers[w].pc) && PoolOk(s') && TraceOk(s')
    requires j < |s'.jobs| && JobOk(s', j)
    ensures DataOk(s')
  {
    QueuesAfter(s, s', j, q, t);
    OtherWorkers(s, s', j, w);
    forall i | 0 <= i < |s'.jobs|
      ensures JobOk(s', i)
    {
      if i != j {
        assert JobOk(s, i);
        if s.jobs[i].place.Queued? {
          QueueStays(s, s', j, i);
        }
        OtherJob(s, s', j, i);
      }
    }
  }

  // ----- Data: a coroutine for the callback -----

  lemma CreateData(s: State, w: nat, j: nat)
    requires DataOk(s) && w < |s.workers| && s.workers[w].pc == SeePool(j) && s.pool == []
    ensures DataOk(Create(s, w, j))
  {
    var s' := Create(s, w, j);
    assert PcOk(s, w, s.workers[w].pc);
    assert JobOk(s, j);
    StepData(s, s', j, w, 0, Callback(j));
  }

  lemma RecycleData(s: State, w: nat, j: nat)
    requires DataOk(s) && w < |s.workers| && s.workers[w].pc == TakePool(j)
    ensures DataOk(Recycle(s, w, j))
  {
    var s' := Recycle(s, w, j);
    assert PcOk(s, w, s.workers[w].pc);
    assert JobOk(s, j);
    if s.pool == [] {
      ControlData(s, s', w);
    } else {
      var c := s.pool[0];
      assert Ended(s.coros[c].status);
      forall i | 0 <= i < |s.jobs| && s.jobs[i].carrier.On?
        ensures s.jobs[i].carrier.coro !in s.pool
      {
        assert JobOk(s, i);
      }
      RecyclePool(s, s', c, j);
      assert Others(s, s', j);
      StepData(s, s', j, w, 0, Callback(j));
    }
  }

  lemma RecyclePool(s: State, s': State, c: nat, j: nat)
    requires PoolOk(s) && j < |s.jobs| && s.jobs[j].carrier == NoCoro && s.pool != [] && s.pool[0] == c
    requires forall i :: 0 <= i < |s.jobs| && s.jobs[i].carrier.On? ==> s.jobs[i].carrier.coro !in s.pool
    requires c < |s.coros| && s'.pool == s.pool[1..] && s'.coros == s.coros[c := Coro(RADY, j, 0)]
    requires s'.jobs == s.jobs[j := s.jobs[j].(carrier := On(c))]
    ensures PoolOk(s') && c !in s'.pool
  {
    forall x | 0 <= x < |s'.coros| && x !in s'.pool
      ensures Carries(s', x, s'.coros[x].job)
    {
      if x != c {
        assert x !in s.pool;
        assert Carries(s, x, s.coros[x].job);
      }
    }
  }

  // ----- Data: running a slice -----

  lemma BeginData(s: State, w: nat, c: nat)
    requires DataOk(s) && w < |s.workers| && s.workers[w].pc == Resume(c)
    ensures DataOk(Begin(s, w, c))
  {
    var s' := Begin(s, w, c);
    assert PcOk(s, w, s.workers[w].pc);
    var j := s.coros[c].job;
    assert JobOk(s, j);
    assert PoolOk(s') by {
      CoroPool(s, s', c);
    }
    BeginTrace(s, w, c);
    StepData(s, s', j, w, 0, Callback(j));
  }

  /** The pool stays right when a coroutine outside it changes its status. */
  lemma CoroPool(s: State, s': State, c: nat)
    requires PoolOk(s) && c < |s.coros| && c !in s.pool && s'.pool == s.pool && |s'.coros| == |s.coros|
    requires forall x :: 0 <= x < |s.coros| && x != c ==> s'.coros[x] == s.coros[x]
    requires s'.coros[c].job == s.coros[c].job
    requires |s'.jobs| == |s.jobs| && forall i :: 0 <= i < |s.jobs| ==> s'.jobs[i].carrier == s.jobs[i].carrier
    ensures PoolOk(s')
  {
    forall x | 0 <= x < |s'.coros| && x !in s'.pool
      ensures Carries(s', x, s'.coros[x].job)
    {
      assert Carries(s, x, s.coros[x].job);
    }
  }

  lemma BeginTrace(s: State, w: nat, c: nat)
    requires TraceOk(s) && w < |s.workers| && CarriedAt(s, c, Held(w)) && Resumable(s.coros[c].status)
    requires s.coros[c].job < |s.jobs| && JobOk(s, s.coros[c].job)
    ensures TraceOk(Begin(s, w, c))
  {
    var s' := Begin(s, w, c);
    assert s'.trace[..|s'.trace| - 1] == s.trace;
  }

  lemma EndData(s: State, w: nat, c: nat)
    requires DataOk(s) && w < |s.workers| && s.workers[w].pc == Running(c)
    ensures DataOk(End(s, w, c))
  {
    var s' := End(s, w, c);
    assert PcOk(s, w, s.workers[w].pc);
    var j := s.coros[c].job;
    assert JobOk(s, j);
    assert PoolOk(s') by {
      CoroPool(s, s', c);
    }
    StepData(s, s', j, w, 0, Callback(j));
  }

  lemma GiveBackData(s: State, w: nat, c: nat)
    requires DataOk(s) && w < |s.workers| && s.workers[w].pc == Returned(c)
    ensures DataOk(GiveBack(s, w, c))
  {
    var s' := GiveBack(s, w, c);
    assert PcOk(s, w, s.workers[w].pc);
    var j := s.coros[c].job;
    assert JobOk(s, j);
    if Ended(s.coros[c].status) {
      PoolGrows(s, w, c);
      StepData(s, s', j, w, 0, Callback(j));
    } else {
      CoroPool(s, s', c);
      assert s'.queues[w][|s.queues[w]|] == Resumption(c);
      StepData(s, s', j, w, w, Resumption(c));
    }
  }

  lemma PoolGrows(s: State, w: nat, c: nat)
    requires DataOk(s) && w < |s.workers| && CarriedAt(s, c, Held(w)) && Ended(s.coros[c].status)
    ensures var s' := GiveBack(s, w, c); PoolOk(s') && Others(s, s', s.coros[c].job)
  {
    var s' := GiveBack(s, w, c);
    forall x | 0 <= x < |s'.coros| && x !in s'.pool
      ensures Carries(s', x, s'.coros[x].job)
    {
      assert x !in s.pool && x != c by {
        assert s'.pool[|s.pool|] == c;
        assert forall y :: y in s.pool ==> y in s'.pool;
      }
      assert Carries(s, x, s.coros[x].job);
    }
  }

  // ----- Data: accepting a task -----

  lemma AcceptData(s: State, r: Request, late: bool)
    requires DataOk(s)
    ensures DataOk(Accept(s, r, late))
  {
    var s' := Accept(s, r, late);
    var j := |s.jobs|;
    var q := if r.target < |s.workers| then r.target else Global(s);
    var t := if r.asCoroutine then Resumption(|s.coros|) else Callback(j);
    AcceptPool(s, r, late);
    assert s'.queues[q][|s.queues[q]|] == t;
    assert PcOk(s, 0, s.workers[0].pc);
    if Holds(s, s.workers[0].pc, j) {
      HeldBy(s, 0, s.workers[0].pc, j);
    }
    OtherWorker(s, s', j, 0, s.workers[0].pc);
    NoSlices(s.trace, j);
    StepDataNew(s, s', j, q, t);
  }

  lemma AcceptPool(s: State, r: Request, late: bool)
    requires DataOk(s)
    ensures var s' := Accept(s, r, late); PoolOk(s') && Others(s, s', |s.jobs|)
  {
    var s' := Accept(s, r, late);
    forall x | 0 <= x < |s'.coros| && x !in s'.pool
      ensures Carries(s', x, s'.coros[x].job)
    {
      if x < |s.coros| {
        assert Carries(s, x, s.coros[x].job);
      }
    }
  }

  lemma {:induction false} NoSlices(trace: seq<Slice>, j: nat)
    requires forall i :: 0 <= i < |trace| ==> trace[i].job != j
    ensures SlicesOf(trace, j) == []
  {
    if trace != [] {
      NoSlices(trace[..|trace| - 1], j);
    }
  }

  lemma StepDataNew(s: State, s': State, j: nat, q: nat, t: Task)
    requires DataOk(s) && Others(s, s', j) && QueuesBy(s, s', j, q, t) && s'.workers == s.workers
    requires |s'.jobs| == j + 1 == |s.jobs| + 1
    requires PcOk(s', 0, s'.workers[0].pc)
    requires forall i: nat :: Holds(s, s.workers[0].pc, i) ==> Holds(s', s'.workers[0].pc, i)
    requires PoolOk(s') && TraceOk(s') && JobOk(s', j)
    ensures DataOk(s')
  {
    StepData(s, s', j, 0, q, t);
  }

  // ----- Attention -----

  /** A worker's instruction changes no other thread; only a running callback takes up a submission. */
  lemma StepFrame(s: State, w: nat)
    requires w < |s.workers|
    ensures var s' := WorkerStep(s, w);
            && |s'.workers| == |s.workers| && s'.clients == s.clients && s'.stopped == s.stopped
            && !s'.workers[w].pc.Submitting?
            && forall v :: 0 <= v < |s.workers| && v != w ==> s'.workers[v] == s.workers[v]
  {
    var pc, s' := s.workers[w].pc, WorkerStep(s, w);
    if pc.TakeFrom? {
      assert s' == Take(s, w, pc.q);
    } else if pc.SeePool? {
      assert s' == if s.pool == [] then Create(s, w, pc.job) else At(s, w, TakePool(pc.job));
    } else if pc.TakePool? {
      assert s' == Recycle(s, w, pc.job);
    } else if pc.Resume? {
      assert s' == Begin(s, w, pc.coro);
    } else if pc.Running? {
      assert s' == End(s, w, pc.coro);
    } else if pc.Submitting? {
      assert s' == At(Accept(s, pc.request, false), w, Running(pc.coro));
    } else if pc.Returned? {
      assert s' == GiveBack(s, w, pc.coro);
    }
  }

  lemma WaitingQueued(s: State, q: nat, j: nat)
    requires JobsOk(s) && Waiting(s, q, j)
    ensures NonEmpty(s, q)
  {
    assert JobOk(s, j);
  }

  /** A worker that attends every queue is enough. */
  lemma OneAttends(s: State, w: nat)
    requires w < |s.workers| && forall q :: 0 <= q < |s.queues| ==> Attends(s, w, q)
    requires forall v :: 0 <= v < |s.workers| ==>
               (s.workers[v].draining ==> s.stopped) && (s.workers[v].pc == Exited ==> s.workers[v].draining)
    ensures AttentionOk(s)
  {
    forall q: nat, j: nat | q < |s.queues| && Waiting(s, q, j)
      ensures Attended(s, q)
    {
      assert Attends(s, w, q);
    }
  }

  /** Scanning on only drops queues that are empty. */
  lemma ScanAttention(s: State, s': State, w: nat)
    requires DataOk(s) && AttentionOk(s) && w < |s.workers| == |s'.workers|
    requires s'.queues == s.queues && s'.jobs == s.jobs && s'.stopped == s.stopped
    requires forall v :: 0 <= v < |s.workers| && v != w ==> s'.workers[v] == s.workers[v]
    requires s'.workers[w].draining == s.workers[w].draining
    requires s'.workers[w].pc == Exited ==> s'.workers[w].draining
    requires forall q :: 0 <= q < |s.queues| && NonEmpty(s, q) && Attends(s, w, q) ==> Attends(s', w, q)
    ensures AttentionOk(s')
  {
    forall q: nat, j: nat | q < |s'.queues| && Waiting(s', q, j)
      ensures Attended(s', q)
    {
      assert Waiting(s, q, j);
      WaitingQueued(s, q, j);
      var v :| 0 <= v < |s.workers| && Attends(s, v, q);
      assert Attends(s', v, q);
    }
  }

  lemma StealPositionIs(s: State, w: nat, q: nat, i: nat)
    requires w < |s.workers| && q < |s.workers| && i < |s.workers|
    ensures StealPosition(s, w, q) < |s.workers|
    ensures StealPosition(s, w, q) == i <==> StealIndex(s, w, i) == q
  {
    WrapsOnce(w + 1 + i, |s.workers|);
  }

  lemma WrapsOnce(x: nat, n: nat)
    requires 0 < n && x < 2 * n
    ensures x % n == if x < n then x else x - n
  {
    if x >= n {
      assert x == 1 * n + (x - n);
    }
  }

  lemma StealAttention(s: State, w: nat, i: nat)
    requires DataOk(s) && AttentionOk(s) && w < |s.workers| && s.workers[w].pc == SeeSteal(i)
    ensures AttentionOk(WorkerStep(s, w))
  {
    var s' := WorkerStep(s, w);
    forall q | 0 <= q < |s.queues| && NonEmpty(s, q) && Attends(s, w, q)
      ensures Attends(s', w, q)
    {
      if s.workers[w].draining && i < |s.workers| && q < |s.workers| {
        StealPositionIs(s, w, q, i);
      }
    }
    ScanAttention(s, s', w);
  }

  /** A worker with a task, or about to start a scan, attends every queue. */
  predicate Busy(pc: Pc) {
    pc.LoopTop? || pc.SeeOwn? || pc.SeePool? || pc.TakePool? || pc.Resume? || pc.Running? || pc.Submitting?
      || pc.Returned?
    || pc.NullCoroutine?
  }

  lemma BusyAttention(s: State, s': State, w: nat)
    requires AttentionOk(s) && w < |s.workers| == |s'.workers| && s'.stopped == s.stopped
    requires forall v :: 0 <= v < |s.workers| && v != w ==> s'.workers[v] == s.workers[v]
    requires Busy(s'.workers[w].pc) && (s'.workers[w].draining ==> s'.stopped)
    ensures AttentionOk(s')
  {
    OneAttends(s', w);
  }

  /** What the instructions of a busy worker do to the workers. */
  lemma BusyFrame(s: State, w: nat)
    requires w < |s.workers|
    requires var pc := s.workers[w].pc; (Busy(pc) && !pc.SeeOwn?) || (pc.TakeFrom? && NonEmpty(s, pc.q))
    requires WorkerStep(s, w).workers[w].pc != GuardFailed
    ensures var s' := WorkerStep(s, w);
            && |s'.workers| == |s.workers| && s'.stopped == s.stopped
            && (forall v :: 0 <= v < |s.workers| && v != w ==> s'.workers[v] == s.workers[v])
            && Busy(s'.workers[w].pc)
            && (s'.workers[w].draining ==> s.workers[w].draining || s.stopped)
  {
    var pc, s' := s.workers[w].pc, WorkerStep(s, w);
    if pc.TakeFrom? {
      assert s' == Take(s, w, pc.q);
    } else if pc.SeePool? {
      assert s' == if s.pool == [] then Create(s, w, pc.job) else At(s, w, TakePool(pc.job));
    } else if pc.TakePool? {
      assert s' == Recycle(s, w, pc.job);
    } else if pc.Resume? {
      assert s' == Begin(s, w, pc.coro);
    } else if pc.Running? {
      assert s' == End(s, w, pc.coro);
    } else if pc.Submitting? {
      assert s' == At(Accept(s, pc.request, false), w, Running(pc.coro));
    } else if pc.Returned? {
      assert s' == GiveBack(s, w, pc.coro);
    }
  }

  lemma WorkerAttention(s: State, w: nat)
    requires DataOk(s) && AttentionOk(s) && w < |s.workers|
    requires PcOk(WorkerStep(s, w), w, WorkerStep(s, w).workers[w].pc)
    ensures AttentionOk(WorkerStep(s, w))
  {
    var pc := s.workers[w].pc;
    if pc.SeeSteal? {
      StealAttention(s, w, pc.i);
    } else if (Busy(pc) && !pc.SeeOwn?) || (pc.TakeFrom? && NonEmpty(s, pc.q)) {
      BusyFrame(s, w);
      BusyAttention(s, WorkerStep(s, w), w);
    } else {
      assert PcOk(s, w, pc);
      ScanOn(s, w);
    }
  }

  lemma ScanOn(s: State, w: nat)
    requires DataOk(s) && AttentionOk(s) && w < |s.workers|
    requires var pc := s.workers[w].pc;
             pc.SeeOwn? || pc.SeeGlobal? || pc.NoTask? || pc == Exited || (pc.TakeFrom? && !NonEmpty(s, pc.q))
    ensures AttentionOk(WorkerStep(s, w))
  {
    ScanAttention(s, WorkerStep(s, w), w);
  }

  // ----- Every move -----

  /** The instructions that only move the program counter. */
  predicate Scans(s: State, pc: Pc) {
    pc.LoopTop? || pc.SeeOwn? || pc.SeeGlobal? || pc.SeeSteal? || pc.NoTask? || pc.Exited? || pc.NullCoroutine?
    || (pc.TakeFrom? && !NonEmpty(s, pc.q)) || (pc.SeePool? && s.pool != [])
  }

  lemma ScanData(s: State, w: nat)
    requires DataOk(s) && w < |s.workers| && Scans(s, s.workers[w].pc)
    ensures DataOk(WorkerStep(s, w))
  {
    assert PcOk(s, w, s.workers[w].pc);
    ControlData(s, WorkerStep(s, w), w);
  }

  lemma WorkerData(s: State, w: nat)
    requires DataOk(s) && w < |s.workers|
    ensures DataOk(WorkerStep(s, w))
  {
    var pc := s.workers[w].pc;
    assert PcOk(s, w, pc);
    if Scans(s, pc) {
      ScanData(s, w);
    } else if pc.TakeFrom? {
      TakeData(s, w, pc.q);
    } else if pc.SeePool? {
      CreateData(s, w, pc.job);
    } else if pc.TakePool? {
      RecycleData(s, w, pc.job);
    } else if pc.Resume? {
      BeginData(s, w, pc.coro);
    } else if pc.Running? {
      EndData(s, w, pc.coro);
    } else if pc.Submitting? {
      AcceptData(s, pc.request, false);
      SubmittedData(s, w, pc.coro, pc.request);
    } else {
      GiveBackData(s, w, pc.coro);
    }
  }

  lemma SubmittedData(s: State, w: nat, c: nat, r: Request)
    requires DataOk(s) && DataOk(Accept(s, r, false)) && w < |s.workers| && s.workers[w].pc == Submitting(c, r)
    ensures DataOk(WorkerStep(s, w))
  {
    var s1 := Accept(s, r, false);
    assert PcOk(s1, w, s1.workers[w].pc);
    ControlData(s1, WorkerStep(s, w), w);
  }

  lemma WorkerInv(s: State, w: nat)
    requires Inv(s) && w < |s.workers|
    ensures Inv(WorkerStep(s, w))
  {
    WorkerData(s, w);
    var s' := WorkerStep(s, w);
    assert PcOk(s', w, s'.workers[w].pc);
    WorkerAttention(s, w);
  }

  lemma SubmitInv(s: State, w: nat, r: Request)
    requires Inv(s) && w < |s.workers| && s.workers[w].pc.Running?
    ensures Inv(At(s, w, Submitting(s.workers[w].pc.coro, r)))
  {
    var s' := At(s, w, Submitting(s.workers[w].pc.coro, r));
    assert PcOk(s, w, s.workers[w].pc);
    ControlData(s, s', w);
    BusyAttention(s, s', w);
  }

  lemma PutInv(s: State, k: nat)
    requires Inv(s) && k < |s.clients| && s.clients[k].Checked?
    ensures Inv(Next(s, Put(k)))
  {
    var s0 := s.(clients := s.clients[k := Ready]);
    assert SameData(s, s0) && DataOk(s0) by {
      assert PcOk(s0, 0, s0.workers[0].pc) by {
        assert PcOk(s, 0, s.workers[0].pc);
      }
      ControlData(s, s0, 0);
    }
    AcceptData(s0, s.clients[k].request, s.stopped);
    PutAttention(s, Next(s, Put(k)), s.clients[k].request);
  }

  /** After `stop` only late tasks come from outside; before it every worker is in its first loop. */
  lemma PutAttention(s: State, s': State, r: Request)
    requires DataOk(s) && AttentionOk(s)
    requires s'.workers == s.workers && s'.stopped == s.stopped
    requires s'.queues == Accept(s, r, s.stopped).queues && s'.jobs == Accept(s, r, s.stopped).jobs
    ensures AttentionOk(s')
  {
    if !s.stopped {
      OneAttends(s', 0);
    } else {
      forall q: nat, j: nat | q < |s'.queues| && Waiting(s', q, j)
        ensures Attended(s', q)
      {
        assert Waiting(s, q, j);
        var v :| 0 <= v < |s.workers| && Attends(s, v, q);
        assert Attends(s', v, q);
      }
    }
  }

  lemma StartInv(s: State)
    requires Inv(s) && s.stopped && AllExited(s)
    ensures Inv(Next(s, Start))
  {
    var s' := Next(s, Start);
    forall j | 0 <= j < |s'.jobs|
      ensures JobOk(s', j)
    {
      assert JobOk(s, j);
      if s.jobs[j].place.Queued? {
        assert InQueue(s', s.jobs[j].place.q, j);
      }
    }
    OneAttends(s', 0);
  }

  lemma QuietInv(s: State, s': State)
    requires Inv(s) && SameData(s, s') && s'.workers == s.workers && (s.stopped ==> s'.stopped)
    ensures Inv(s')
  {
    assert PcOk(s', 0, s'.workers[0].pc) by {
      assert PcOk(s, 0, s.workers[0].pc);
    }
    ControlData(s, s', 0);
    forall q: nat, j: nat | q < |s'.queues| && Waiting(s', q, j)
      ensures Attended(s', q)
    {
      assert Waiting(s, q, j);
      var v :| 0 <= v < |s.workers| && Attends(s, v, q);
      assert Attends(s', v, q);
    }
  }

  lemma NextInv(s: State, mv: Move)
    requires Inv(s)
    ensures Inv(Next(s, mv))
  {
    match mv
    case Step(w) =>
      if w < |s.workers| {
        WorkerInv(s, w);
      }
    case Submit(w, r) =>
      if w < |s.workers| && s.workers[w].pc.Running? && !s.stopped {
        SubmitInv(s, w, r);
      }
    case Check(k, r) =>
      QuietInv(s, Next(s, mv));
    case Put(k) =>
      if k < |s.clients| && s.clients[k].Checked? {
        PutInv(s, k);
      }
    case Start =>
      if s.stopped && AllExited(s) {
        StartInv(s);
      }
    case Stop =>
      QuietInv(s, Next(s, mv));
  }

  lemma {:induction false} RunInv(s: State, moves: seq<Move>)
    requires Inv(s)
    ensures Inv(Run(s, moves))
    decreases |moves|
  {
    if moves == [] {
    } else {
      NextInv(s, moves[0]);
      RunInv(Next(s, moves[0]), moves[1..]);
    }
  }

  /** A state that some run reaches, with at least one worker (the constructor asserts it). */
  ghost predicate Reachable(s: State) {
    exists workers: nat, clients: nat, moves :: workers > 0 && s == Run(Init(workers, clients), moves)
  }

  lemma {:induction false} RunNext(s: State, moves: seq<Move>, mv: Move)
    ensures Run(s, moves + [mv]) == Next(Run(s, moves), mv)
    decreases |moves|
  {
    if moves == [] {
      assert [mv][1..] == [];
      assert Run(s, [mv]) == Run(Next(s, mv), []);
      assert moves + [mv] == [mv];
    } else {
      assert (moves + [mv])[1..] == moves[1..] + [mv];
      RunNext(Next(s, moves[0]), moves[1..], mv);
    }
  }

  lemma ReachableNext(s: State, mv: Move)
    requires Reachable(s)
    ensures Reachable(Next(s, mv))
  {
    var workers: nat, clients: nat, moves :| workers > 0 && s == Run(Init(workers, clients), moves);
    RunNext(Init(workers, clients), moves, mv);
  }

  lemma ReachableInv(s: State)
    requires Reachable(s)
    ensures Inv(s)
  {
    var workers: nat, clients: nat, moves :| workers > 0 && s == Run(Init(workers, clients), moves);
    InitInv(workers, clients);
    RunInv(Init(workers, clients), moves);
  }
}

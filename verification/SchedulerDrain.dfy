/** When the drain after `stop` leaves the queues empty, said of the moment of `stop`. */
module SchedulerDrain {
  import opened SchedulerMachine
  import opened SchedulerInvariant
  import opened SchedulerTheorems
  import opened SchedulerPool

  ghost predicate QueuesEmpty(s: State) {
    forall q :: 0 <= q < |s.queues| ==> s.queues[q] == []
  }

  // ----- An empty pool has somebody to fill it -----

  predicate AtPool(worker: Worker) { worker.pc.TakePool? }

  /** A worker is about to take from the pool. */
  ghost predicate Awaited(s: State) {
    exists w :: 0 <= w < |s.workers| && AtPool(s.workers[w])
  }

  /** The worker has a task, or is about to find one in its own queue. */
  predicate Cares(s: State, w: nat)
    requires w < |s.workers|
  {
    match s.workers[w].pc
    case SeePool(_) => true
    case Resume(_) => true
    case Running(_) => true
    case Submitting(_, _) => true
    case Returned(_) => true
    case LoopTop => NonEmpty(s, w)
    case SeeOwn => NonEmpty(s, w)
    case TakeFrom(q) => q == w && NonEmpty(s, w)
    case _ => false
  }

  ghost predicate Cared(s: State) {
    exists w :: 0 <= w < |s.workers| && Cares(s, w)
  }

  /** When a worker waits at an empty pool, another one has a task: the last to take from the pool, or one that
      it led to. */
  ghost predicate PoolServed(s: State) {
    s.pool == [] && Awaited(s) ==> Cared(s)
  }

  /** A worker that picks a task up, or goes on with one, cares, unless it fills the pool or waits there. */
  lemma BusyCares(s: State, w: nat)
    requires Inv(s) && w < |s.workers|
    requires var pc := s.workers[w].pc; Cares(s, w) || pc.TakePool? || (pc.TakeFrom? && NonEmpty(s, pc.q))
    ensures var s' := WorkerStep(s, w);
            s'.pool != [] || s'.workers[w].pc.NullCoroutine? || Cares(s', w)
  {
    WorkerInv(s, w);
    assert PcOk(s, w, s.workers[w].pc);
    assert PcOk(WorkerStep(s, w), w, WorkerStep(s, w).workers[w].pc);
  }

  /** What the instructions of a worker that does not pick a task do to the others' queues and to the pool. */
  lemma IdleKeeps(s: State, w: nat)
    requires w < |s.workers|
    requires var pc := s.workers[w].pc;
             pc.LoopTop? || pc.SeeOwn? || pc.SeeGlobal? || pc.SeeSteal? || pc.NoTask? || pc.Exited? || pc.NullCoroutine?
             || (pc.TakeFrom? && !NonEmpty(s, pc.q)) || (pc.TakePool? && s.pool == [])
    ensures var s' := WorkerStep(s, w);
            s'.queues == s.queues && s'.pool == s.pool && (AtPool(s'.workers[w]) ==> AtPool(s.workers[w]))
  {
  }

  lemma StepServed(s: State, w: nat)
    requires Inv(s) && PoolServed(s) && w < |s.workers|
    ensures PoolServed(WorkerStep(s, w))
  {
    var pc, s' := s.workers[w].pc, WorkerStep(s, w);
    StepFrame(s, w);
    if s'.pool == [] && Awaited(s') {
      if Cares(s, w) || (pc.TakePool? && s.pool != []) || (pc.TakeFrom? && NonEmpty(s, pc.q)) {
        BusyCares(s, w);
        TakesOne(s, w);
        assert Cares(s', w);
      } else {
        assert PcOk(s, w, pc);
        WorkerInv(s, w);
        IdleKeeps(s, w);
        OthersAwait(s, s', w);
        var v :| 0 <= v < |s.workers| && Cares(s, v);
        assert s'.workers[v] == s.workers[v];
        assert Cares(s', v);
      }
    }
  }

  /** A non-empty pool gives the worker a coroutine. */
  lemma TakesOne(s: State, w: nat)
    requires w < |s.workers| && (s.workers[w].pc.TakePool? ==> s.pool != [])
    requires !s.workers[w].pc.NullCoroutine?
    ensures !WorkerStep(s, w).workers[w].pc.NullCoroutine?
  {
    var pc, s' := s.workers[w].pc, WorkerStep(s, w);
    if pc.TakeFrom? {
      assert s' == Take(s, w, pc.q);
    } else if pc.SeePool? {
      assert s' == if s.pool == [] then Create(s, w, pc.job) else At(s, w, TakePool(pc.job));
    } else if pc.TakePool? {
      assert s' == Recycle(s, w, pc.job);
    } else if pc.Resume? {
      assert s' == Begin(s, w, pc.coro);
    } else if pc.Running? {
      assert s' == End(s, w, pc.coro);
    } else if pc.Returned? {
      assert s' == GiveBack(s, w, pc.coro);
    }
  }

  lemma OthersAwait(s: State, s': State, w: nat)
    requires w < |s.workers| == |s'.workers| && Awaited(s')
    requires forall v :: 0 <= v < |s.workers| && v != w ==> s'.workers[v] == s.workers[v]
    requires AtPool(s'.workers[w]) ==> AtPool(s.workers[w])
    ensures Awaited(s)
  {
    var v :| 0 <= v < |s'.workers| && AtPool(s'.workers[v]);
    assert AtPool(s.workers[v]);
  }

  /** Running workers have no late task. */
  ghost predicate Sound(s: State) {
    PoolServed(s) && (!s.stopped ==> NoLate(s))
  }

  lemma PutServed(s: State, k: nat)
    requires Inv(s) && PoolServed(s) && k < |s.clients| && s.clients[k].Checked?
    ensures PoolServed(Next(s, Put(k)))
  {
    var s' := Next(s, Put(k));
    if s'.pool == [] && Awaited(s') {
      var w :| 0 <= w < |s'.workers| && AtPool(s'.workers[w]);
      assert AtPool(s.workers[w]);
      var v :| 0 <= v < |s.workers| && Cares(s, v);
      assert Cares(s', v);
    }
  }

  lemma SubmitServed(s: State, w: nat, r: Request)
    requires PoolServed(s) && w < |s.workers| && s.workers[w].pc.Running?
    ensures PoolServed(At(s, w, Submitting(s.workers[w].pc.coro, r)))
  {
    assert Cares(At(s, w, Submitting(s.workers[w].pc.coro, r)), w);
  }

  lemma QuietServed(s: State, s': State)
    requires PoolServed(s) && s'.workers == s.workers && s'.pool == s.pool && s'.queues == s.queues
    ensures PoolServed(s')
  {
    if s'.pool == [] && Awaited(s') {
      var w :| 0 <= w < |s'.workers| && AtPool(s'.workers[w]);
      assert AtPool(s.workers[w]);
      var v :| 0 <= v < |s.workers| && Cares(s, v);
      assert Cares(s', v);
    }
  }

  lemma NextServed(s: State, mv: Move)
    requires Inv(s) && PoolServed(s)
    ensures PoolServed(Next(s, mv))
  {
    match mv
    case Step(w) =>
      if w < |s.workers| {
        StepServed(s, w);
      }
    case Submit(w, r) =>
      if w < |s.workers| && s.workers[w].pc.Running? && !s.stopped {
        SubmitServed(s, w, r);
      }
    case Put(k) =>
      if k < |s.clients| && s.clients[k].Checked? {
        PutServed(s, k);
      }
    case Check(k, r) => QuietServed(s, Next(s, mv));
    case Start =>
      if !(s.stopped && AllExited(s)) {
        QuietServed(s, Next(s, mv));
      }
    case Stop => QuietServed(s, Next(s, mv));
  }

  lemma NextInTime(s: State, mv: Move)
    requires !s.stopped ==> NoLate(s)
    ensures !Next(s, mv).stopped ==> NoLate(Next(s, mv))
  {
    if !s.stopped {
      NextNoLate(s, mv);
    } else if mv.Step? && mv.w < |s.workers| {
      StepFrame(s, mv.w);
    }
  }

  lemma {:induction false} RunSound(s: State, moves: seq<Move>)
    requires Inv(s) && Sound(s)
    ensures Sound(Run(s, moves))
    decreases |moves|
  {
    if moves != [] {
      NextInv(s, moves[0]);
      NextServed(s, moves[0]);
      NextInTime(s, moves[0]);
      RunSound(Next(s, moves[0]), moves[1..]);
    }
  }

  lemma ReachableSound(s: State)
    requires Reachable(s)
    ensures Sound(s)
  {
    var workers: nat, clients: nat, moves :| workers > 0 && s == Run(Init(workers, clients), moves);
    InitInv(workers, clients);
    RunSound(Init(workers, clients), moves);
  }

  // ----- A drain that ends -----

  /** The worker can leave `run` if nobody interferes. */
  ghost predicate CanLeave(s: State, w: nat) {
    && w < |s.workers| && s.workers[w].pc != Exited && !s.workers[w].pc.NullCoroutine?
    && (AtPool(s.workers[w]) ==> s.pool != [])
  }

  /** Only worker `w` has moved, and after `stop`. */
  ghost predicate OnlyMoved(s: State, s': State, w: nat) {
    && Reachable(s') && s'.stopped && s'.clients == s.clients
    && w < |s.workers| == |s'.workers|
    && forall v :: 0 <= v < |s.workers| && v != w ==> s'.workers[v] == s.workers[v]
  }

  lemma StillCanLeave(s: State, w: nat)
    requires CanLeave(s, w)
    ensures var s' := WorkerStep(s, w); w < |s'.workers| && (s'.workers[w].pc == Exited || CanLeave(s', w))
  {
    StepFrame(s, w);
    TakesOne(s, w);
    if s.workers[w].pc.SeePool? {
      assert AtPool(WorkerStep(s, w).workers[w]) ==> s.pool != [] && WorkerStep(s, w).pool == s.pool;
    } else {
      NotToPool(s, w);
    }
  }

  lemma NotToPool(s: State, w: nat)
    requires w < |s.workers| && !s.workers[w].pc.SeePool?
    ensures !AtPool(WorkerStep(s, w).workers[w])
  {
    var pc, s' := s.workers[w].pc, WorkerStep(s, w);
    if pc.TakeFrom? {
      assert s' == Take(s, w, pc.q);
    } else if pc.TakePool? {
      assert s' == Recycle(s, w, pc.job);
    } else if pc.Resume? {
      assert s' == Begin(s, w, pc.coro);
    } else if pc.Running? {
      assert s' == End(s, w, pc.coro);
    } else if pc.Returned? {
      assert s' == GiveBack(s, w, pc.coro);
    }
  }

  /** Alone, a worker leaves. */
  lemma {:induction false} LeavesAlone(s: State, w: nat) returns (moves: seq<Move>)
    requires Reachable(s) && s.stopped && CanLeave(s, w)
    ensures Start !in moves && OnlyMoved(s, Run(s, moves), w)
    ensures Run(s, moves).workers[w].pc == Exited && Measure(Run(s, moves)) < Measure(s)
    decreases Measure(s)
  {
    var s' := Next(s, Step(w));
    ReachableNext(s, Step(w));
    ReachableInv(s);
    DrainGoesOn(s, w);
    StepMeasure(s, w);
    StepFrame(s, w);
    StillCanLeave(s, w);
    if s'.workers[w].pc == Exited {
      moves := [Step(w)];
      assert Run(s, moves) == Run(s', []);
    } else {
      var rest := LeavesAlone(s', w);
      moves := [Step(w)] + rest;
      assert moves[1..] == rest;
    }
  }

  /** Some worker can leave: one that is not at the pool, or, when all are, any. */
  lemma SomeoneCanLeave(s: State) returns (w: nat)
    requires Reachable(s) && !Hits(s) && !AllExited(s)
    ensures CanLeave(s, w)
  {
    ReachableSound(s);
    w :| w < |s.workers| && s.workers[w].pc != Exited;
    if AtPool(s.workers[w]) && s.pool == [] {
      w :| w < |s.workers| && Cares(s, w);
    }
  }

  /** From every state after `stop` in which no worker dereferenced null, all workers can leave. */
  lemma {:induction false} DrainCanEnd(s: State) returns (moves: seq<Move>)
    requires Reachable(s) && s.stopped && !Hits(s)
    ensures Start !in moves && AllExited(Run(s, moves)) && Reachable(Run(s, moves))
    ensures Run(s, moves).stopped && Run(s, moves).clients == s.clients
    decreases Measure(s)
  {
    if AllExited(s) {
      moves := [];
    } else {
      var w := SomeoneCanLeave(s);
      var first := LeavesAlone(s, w);
      var s' := Run(s, first);
      assert !Hits(s') by {
        assert forall v :: 0 <= v < |s'.workers| && s'.workers[v].pc.NullCoroutine? ==> s.workers[v].pc.NullCoroutine?;
      }
      var rest := DrainCanEnd(s');
      moves := first + rest;
      RunAppend(s, first, rest);
    }
  }

  lemma {:induction false} RunAppend(s: State, first: seq<Move>, second: seq<Move>)
    ensures Run(s, first + second) == Run(Run(s, first), second)
    decreases |first|
  {
    if first == [] {
      assert first + second == second;
    } else {
      assert (first + second)[1..] == first[1..] + second;
      RunAppend(Next(s, first[0]), first[1..], second);
    }
  }

  // ----- The exact condition -----

  /** No submission is between its check and its enqueue. */
  ghost predicate NoneUnderWay(s: State) {
    forall k :: 0 <= k < |s.clients| ==> s.clients[k] == Ready
  }

  /** A worker that dereferenced null never leaves. */
  lemma {:induction false} NullStays(s: State, moves: seq<Move>)
    requires Hits(s)
    ensures Hits(Run(s, moves))
    decreases |moves|
  {
    if moves != [] {
      var w :| 0 <= w < |s.workers| && s.workers[w].pc.NullCoroutine?;
      var s', mv := Next(s, moves[0]), moves[0];
      if mv.Step? && mv.w < |s.workers| {
        StepFrame(s, mv.w);
      }
      assert s'.workers[w].pc.NullCoroutine?;
      NullStays(s', moves[1..]);
    }
  }

  /** After `stop` no new submission passes its check. */
  lemma {:induction false} NoneArrives(s: State, moves: seq<Move>)
    requires s.stopped && NoneUnderWay(s) && NoLate(s) && Start !in moves
    ensures NoLate(Run(s, moves))
    decreases |moves|
  {
    if moves != [] {
      var mv := moves[0];
      assert mv in moves;
      NextNoLate(s, mv);
      if mv.Step? && mv.w < |s.workers| {
        StepFrame(s, mv.w);
      }
      NoneArrives(Next(s, mv), moves[1..]);
    }
  }

  /** When a submission is under way, it can be enqueued after the last worker has left. */
  lemma ArrivesTooLate(s: State, k: nat) returns (moves: seq<Move>)
    requires Reachable(s) && s.stopped && !Hits(s) && k < |s.clients| && s.clients[k].Checked?
    ensures Start !in moves && AllExited(Run(s, moves)) && !QueuesEmpty(Run(s, moves))
  {
    var drain := DrainCanEnd(s);
    moves := drain + [Put(k)];
    RunNext(s, drain, Put(k));
    EnqueuedBy(Run(s, drain), k);
  }

  lemma EnqueuedBy(s: State, k: nat)
    requires Reachable(s) && k < |s.clients| && s.clients[k].Checked?
    ensures var s' := Next(s, Put(k)); !QueuesEmpty(s') && s'.workers == s.workers
  {
    ReachableInv(s);
    var r := s.clients[k].request;
    var q := if r.target < |s.workers| then r.target else Global(s);
    assert Next(s, Put(k)).queues[q] != [];
  }

  /** Every drain from `s` on leaves the queues empty. */
  ghost predicate DrainsEmpty(s: State) {
    forall moves :: Start !in moves && AllExited(Run(s, moves)) ==> QueuesEmpty(Run(s, moves))
  }

  /**
   * `stop` is sure to leave the queues empty exactly when no submission from outside is between its check and its
   * enqueue at that moment (or a worker dereferenced null, so that `stop` never returns).
   */
  lemma StopDrainsIff(s: State)
    requires Reachable(s) && !s.stopped
    ensures DrainsEmpty(Next(s, Stop)) <==> NoneUnderWay(s) || Hits(s)
  {
    var t := Next(s, Stop);
    ReachableNext(s, Stop);
    ReachableSound(s);
    if NoneUnderWay(s) {
      forall moves | Start !in moves && AllExited(Run(t, moves))
        ensures QueuesEmpty(Run(t, moves))
      {
        NoneArrives(t, moves);
        RunReachable(t, moves);
        DrainComplete(Run(t, moves));
      }
    } else if Hits(s) {
      forall moves
        ensures !AllExited(Run(t, moves))
      {
        NullStays(t, moves);
      }
    } else {
      var k :| 0 <= k < |s.clients| && s.clients[k] != Ready;
      var moves := ArrivesTooLate(t, k);
    }
  }
}

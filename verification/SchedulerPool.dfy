/** The coroutine pool: how many coroutines are made, and when taking an idle one goes wrong. */
module SchedulerPool {
  import opened Sums
  import opened SchedulerMachine
  import opened SchedulerInvariant

  // ----- The steal loop -----

  /** The steal loop comes to every other worker's queue exactly once, and only once to its own, which it skips. */
  lemma StealVisitsEachOnce(s: State, w: nat, q: nat)
    requires w < |s.workers| && q < |s.workers|
    ensures exists i :: 0 <= i < |s.workers| && StealIndex(s, w, i) == q
                        && forall k :: 0 <= k < |s.workers| && StealIndex(s, w, k) == q ==> k == i
  {
    var i := StealPosition(s, w, q);
    StealPositionIs(s, w, q, 0);
    StealPositionIs(s, w, q, i);
    forall k | 0 <= k < |s.workers| && StealIndex(s, w, k) == q
      ensures k == i
    {
      StealPositionIs(s, w, q, k);
    }
  }

  // ----- How many coroutines are made -----

  const HAS_CORO: Job -> nat := (job: Job) => if job.carrier.On? then 1 else 0

  /** The tasks that were started and are not finished. */
  ghost function Started(s: State): nat {
    Sum(s.jobs, HAS_CORO)
  }

  ghost predicate PoolCounts(s: State) {
    |s.coros| == Started(s) + |s.pool|
  }

  ghost predicate CallbacksOnly(s: State) {
    && (forall w :: 0 <= w < |s.workers| && s.workers[w].pc.Submitting? ==> !s.workers[w].pc.request.asCoroutine)
    && (forall k :: 0 <= k < |s.clients| && s.clients[k].Checked? ==> !s.clients[k].request.asCoroutine)
  }

  predicate CallbackMove(mv: Move) {
    (mv.Submit? || mv.Check?) ==> !mv.request.asCoroutine
  }

  /** Pool, coroutines and the tasks' coroutines stay as they are. */
  ghost predicate SamePool(s: State, s': State) {
    && s'.pool == s.pool && |s'.coros| == |s.coros| && |s'.jobs| == |s.jobs|
    && forall j :: 0 <= j < |s.jobs| ==> HAS_CORO(s'.jobs[j]) == HAS_CORO(s.jobs[j])
  }

  lemma SamePoolStep(s: State, w: nat)
    requires w < |s.workers|
    requires var pc := s.workers[w].pc; !pc.SeePool? && !pc.TakePool? && !pc.Returned? && !pc.Submitting?
    ensures SamePool(s, WorkerStep(s, w))
  {
    var pc, s' := s.workers[w].pc, WorkerStep(s, w);
    if pc.TakeFrom? {
      assert s' == Take(s, w, pc.q);
    } else if pc.Resume? {
      assert s' == Begin(s, w, pc.coro);
    } else if pc.Running? {
      assert s' == End(s, w, pc.coro);
    }
  }

  lemma CreateCounts(s: State, w: nat, j: nat)
    requires Inv(s) && PoolCounts(s) && w < |s.workers| && s.workers[w].pc == SeePool(j) && s.pool == []
    ensures var s' := Create(s, w, j); PoolCounts(s') && |s'.coros| == Started(s')
  {
    var s' := Create(s, w, j);
    assert PcOk(s, w, s.workers[w].pc);
    SumUpdate(s.jobs, HAS_CORO, j, s'.jobs[j]);
  }

  lemma RecycleCounts(s: State, w: nat, j: nat)
    requires Inv(s) && PoolCounts(s) && w < |s.workers| && s.workers[w].pc == TakePool(j)
    ensures var s' := Recycle(s, w, j); PoolCounts(s') && |s'.coros| == |s.coros|
  {
    var s' := Recycle(s, w, j);
    assert PcOk(s, w, s.workers[w].pc);
    if s.pool != [] {
      assert Ended(s.coros[s.pool[0]].status);
      SumUpdate(s.jobs, HAS_CORO, j, s'.jobs[j]);
    }
  }

  lemma GiveBackCounts(s: State, w: nat, c: nat)
    requires Inv(s) && PoolCounts(s) && w < |s.workers| && s.workers[w].pc == Returned(c)
    ensures var s' := GiveBack(s, w, c); PoolCounts(s') && |s'.coros| == |s.coros|
  {
    var s' := GiveBack(s, w, c);
    assert PcOk(s, w, s.workers[w].pc);
    var j := s.coros[c].job;
    SumUpdate(s.jobs, HAS_CORO, j, s'.jobs[j]);
  }

  lemma AcceptCounts(s: State, r: Request, late: bool)
    requires PoolCounts(s)
    ensures PoolCounts(Accept(s, r, late))
    ensures !r.asCoroutine ==> Accept(s, r, late).coros == s.coros
  {
    SumAppend(s.jobs, HAS_CORO, Accept(s, r, late).jobs[|s.jobs|]);
  }

  function Max(a: nat, b: nat): nat { if a < b then b else a }

  lemma WorkerCounts(s: State, w: nat)
    requires Inv(s) && PoolCounts(s) && w < |s.workers|
    ensures var s' := WorkerStep(s, w);
            PoolCounts(s') && (CallbacksOnly(s) ==> |s'.coros| == Max(|s.coros|, Started(s')))
  {
    var pc, s' := s.workers[w].pc, WorkerStep(s, w);
    if pc.SeePool? && s.pool == [] {
      CreateCounts(s, w, pc.job);
    } else if pc.TakePool? {
      RecycleCounts(s, w, pc.job);
    } else if pc.Returned? {
      GiveBackCounts(s, w, pc.coro);
    } else if pc.Submitting? {
      AcceptCounts(s, pc.request, false);
    } else if !pc.SeePool? {
      SamePoolStep(s, w);
      SumCongruent(s.jobs, s'.jobs, HAS_CORO);
    }
  }

  lemma MoveCounts(s: State, mv: Move)
    requires Inv(s) && PoolCounts(s)
    ensures var s' := Next(s, mv);
            PoolCounts(s') && (CallbacksOnly(s) ==> |s'.coros| == Max(|s.coros|, Started(s')))
  {
    if mv.Step? && mv.w < |s.workers| {
      WorkerCounts(s, mv.w);
    } else if mv.Put? && mv.k < |s.clients| && s.clients[mv.k].Checked? {
      AcceptCounts(s.(clients := s.clients[mv.k := Ready]), s.clients[mv.k].request, s.stopped);
    } else if mv.Start? {
      SumCongruent(s.jobs, InTime(s.jobs), HAS_CORO);
    }
  }

  lemma StillCallbacks(s: State, mv: Move)
    requires CallbacksOnly(s) && CallbackMove(mv)
    ensures CallbacksOnly(Next(s, mv))
  {
    if mv.Step? && mv.w < |s.workers| {
      StepFrame(s, mv.w);
    }
  }

  /** The most tasks that were started and unfinished at the same time during a run. */
  ghost function Peak(s: State, moves: seq<Move>): nat
    decreases |moves|
  {
    if moves == [] then Started(s) else Max(Started(s), Peak(Next(s, moves[0]), moves[1..]))
  }

  lemma {:induction false} CorosAreThePeak(s: State, moves: seq<Move>)
    requires Inv(s) && PoolCounts(s) && CallbacksOnly(s)
    requires forall k :: 0 <= k < |moves| ==> CallbackMove(moves[k])
    ensures |Run(s, moves).coros| == Max(|s.coros|, Peak(s, moves))
    decreases |moves|
  {
    if moves != [] {
      NextInv(s, moves[0]);
      MoveCounts(s, moves[0]);
      StillCallbacks(s, moves[0]);
      CorosAreThePeak(Next(s, moves[0]), moves[1..]);
    }
  }

  /** When only callbacks are submitted, as many coroutines are ever made
      as there were started and unfinished tasks at the busiest moment. */
  lemma HighWaterMark(workers: nat, clients: nat, moves: seq<Move>)
    requires workers > 0 && forall k :: 0 <= k < |moves| ==> CallbackMove(moves[k])
    ensures |Run(Init(workers, clients), moves).coros| == Peak(Init(workers, clients), moves)
  {
    InitInv(workers, clients);
    CorosAreThePeak(Init(workers, clients), moves);
  }

  // ----- The look at the pool and the take are not one step -----

  ghost predicate NoNull(s: State) {
    && |s.workers| == 1
    && !s.workers[0].pc.NullCoroutine?
    && (s.workers[0].pc.TakePool? ==> s.pool != [])
  }

  lemma NoNullStep(s: State, mv: Move)
    requires NoNull(s)
    ensures NoNull(Next(s, mv))
  {
    if mv.Step? && mv.w < |s.workers| {
      NoNullWorker(s);
    }
  }

  lemma NoNullWorker(s: State)
    requires NoNull(s)
    ensures NoNull(WorkerStep(s, 0))
  {
    var pc, s' := s.workers[0].pc, WorkerStep(s, 0);
    if pc.TakePool? {
      assert s' == Recycle(s, 0, pc.job);
    } else if pc.SeePool? {
      assert s' == if s.pool == [] then Create(s, 0, pc.job) else At(s, 0, TakePool(pc.job));
    } else if pc.TakeFrom? {
      assert s' == Take(s, 0, pc.q);
    } else if pc.Resume? {
      assert s' == Begin(s, 0, pc.coro);
    } else if pc.Running? {
      assert s' == End(s, 0, pc.coro);
    } else if pc.Returned? {
      assert s' == GiveBack(s, 0, pc.coro);
    }
  }

  lemma {:induction false} NoNullRun(s: State, moves: seq<Move>)
    requires NoNull(s)
    ensures NoNull(Run(s, moves))
    decreases |moves|
  {
    if moves != [] {
      NoNullStep(s, moves[0]);
      NoNullRun(Next(s, moves[0]), moves[1..]);
    }
  }

  ghost predicate Hits(s: State) {
    exists w :: 0 <= w < |s.workers| && s.workers[w].pc.NullCoroutine?
  }

  /** Nothing but a submission for worker `w` has happened since `w` was at its loop's top. */
  ghost predicate Awaits(s: State, w: nat) {
    && Reachable(s) && !s.stopped && w < |s.workers|
    && s.workers[w] == Worker(false, LoopTop)
    && |s.queues| == |s.workers| + 1 && s.queues[w] == []
    && |s.clients| > 0 && s.clients[0] == Ready
  }

  const ONE_SLICE := Program(0, false)

  lemma SubmitFor(s: State, w: nat) returns (s': State)
    requires Awaits(s, w)
    ensures Reachable(s') && s' == s.(queues := s.queues[w := [Callback(|s.jobs|)]],
                                      jobs := s.jobs + [Job(ONE_SLICE, Queued(w), NoCoro, 0, false)])
  {
    var r := Request(ONE_SLICE, false, w);
    ReachableNext(s, Check(0, r));
    var s1 := Next(s, Check(0, r));
    ReachableNext(s1, Put(0));
    s' := Next(s1, Put(0));
    assert s1.clients[0 := Ready] == s.clients;
    assert s1.queues[w] + [Callback(|s.jobs|)] == [Callback(|s.jobs|)];
  }

  /** One callback submitted for worker `w`, which dequeues it. */
  lemma Fetch(s: State, w: nat) returns (s': State)
    requires Awaits(s, w)
    ensures Reachable(s')
    ensures s' == s.(workers := s.workers[w := Worker(false, SeePool(|s.jobs|))],
                     jobs := s.jobs + [Job(ONE_SLICE, Held(w), NoCoro, 0, false)])
  {
    var s1 := SubmitFor(s, w);
    ReachableNext(s1, Step(w));
    var s2 := Next(s1, Step(w));
    assert s2 == s1.(workers := s.workers[w := Worker(false, SeeOwn)]);
    ReachableNext(s2, Step(w));
    var s3 := Next(s2, Step(w));
    assert s3 == s1.(workers := s.workers[w := Worker(false, TakeFrom(w))]);
    ReachableNext(s3, Step(w));
    s' := Next(s3, Step(w));
    assert s3.queues[w][1..] == s.queues[w];
    assert s3.queues[w := s3.queues[w][1..]] == s.queues;
    assert s3.jobs[|s.jobs| := s3.jobs[|s.jobs|].(place := Held(w), late := false)]
           == s.jobs + [Job(ONE_SLICE, Held(w), NoCoro, 0, false)];
  }

  /** The first callback leaves its coroutine in the pool. */
  lemma FirstRound(workers: nat) returns (s: State)
    requires workers >= 2
    ensures Reachable(s) && |s.workers| == workers && !s.stopped && |s.jobs| == 1 && s.pool == [0]
    ensures s.coros == [Coro(DEAD, 0, 1)]
    ensures forall w :: 0 <= w < workers ==> Awaits(s, w)
  {
    var s0 := Init(workers, 1);
    assert s0 == Run(s0, []);
    assert Reachable(s0);
    ReachableNext(s0, Start);
    var s1 := Next(s0, Start);
    var s2 := Fetch(s1, 0);
    s := RunFirst(s2);
    assert s.workers == s1.workers;
  }

  /** Worker 0 makes the first coroutine, runs its one slice and puts it into the pool. */
  lemma RunFirst(s: State) returns (s': State)
    requires Reachable(s) && |s.workers| > 0 && s.workers[0] == Worker(false, SeePool(0))
    requires s.pool == [] && s.coros == [] && s.jobs == [Job(ONE_SLICE, Held(0), NoCoro, 0, false)]
    ensures Reachable(s') && s'.pool == [0] && s'.coros == [Coro(DEAD, 0, 1)] && |s'.jobs| == 1
    ensures s'.workers == s.workers[0 := Worker(false, LoopTop)]
    ensures s'.queues == s.queues && s'.clients == s.clients && s'.stopped == s.stopped
  {
    ReachableNext(s, Step(0));
    var s3 := Next(s, Step(0));
    assert s3.coros == [Coro(RADY, 0, 0)] && s3.workers == s.workers[0 := Worker(false, Resume(0))];
    ReachableNext(s3, Step(0));
    var s4 := Next(s3, Step(0));
    assert s4.coros == [Coro(RUNN, 0, 0)] && s4.workers == s.workers[0 := Worker(false, Running(0))];
    assert s4.jobs[0].program == ONE_SLICE;
    ReachableNext(s4, Step(0));
    s' := GiveFirst(Next(s4, Step(0)));
  }

  lemma GiveFirst(s: State) returns (s': State)
    requires Reachable(s) && |s.workers| > 0 && s.workers[0] == Worker(false, Returned(0))
    requires s.pool == [] && s.coros == [Coro(DEAD, 0, 1)] && |s.jobs| == 1
    ensures Reachable(s') && s'.pool == [0] && s'.coros == s.coros && |s'.jobs| == 1
    ensures s'.workers == s.workers[0 := Worker(false, LoopTop)]
    ensures s'.queues == s.queues && s'.clients == s.clients && s'.stopped == s.stopped
  {
    ReachableNext(s, Step(0));
    s' := Next(s, Step(0));
    assert s'.pool == [] + [0] == [0];
  }

  /** Two workers see the one idle coroutine; the second to dequeue gets null. */
  lemma TwoWorkersHit(workers: nat)
    requires workers >= 2
    ensures exists s :: Reachable(s) && |s.workers| == workers && Hits(s)
  {
    var s0 := FirstRound(workers);
    var s1 := Fetch(s0, 0);
    ReachableNext(s1, Step(0));
    var s2 := Next(s1, Step(0));
    assert s2.workers == s0.workers[0 := Worker(false, TakePool(1))];
    assert Awaits(s0, 1) && Awaits(s2, 1);
    var s3 := Fetch(s2, 1);
    ReachableNext(s3, Step(1));
    var s4 := Next(s3, Step(1));
    assert s4.workers[0] == Worker(false, TakePool(1)) && s4.workers[1] == Worker(false, TakePool(2));
    ReachableNext(s4, Step(0));
    var s5 := Next(s4, Step(0));
    assert s5.pool == [] && s5.workers[1] == Worker(false, TakePool(2));
    ReachableNext(s5, Step(1));
    var s6 := Next(s5, Step(1));
    assert s6.workers[1].pc == NullCoroutine(2);
    assert Hits(s6);
  }

  /** `getIdleCoroutine` can dereference a null coroutine exactly when there are at least two workers: with one
      worker nobody empties the pool between its look at the pool and its dequeue. */
  lemma NullCoroutineNeedsTwoWorkers(workers: nat)
    requires workers > 0
    ensures (exists s :: Reachable(s) && |s.workers| == workers && Hits(s)) <==> workers >= 2
  {
    if workers >= 2 {
      TwoWorkersHit(workers);
    } else {
      forall s | Reachable(s) && |s.workers| == workers
        ensures !Hits(s)
      {
        var n: nat, clients: nat, moves :| n > 0 && s == Run(Init(n, clients), moves);
        WorkerCount(Init(n, clients), moves);
        NoNullRun(Init(n, clients), moves);
      }
    }
  }

  lemma {:induction false} WorkerCount(s: State, moves: seq<Move>)
    ensures |Run(s, moves).workers| == |s.workers|
    decreases |moves|
  {
    if moves != [] {
      if moves[0].Step? && moves[0].w < |s.workers| {
        StepFrame(s, moves[0].w);
      }
      WorkerCount(Next(s, moves[0]), moves[1..]);
    }
  }
}

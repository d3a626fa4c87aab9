/** The class `Scheduler`, run by one thread while the others interfere.

    Between any two of a method's shared accesses the other threads make any finite number of moves, given
    by a schedule. Each method is proved to perform the run of the transition system that consists of these turns
    and its own moves, so everything proved about runs holds of it. */
module Scheduler {
  import opened SchedulerMachine
  import opened SchedulerDrain
  import opened SchedulerInvariant
  import opened SchedulerTheorems
  import opened SchedulerPool

  /** What the others do before each of a worker's accesses. After the last turn the controller
      stops the scheduler, if it does so at all, and the worker is alone. */
  datatype Schedule = Schedule(turns: seq<seq<Move>>, stops: bool)

  function TurnAt(schedule: Schedule, pos: nat): seq<Move> {
    if pos < |schedule.turns| then schedule.turns[pos] else if schedule.stops then [Stop] else []
  }

  predicate IsBy(me: nat, mv: Move) {
    match mv
    case Step(w) => w == me
    case Submit(w, _) => w == me
    case _ => false
  }

  ghost predicate NotBy(me: nat, moves: seq<Move>) {
    forall i :: 0 <= i < |moves| ==> !IsBy(me, moves[i])
  }

  ghost predicate ByOthers(me: nat, schedule: Schedule) {
    forall p :: 0 <= p < |schedule.turns| ==> NotBy(me, schedule.turns[p])
  }

  lemma TurnByOthers(me: nat, schedule: Schedule, pos: nat)
    requires ByOthers(me, schedule)
    ensures NotBy(me, TurnAt(schedule, pos))
  {
  }

  // ----- What a worker has done -----

  /** A worker's moves since a state, each of them after a turn of the others. */
  datatype Past = From(start: State) | Then(past: Past, move: Move)

  function Origin(p: Past): State {
    match p case From(s) => s case Then(q, _) => Origin(q)
  }

  /** The index of the others' next turn. */
  function Turn(p: Past): nat {
    match p case From(_) => 0 case Then(q, _) => Turn(q) + 1
  }

  function Now(schedule: Schedule, p: Past): State
    decreases p, 1
  {
    match p case From(s) => s case Then(_, _) => AfterMove(schedule, p)
  }

  function AfterMove(schedule: Schedule, p: Past): State
    requires p.Then?
    decreases p, 0
  {
    Next(Run(Now(schedule, p.past), TurnAt(schedule, Turn(p.past))), p.move)
  }

  lemma NowThen(schedule: Schedule, p: Past, mv: Move)
    ensures Now(schedule, Then(p, mv)) == Next(Run(Now(schedule, p), TurnAt(schedule, Turn(p))), mv)
  {
  }

  /** The moves of all threads, in order. */
  function Moves(schedule: Schedule, p: Past): seq<Move> {
    match p
    case From(_) => []
    case Then(q, mv) => Moves(schedule, q) + TurnAt(schedule, Turn(q)) + [mv]
  }

  lemma {:induction false} NowIsRun(schedule: Schedule, p: Past)
    ensures Now(schedule, p) == Run(Origin(p), Moves(schedule, p))
  {
    match p
    case From(_) =>
    case Then(q, mv) =>
      NowThen(schedule, q, mv);
      NowIsRun(schedule, q);
      RunAppend(Origin(p), Moves(schedule, q), TurnAt(schedule, Turn(q)));
      RunNext(Origin(p), Moves(schedule, q) + TurnAt(schedule, Turn(q)), mv);
  }

  /** The requests that the worker submitted. */
  function Submitted(p: Past): seq<Request> {
    match p
    case From(_) => []
    case Then(q, mv) => if mv.Submit? then Submitted(q) + [mv.request] else Submitted(q)
  }

  /** The slices that the worker began: what its own moves added to the trace. */
  function Begun(schedule: Schedule, p: Past): seq<Slice>
    decreases p, 1
  {
    match p case From(_) => [] case Then(_, _) => BegunAfterMove(schedule, p)
  }

  function BegunAfterMove(schedule: Schedule, p: Past): seq<Slice>
    requires p.Then?
    decreases p, 0
  {
    var s := Run(Now(schedule, p.past), TurnAt(schedule, Turn(p.past)));
    Begun(schedule, p.past) + Added(s.trace, Now(schedule, p).trace)
  }

  function Added(before: seq<Slice>, after: seq<Slice>): seq<Slice> {
    if |before| <= |after| then after[|before|..] else []
  }

  lemma BegunThen(schedule: Schedule, p: Past, mv: Move)
    ensures Begun(schedule, Then(p, mv)) ==
      Begun(schedule, p)
      + Added(Run(Now(schedule, p), TurnAt(schedule, Turn(p))).trace, Now(schedule, Then(p, mv)).trace)
  {
  }

  predicate Own(me: nat, p: Past) {
    match p case From(_) => true case Then(q, mv) => IsBy(me, mv) && Own(me, q)
  }

  /** The world is what the worker's past and the others' turns have made of it. */
  ghost predicate Tracks(schedule: Schedule, p: Past, w: State, me: nat) {
    w == Now(schedule, p) && ByOthers(me, schedule) && Own(me, p)
  }

  /** The others have had all their turns. */
  predicate Alone(schedule: Schedule, p: Past) { Turn(p) >= |schedule.turns| }

  function TurnsLeft(schedule: Schedule, p: Past): nat {
    if Turn(p) < |schedule.turns| then |schedule.turns| - Turn(p) else 0
  }

  /** What the callbacks of these slices ask `execute` for, in order. */
  function AllCalls(calls: Slice -> seq<Request>, slices: seq<Slice>): seq<Request> {
    if slices == [] then [] else AllCalls(calls, slices[..|slices| - 1]) + calls(slices[|slices| - 1])
  }

  /** The worker has submitted what the slices that it began ask for. */
  ghost predicate Serves(calls: Slice -> seq<Request>, schedule: Schedule, p: Past) {
    Submitted(p) == AllCalls(calls, Begun(schedule, p))
  }

  /** The worker is inside `run`. */
  ghost predicate Live(s: State, me: nat) {
    Reachable(s) && me < |s.workers| && s.workers[me].pc != Exited
  }

  // ----- What the others leave alone -----

  ghost predicate NotByClient(k: nat, moves: seq<Move>) {
    forall i :: 0 <= i < |moves| ==> !(moves[i].Check? && moves[i].k == k) && !(moves[i].Put? && moves[i].k == k)
  }

  lemma {:induction false} ClientFrame(s: State, k: nat, moves: seq<Move>)
    requires Reachable(s) && k < |s.clients| && NotByClient(k, moves)
    ensures var s' := Run(s, moves); Reachable(s') && k < |s'.clients| && s'.clients[k] == s.clients[k]
    decreases |moves|
  {
    if moves != [] {
      ReachableNext(s, moves[0]);
      if moves[0].Step? && moves[0].w < |s.workers| {
        StepFrame(s, moves[0].w);
      }
      ClientFrame(Next(s, moves[0]), k, moves[1..]);
    }
  }

  lemma OneOther(s: State, me: nat, mv: Move)
    requires Live(s, me) && !IsBy(me, mv)
    ensures var s' := Next(s, mv);
            Live(s', me) && |s'.workers| == |s.workers| && s'.workers[me] == s.workers[me] && (s.stopped ==> s'.stopped)
  {
    ReachableNext(s, mv);
    if mv.Step? && mv.w < |s.workers| {
      StepFrame(s, mv.w);
    }
  }

  lemma {:induction false} OthersFrame(s: State, me: nat, moves: seq<Move>)
    requires Live(s, me) && NotBy(me, moves)
    ensures var s' := Run(s, moves);
            Live(s', me) && |s'.workers| == |s.workers| && s'.workers[me] == s.workers[me] && (s.stopped ==> s'.stopped)
    decreases |moves|
  {
    if moves != [] {
      OneOther(s, me, moves[0]);
      OthersFrame(Next(s, moves[0]), me, moves[1..]);
    }
  }

  /** A move of another worker leaves the coroutine that `me` holds alone. */
  lemma OneOtherKeeps(s: State, me: nat, c: nat, mv: Move)
    requires Live(s, me) && s.workers[me].pc == Resume(c) && !IsBy(me, mv)
    ensures c < |s.coros| <= |Next(s, mv).coros| && Next(s, mv).coros[c] == s.coros[c]
  {
    ReachableInv(s);
    assert CarriedAt(s, c, Held(me)) by {
      assert PcOk(s, me, s.workers[me].pc);
    }
    if mv.Step? && mv.w < |s.workers| {
      assert PcOk(s, mv.w, s.workers[mv.w].pc);
      StepKeeps(s, me, c, mv.w);
    }
  }

  lemma StepKeeps(s: State, me: nat, c: nat, v: nat)
    requires CarriedAt(s, c, Held(me)) && v < |s.workers| && v != me && PcOk(s, v, s.workers[v].pc)
    ensures |s.coros| <= |WorkerStep(s, v).coros| && WorkerStep(s, v).coros[c] == s.coros[c]
  {
    match s.workers[v].pc
    case TakePool(j) => RecycleKeeps(s, c, v, j);
    case Resume(d) => assert d != c;
    case Running(d) => assert d != c;
    case Submitting(_, r) => AcceptKeeps(s, c, r);
    case _ =>
  }

  lemma RecycleKeeps(s: State, c: nat, v: nat, j: nat)
    requires c < |s.coros| && c !in s.pool && v < |s.workers|
    ensures |Recycle(s, v, j).coros| == |s.coros| && Recycle(s, v, j).coros[c] == s.coros[c]
  {
  }

  lemma AcceptKeeps(s: State, c: nat, r: Request)
    requires c < |s.coros|
    ensures |s.coros| <= |Accept(s, r, false).coros| && Accept(s, r, false).coros[c] == s.coros[c]
  {
  }

  lemma {:induction false} OthersKeep(s: State, me: nat, c: nat, moves: seq<Move>)
    requires Live(s, me) && s.workers[me].pc == Resume(c) && NotBy(me, moves)
    ensures c < |s.coros| <= |Run(s, moves).coros| && Run(s, moves).coros[c] == s.coros[c]
    decreases |moves|
  {
    if moves == [] {
      HandOk(s, me);
    } else {
      OneOther(s, me, moves[0]);
      OneOtherKeeps(s, me, c, moves[0]);
      OthersKeep(Next(s, moves[0]), me, c, moves[1..]);
    }
  }

  /** The worker is alone, except that the controller may stop the scheduler. */
  predicate Quiet(turn: seq<Move>) {
    turn == [] || turn == [Stop]
  }

  lemma QuietRun(s: State, turn: seq<Move>)
    requires Quiet(turn)
    ensures Run(s, turn) == s.(stopped := s.stopped || turn == [Stop])
  {
    if turn == [Stop] {
      assert Run(s, turn) == Run(Next(s, Stop), turn[1..]);
    }
  }

  /** Only these are carried from one access to the next. */
  ghost predicate Goes(s: State, s': State, me: nat) {
    && Reachable(s') && me < |s.workers| == |s'.workers|
    && s'.workers[me].draining == s.workers[me].draining
    && (s.stopped ==> s'.stopped)
  }

  /** From `w` to `w'` the others took their turn and then `me` executed one instruction. */
  ghost predicate Stepped(schedule: Schedule, p: Past, p': Past, w: State, w': State, me: nat) {
    && p' == Then(p, Step(me)) && Tracks(schedule, p', w', me)
    && Reachable(w') && me < |w.workers| == |w'.workers|
    && (w.stopped ==> w'.stopped)
    && Begun(schedule, p') == Grown(Begun(schedule, p), w, w.workers[me].pc)
    && (Alone(schedule, p) && w.stopped && w' != w ==> Measure(w') < Measure(w))
  }

  /** The slices begun, with the one that the instruction begins. */
  function Grown(slices: seq<Slice>, s: State, pc: Pc): seq<Slice> {
    if pc.Resume? then slices + [NextSlice(s, Resumption(pc.coro))] else slices
  }

  lemma OneInstruction(schedule: Schedule, p: Past, w: State, me: nat)
    requires Live(w, me) && Tracks(schedule, p, w, me)
    ensures
      var mid := Run(w, TurnAt(schedule, Turn(p)));
      me < |mid.workers| && Stepped(schedule, p, Then(p, Step(me)), w, WorkerStep(mid, me), me)
  {
    var turn := TurnAt(schedule, Turn(p));
    TurnByOthers(me, schedule, Turn(p));
    OthersFrame(w, me, turn);
    var mid := Run(w, turn);
    ReachableNext(mid, Step(me));
    StepFrame(mid, me);
    NowThen(schedule, p, Step(me));
    BegunThen(schedule, p, Step(me));
    StepBegins(w, me, turn, Begun(schedule, p));
    if Alone(schedule, p) && w.stopped && WorkerStep(mid, me) != w {
      QuietRun(w, turn);
      ReachableInv(w);
      StepMeasure(w, me);
    }
  }

  lemma StepBegins(w: State, me: nat, turn: seq<Move>, slices: seq<Slice>)
    requires Live(w, me) && NotBy(me, turn)
    ensures
      var mid := Run(w, turn);
      me < |mid.workers|
      && slices + Added(mid.trace, WorkerStep(mid, me).trace) == Grown(slices, w, w.workers[me].pc)
  {
    OthersFrame(w, me, turn);
    if w.workers[me].pc.Resume? {
      OthersKeep(w, me, w.workers[me].pc.coro, turn);
    }
    StepAdds(Run(w, turn), me, slices);
  }

  lemma StepAdds(s: State, me: nat, slices: seq<Slice>)
    requires Live(s, me)
    ensures slices + Added(s.trace, WorkerStep(s, me).trace) == Grown(slices, s, s.workers[me].pc)
  {
    HandOk(s, me);
  }

  lemma HandOk(s: State, me: nat)
    requires Live(s, me)
    ensures |s.queues| == |s.workers| + 1 && PcOk(s, me, s.workers[me].pc)
    ensures forall i :: 0 <= i < |s.pool| ==> s.pool[i] < |s.coros| && Ended(s.coros[s.pool[i]].status)
  {
    ReachableInv(s);
  }

  lemma RecycleFields(s: State, me: nat, job: nat)
    requires Live(s, me) && s.workers[me].pc == TakePool(job)
    ensures
      var s', w := Next(s, Step(me)), s.workers[me];
      && s'.queues == s.queues && s'.trace == s.trace && me < |s'.workers|
      && if s.pool == []
         then s'.pool == [] && s'.coros == s.coros && s'.workers[me] == w.(pc := NullCoroutine(job))
         else && s.pool[0] < |s.coros| && s'.pool == s.pool[1..]
              && s'.coros == s.coros[s.pool[0] := Coro(RADY, job, 0)]
              && s'.workers[me] == w.(pc := Resume(s.pool[0]))
  {
    HandOk(s, me);
    assert Next(s, Step(me)) == Recycle(s, me, job);
  }

  lemma BeginFields(s: State, me: nat, c: nat)
    requires Live(s, me) && s.workers[me].pc == Resume(c)
    ensures
      var s' := Next(s, Step(me));
      && s'.queues == s.queues && s'.pool == s.pool && me < |s'.workers|
      && c < |s.coros| && s'.coros == s.coros[c := s.coros[c].(status := RUNN)]
      && s'.workers[me] == s.workers[me].(pc := Running(c))
      && s'.trace == s.trace + [NextSlice(s, Resumption(c))]
  {
    HandOk(s, me);
    assert Next(s, Step(me)) == Begin(s, me, c);
  }

  lemma SliceInHand(s: State, me: nat, c: nat, moves: seq<Move>)
    requires Live(s, me) && s.workers[me].pc == Resume(c) && NotBy(me, moves)
    ensures NextSlice(Run(s, moves), Resumption(c)) == NextSlice(s, Resumption(c))
  {
    OthersKeep(s, me, c, moves);
  }

  datatype Picked = Nothing | Picked(task: Task)

  /** The instruction asks whether queue `q` is empty. */
  predicate LooksAt(n: nat, me: nat, pc: Pc, q: nat) {
    match pc
    case SeeOwn => q == me
    case SeeGlobal => q == n
    case SeeSteal(i) => i < n && q == (me + 1 + i) % n && q != me
    case _ => false
  }

  /** Where the scan goes on when that queue is empty. */
  function LookOn(pc: Pc): Pc {
    match pc
    case SeeOwn => SeeGlobal
    case SeeGlobal => SeeSteal(0)
    case SeeSteal(i) => SeeSteal(i + 1)
    case _ => pc
  }

  /** The worker came from `w` to `w'` without beginning a slice or submitting anything. */
  ghost predicate Went(schedule: Schedule, p: Past, p': Past, w: State, w': State, me: nat) {
    && Tracks(schedule, p', w', me) && Origin(p') == Origin(p) && Turn(p') > Turn(p)
    && Goes(w, w', me)
    && Submitted(p') == Submitted(p) && Begun(schedule, p') == Begun(schedule, p)
  }

  /** The worker came from `w` to `w'`, began no slice, and submitted these requests. */
  ghost predicate Submits(
      schedule: Schedule, p: Past, p': Past, w: State, w': State, me: nat, requests: seq<Request>)
  {
    && Tracks(schedule, p', w', me) && Origin(p') == Origin(p) && Turn(p') >= Turn(p)
    && Goes(w, w', me)
    && Submitted(p') == Submitted(p) + requests && Begun(schedule, p') == Begun(schedule, p)
  }

  /** The worker came from `w` to `w'`, began this slice, and submitted what the callback asks for in it. */
  ghost predicate Ran(
      schedule: Schedule, p: Past, p': Past, w: State, w': State, me: nat, calls: Slice -> seq<Request>, slice: Slice)
  {
    && Tracks(schedule, p', w', me) && Origin(p') == Origin(p) && Turn(p') > Turn(p)
    && Goes(w, w', me)
    && Submitted(p') == Submitted(p) + calls(slice) && Begun(schedule, p') == Begun(schedule, p) + [slice]
  }

  /** The worker has gone on from `p` to `p'`, and has submitted throughout what its slices ask for. */
  ghost predicate Continues(
      schedule: Schedule, p: Past, p': Past, w': State, me: nat, calls: Slice -> seq<Request>)
  {
    && Tracks(schedule, p', w', me) && Origin(p') == Origin(p) && Turn(p') > Turn(p)
    && Reachable(w') && me < |w'.workers| && Serves(calls, schedule, p')
  }

  lemma ServesOneMore(
      schedule: Schedule, p: Past, p': Past, w: State, w': State, me: nat, calls: Slice -> seq<Request>, slice: Slice)
    requires Serves(calls, schedule, p) && Ran(schedule, p, p', w, w', me, calls, slice)
    ensures Serves(calls, schedule, p')
  {
    var slices := Begun(schedule, p);
    assert (slices + [slice])[..|slices|] == slices;
  }

  /** What a worker does with the task it picked. */
  function After(found: Picked): Pc {
    match found
    case Nothing => NoTask
    case Picked(Callback(j)) => SeePool(j)
    case Picked(Resumption(c)) => Resume(c)
  }

  /** A worker's own queue comes first, then the shared one, then the others' in the order of the steal loop. */
  ghost predicate ComesFirst(s: State, me: nat, q: nat)
    requires me < |s.workers| && |s.queues| == |s.workers| + 1 && q < |s.queues|
  {
    && s.queues[q] != []
    && (q != me ==>
          && s.queues[me] == []
          && (q != Global(s) ==>
                && s.queues[Global(s)] == []
                && forall p: nat :: p < |s.workers| && StealPosition(s, me, p) < StealPosition(s, me, q) ==>
                  s.queues[p] == []))
  }

  /** The first task of the first queue that has one is taken, and nothing is found only when all are empty. */
  ghost predicate PicksFirst(s: State, me: nat, found: Picked, queues: seq<seq<Task>>)
    requires me < |s.workers| && |s.queues| == |s.workers| + 1
  {
    match found
    case Nothing => queues == s.queues && AllEmpty(s.queues)
    case Picked(t) =>
      exists q: nat :: q < |s.queues| && ComesFirst(s, me, q) && t == s.queues[q][0]
        && queues == s.queues[q := s.queues[q][1..]]
  }

  lemma PicksFromSame(s: State, s': State, me: nat, found: Picked, queues: seq<seq<Task>>)
    requires me < |s.workers| == |s'.workers| && s.queues == s'.queues && |s.queues| == |s.workers| + 1
    requires PicksFirst(s', me, found, queues)
    ensures PicksFirst(s, me, found, queues)
  {
    match found
    case Nothing =>
    case Picked(t) =>
      var q: nat :| q < |s.queues| && ComesFirst(s', me, q) && t == s.queues[q][0]
                    && queues == s.queues[q := s.queues[q][1..]];
      assert ComesFirst(s, me, q);
  }

  /** The outcome of trying one queue when nobody interferes. */
  ghost predicate Tried(before: seq<seq<Task>>, q: nat, done: bool, found: Picked, queues: seq<seq<Task>>) {
    q < |before| &&
    if before[q] == [] then !done && queues == before
    else done && found == Picked(before[q][0]) && queues == before[q := before[q][1..]]
  }

  /** The first `i` queues in the order of the steal loop are empty. */
  ghost predicate Passed(s: State, me: nat, i: nat)
    requires me < |s.workers| && |s.queues| == |s.workers| + 1
  {
    forall p: nat :: p < |s.workers| && p != me && StealPosition(s, me, p) < i ==> s.queues[p] == []
  }

  /** How far the steal loop has come when nobody interferes. */
  ghost predicate Scanned(s: State, me: nat, i: nat, done: bool, found: Picked, queues: seq<seq<Task>>)
    requires me < |s.workers| && |s.queues| == |s.workers| + 1
  {
    if done then s.queues[me] == s.queues[Global(s)] == [] ==> PicksFirst(s, me, found, queues)
    else queues == s.queues && Passed(s, me, i)
  }

  /** The worker is in round `i` of the steal loop, or has found something, after it started in `w`. */
  ghost predicate Stealing(w: State, s: State, me: nat, i: nat, done: bool, found: Picked, alone: bool)
    requires me < |w.workers| == |s.workers| && |w.queues| == |w.workers| + 1
  {
    && (if done then s.workers[me].pc == After(found) else s.workers[me].pc == SeeSteal(i) && found == Nothing)
    && (alone ==> Scanned(w, me, i, done, found, s.queues))
    && (alone && w.stopped ==> if done then Measure(s) < Measure(w) else Measure(s) <= Measure(w))
  }

  lemma ScannedOneMore(s: State, me: nat, i: nat, done: bool, found: Picked, queues: seq<seq<Task>>)
    requires me < |s.workers| && |s.queues| == |s.workers| + 1 && i < |s.workers| && Passed(s, me, i)
    requires var q := StealIndex(s, me, i);
             if q == me then !done && queues == s.queues else Tried(s.queues, q, done, found, queues)
    ensures Scanned(s, me, if done then i else i + 1, done, found, queues)
  {
    forall p: nat | p < |s.workers|
      ensures StealPosition(s, me, p) == i <==> p == StealIndex(s, me, i)
    {
      StealPositionIs(s, me, p, i);
    }
    if done && s.queues[me] == s.queues[Global(s)] == [] {
      assert ComesFirst(s, me, StealIndex(s, me, i));
    }
  }

  lemma ScannedAll(s: State, me: nat, i: nat, done: bool, found: Picked, queues: seq<seq<Task>>)
    requires me < |s.workers| && |s.queues| == |s.workers| + 1 && Scanned(s, me, i, done, found, queues)
    requires !done ==> i == |s.workers| && found == Nothing
    ensures s.queues[me] == s.queues[Global(s)] == [] ==> PicksFirst(s, me, found, queues)
  {
    forall q: nat | !done && q < |s.workers| && s.queues[me] == s.queues[Global(s)] == []
      ensures s.queues[q] == []
    {
      StealPositionIs(s, me, q, 0);
    }
  }

  lemma TriedFirst(s: State, me: nat, q: nat, found: Picked, queues: seq<seq<Task>>)
    requires me < |s.workers| && |s.queues| == |s.workers| + 1 && Tried(s.queues, q, true, found, queues)
    requires q == me || (q == Global(s) && s.queues[me] == [])
    ensures PicksFirst(s, me, found, queues)
  {
    assert ComesFirst(s, me, q);
  }

  /** The queue that a request is meant for: its worker's, or the shared one. */
  function QueueOf(s: State, r: Request): nat {
    if r.target < |s.workers| then r.target else |s.workers|
  }

  /** The request has become the last entry of its queue, a new task, as a callback or as a coroutine of its own that
      is ready to start it, and nothing else was queued. */
  ghost predicate Enlisted(s: State, s': State, r: Request, late: bool) {
    var q, j := QueueOf(s, r), |s.jobs|;
    && |s'.jobs| == j + 1 && s'.jobs[..j] == s.jobs
    && s'.jobs[j].program == r.program && s'.jobs[j].ran == 0 && s'.jobs[j].late == late
    && q < |s.queues| && s'.queues == s.queues[q := s.queues[q] + [if r.asCoroutine then Resumption(|s.coros|)
      else Callback(j)]]
    && s'.coros == if r.asCoroutine then s.coros + [Coro(RADY, j, 0)] else s.coros
  }

  lemma AcceptEnlists(s: State, r: Request, late: bool)
    requires |s.queues| == |s.workers| + 1
    ensures Enlisted(s, Accept(s, r, late), r, late)
  {
  }

  /** These requests became new tasks, in their order. */
  ghost predicate Grew(before: seq<Job>, after: seq<Job>, requests: seq<Request>) {
    && |after| == |before| + |requests| && after[..|before|] == before
    && forall i :: 0 <= i < |requests| ==> after[|before| + i].program == requests[i].program
  }

  lemma GrewOneMore(before: seq<Job>, after: seq<Job>, more: seq<Job>, requests: seq<Request>, i: nat)
    requires i < |requests| && Grew(before, after, requests[..i])
    requires |more| == |after| + 1 && more[..|after|] == after && more[|after|].program == requests[i].program
    ensures Grew(before, more, requests[..i + 1])
  {
    assert more[..|before|] == more[..|after|][..|before|];
    forall k | 0 <= k < i
      ensures more[|before| + k].program == requests[k].program
    {
      assert more[|before| + k] == more[..|after|][|before| + k];
      assert requests[..i][k] == requests[k];
    }
  }

  lemma OneMoreRequest(before: seq<Request>, requests: seq<Request>, i: nat)
    requires i < |requests|
    ensures before + requests[..i + 1] == before + requests[..i] + [requests[i]]
  {
  }

  lemma SubmitsOneMore(
      schedule: Schedule, p: Past, p1: Past, p2: Past, w: State, w1: State, w2: State, me: nat,
      requests: seq<Request>, i: nat)
    requires i < |requests| && Submits(schedule, p, p1, w, w1, me, requests[..i])
    requires Submits(schedule, p1, p2, w1, w2, me, [requests[i]])
    ensures Submits(schedule, p, p2, w, w2, me, requests[..i + 1])
  {
    OneMoreRequest(Submitted(p), requests, i);
  }

  /** An ended coroutine is the last in the pool, and another the last in the worker's own queue. */
  ghost predicate PutBack(s: State, me: nat, coro: nat) {
    coro < |s.coros| &&
    if Ended(s.coros[coro].status) then s.pool != [] && s.pool[|s.pool| - 1] == coro
    else NonEmpty(s, me) && s.queues[me][|s.queues[me]| - 1] == Resumption(coro)
  }

  /** The slice that running this task begins. */
  function NextSlice(s: State, t: Task): Slice {
    match t
    case Callback(j) => Slice(j, 0)
    case Resumption(c) => if c < |s.coros| then Slice(s.coros[c].job, s.coros[c].next) else Slice(0, 0)
  }

  ghost predicate AllEmpty(queues: seq<seq<Task>>) {
    forall q :: 0 <= q < |queues| ==> queues[q] == []
  }

  lemma DrainingIsStopped(s: State, me: nat)
    requires Live(s, me) && s.workers[me].draining
    ensures s.stopped
  {
    ReachableInv(s);
  }

  class Scheduler {
    var queues: seq<seq<Task>>
    var pool: seq<nat>
    var coros: seq<Coro>
    var stopped: bool
    // The threads of the program, and what is recorded of the tasks.
    var workers: seq<Worker>
    var clients: seq<Client>
    var jobs: seq<Job>
    var trace: seq<Slice>

    function World(): State
      reads this
    {
      State(queues, pool, coros, workers, clients, stopped, jobs, trace)
    }

    constructor (threadCount: nat, clientCount: nat)
      requires threadCount > 0
      ensures World() == Init(threadCount, clientCount) && Reachable(World())
      ensures stopped && |queues| == |workers| + 1 == threadCount + 1 && AllEmpty(queues) && pool == []
    {
      var s := Init(threadCount, clientCount);
      queues, pool, coros, stopped := s.queues, [], [], true;
      workers, clients, jobs, trace := s.workers, s.clients, [], [];
      new;
      assert World() == Run(Init(threadCount, clientCount), []);
    }

    /** The others run. */
    method Interfere(me: nat, turn: seq<Move>)
      requires Live(World(), me) && NotBy(me, turn)
      modifies this
      ensures World() == Run(old(World()), turn) && Live(World(), me)
      ensures |workers| == |old(workers)| && workers[me] == old(workers)[me]
    {
      OthersFrame(World(), me, turn);
      var s := Run(World(), turn);
      queues, pool, coros, stopped := s.queues, s.pool, s.coros, s.stopped;
      workers, clients, jobs, trace := s.workers, s.clients, s.jobs, s.trace;
    }

    /** The worker has executed its instruction in the state `before`, which the others made of `w`: records it. */
    method Executed(me: nat, schedule: Schedule, p: Past, before: State, ghost w: State) returns (p': Past)
      requires Live(w, me) && Tracks(schedule, p, w, me)
      requires before == Run(w, TurnAt(schedule, Turn(p))) && Live(before, me)
      requires workers == before.workers && clients == before.clients && jobs == before.jobs && trace == before.trace
      requires var after := Next(before, Step(me));
               queues == after.queues && pool == after.pool && coros == after.coros && stopped == before.stopped
      modifies this`workers, this`jobs, this`trace
      ensures World() == Next(before, Step(me)) && Stepped(schedule, p, p', w, World(), me)
    {
      StepFrame(before, me);
      var after := Next(before, Step(me));
      workers, jobs, trace := after.workers, after.jobs, after.trace;
      OneInstruction(schedule, p, w, me);
      p' := Then(p, Step(me));
    }

    /** The others run, and then `me` is about to execute one instruction. */
    method Prepare(me: nat, schedule: Schedule, p: Past) returns (before: State)
      requires Live(World(), me) && ByOthers(me, schedule)
      modifies this
      ensures before == World() && Live(before, me)
      ensures |workers| == |old(workers)| && workers[me] == old(workers)[me]
      ensures before == Run(old(World()), TurnAt(schedule, Turn(p)))
      ensures Alone(schedule, p) ==> stopped == (old(stopped) || schedule.stops)
      ensures Alone(schedule, p) ==> before == old(World()).(stopped := stopped)
      ensures |queues| == |workers| + 1 && PcOk(before, me, workers[me].pc)
      ensures forall i :: 0 <= i < |pool| ==> pool[i] < |coros| && Ended(coros[pool[i]].status)
    {
      var turn := TurnAt(schedule, Turn(p));
      TurnByOthers(me, schedule, Turn(p));
      if Alone(schedule, p) {
        QuietRun(World(), turn);
      }
      Interfere(me, turn);
      HandOk(World(), me);
      before := World();
    }

    // ----- One method per shared access -----

    /** The look at `m_stopped` at the top of the first loop. */
    method IsStopped(me: nat, schedule: Schedule, p: Past)
      returns (stop: bool, p': Past)
      requires Live(World(), me) && Tracks(schedule, p, World(), me) && workers[me].pc == LoopTop
      modifies this
      ensures Stepped(schedule, p, p', old(World()), World(), me)
      ensures workers[me] == Worker(stop, SeeOwn)
      ensures Alone(schedule, p) && schedule.stops ==> stop
    {
      var before := Prepare(me, schedule, p);
      stop := stopped;
      p' := Executed(me, schedule, p, before, old(World()));
    }

    method IsEmpty(q: nat, me: nat, schedule: Schedule, p: Past)
      returns (empty: bool, p': Past)
      requires Live(World(), me) && Tracks(schedule, p, World(), me)
      requires LooksAt(|workers|, me, workers[me].pc, q)
      modifies this
      ensures Stepped(schedule, p, p', old(World()), World(), me)
      ensures workers[me] == old(workers[me]).(pc := if empty then LookOn(old(workers[me].pc)) else TakeFrom(q))
      ensures Alone(schedule, p) ==> queues == old(queues) && q < |queues| && empty == (queues[q] == [])
    {
      var before := Prepare(me, schedule, p);
      empty := queues[q] == [];
      assert Next(before, Step(me)) == At(before, me, if empty then LookOn(before.workers[me].pc) else TakeFrom(q));
      p' := Executed(me, schedule, p, before, old(World()));
    }

    /** The steal loop passes over the worker's own queue, or ends. */
    method Skip(me: nat, schedule: Schedule, p: Past) returns (p': Past)
      requires Live(World(), me) && Tracks(schedule, p, World(), me)
      requires workers[me].pc.SeeSteal?
      requires var n, i := |workers|, workers[me].pc.i; i < n ==> (me + 1 + i) % n == me
      modifies this
      ensures Stepped(schedule, p, p', old(World()), World(), me)
      ensures var pc := old(workers[me].pc);
              workers[me] == old(workers[me]).(pc := if pc.i < |workers| then LookOn(pc) else NoTask)
      ensures Alone(schedule, p) ==> queues == old(queues)
    {
      var before := Prepare(me, schedule, p);
      assert Next(before, Step(me)) == At(before, me, if workers[me].pc.i < |workers| then LookOn(workers[me].pc)
        else NoTask);
      p' := Executed(me, schedule, p, before, old(World()));
    }

    /** `dequeue`, which may come too late for what `empty` saw. */
    method Dequeue(q: nat, me: nat, schedule: Schedule, p: Past)
      returns (found: Picked, p': Past)
      requires Live(World(), me) && Tracks(schedule, p, World(), me) && workers[me].pc == TakeFrom(q)
      modifies this
      ensures Stepped(schedule, p, p', old(World()), World(), me)
      ensures workers[me] == old(workers[me]).(pc := After(found))
      ensures Alone(schedule, p) && q < |old(queues)| && old(queues)[q] != [] ==>
                found == Picked(old(queues)[q][0]) && queues == old(queues)[q := old(queues)[q][1..]]
    {
      var before := Prepare(me, schedule, p);
      assert Next(before, Step(me)) == Take(before, me, q);
      if queues[q] == [] {
        found := Nothing;
      } else {
        found := Picked(queues[q][0]);
        queues := queues[q := queues[q][1..]];
      }
      p' := Executed(me, schedule, p, before, old(World()));
    }

    /** The look at the pool, and the new coroutine when it is seen to be empty. */
    method LookAtPool(job: nat, me: nat, schedule: Schedule, p: Past)
      returns (made: bool, coro: nat, p': Past)
      requires Live(World(), me) && Tracks(schedule, p, World(), me) && workers[me].pc == SeePool(job)
      modifies this
      ensures Stepped(schedule, p, p', old(World()), World(), me)
      ensures workers[me] == old(workers[me]).(pc := if made then Resume(coro) else TakePool(job))
      ensures made ==> coro < |coros| && coros[coro] == Coro(RADY, job, 0)
      ensures Alone(schedule, p) ==> made == (old(pool) == []) && pool == old(pool) && trace == old(trace)
    {
      var before := Prepare(me, schedule, p);
      assert Next(before, Step(me)) == if pool == [] then Create(before, me, job) else At(before, me, TakePool(job));
      made, coro := pool == [], |coros|;
      if made {
        coros := coros + [Coro(RADY, job, 0)];
      }
      p' := Executed(me, schedule, p, before, old(World()));
    }

    /** An idle coroutine is taken and reset; `empty` when another worker was faster. */
    method TakeIdle(job: nat, me: nat, schedule: Schedule, p: Past)
      returns (empty: bool, coro: nat, p': Past)
      requires Live(World(), me) && Tracks(schedule, p, World(), me) && workers[me].pc == TakePool(job)
      modifies this
      ensures Stepped(schedule, p, p', old(World()), World(), me)
      ensures workers[me] == old(workers[me]).(pc := if empty then NullCoroutine(job) else Resume(coro))
      ensures Alone(schedule, p) ==> empty == (old(pool) == []) && trace == old(trace)
      ensures !empty ==> coro < |coros| && coros[coro] == Coro(RADY, job, 0)
      ensures Alone(schedule, p) && !empty ==> coro == old(pool)[0] && pool == old(pool)[1..]
    {
      var before := Prepare(me, schedule, p);
      RecycleFields(before, me, job);
      empty, coro := pool == [], 0;
      if !empty {
        coro := pool[0];
        pool := pool[1..];
        coros := coros[coro := Coro(RADY, job, 0)];
      }
      p' := Executed(me, schedule, p, before, old(World()));
    }

    /** `resume`, up to the switch of contexts. */
    method Resumed(coro: nat, me: nat, schedule: Schedule, p: Past) returns (p': Past)
      requires Live(World(), me) && Tracks(schedule, p, World(), me) && workers[me].pc == Resume(coro)
      modifies this
      ensures Stepped(schedule, p, p', old(World()), World(), me)
      ensures workers[me] == old(workers[me]).(pc := Running(coro))
      ensures coro < |coros| && Slice(coros[coro].job, coros[coro].next) == NextSlice(old(World()), Resumption(coro))
      ensures Alone(schedule, p) ==> trace == old(trace) + [NextSlice(old(World()), Resumption(coro))]
    {
      TurnByOthers(me, schedule, Turn(p));
      SliceInHand(World(), me, coro, TurnAt(schedule, Turn(p)));
      var before := Prepare(me, schedule, p);
      BeginFields(before, me, coro);
      coros := coros[coro := coros[coro].(status := RUNN)];
      p' := Executed(me, schedule, p, before, old(World()));
    }

    /** The callback yields, returns or throws, and the worker's context continues. */
    method Switched(coro: nat, me: nat, schedule: Schedule, p: Past) returns (p': Past)
      requires Live(World(), me) && Tracks(schedule, p, World(), me) && workers[me].pc == Running(coro)
      modifies this
      ensures Stepped(schedule, p, p', old(World()), World(), me)
      ensures workers[me] == old(workers[me]).(pc := Returned(coro))
      ensures Alone(schedule, p) ==> trace == old(trace) && jobs == old(jobs)
    {
      var before := Prepare(me, schedule, p);
      assert Next(before, Step(me)) == End(before, me, coro);
      var c := coros[coro];
      var program := jobs[c.job].program;
      var status := DEAD;
      if c.next < program.pauses {
        status := SUSP;
      } else if program.throws {
        status := ECPT;
      }
      coros := coros[coro := c.(status := status, next := c.next + 1)];
      p' := Executed(me, schedule, p, before, old(World()));
    }

    /** The check of `m_stopped` in a callback that calls `execute`. */
    method Offer(r: Request, coro: nat, me: nat, schedule: Schedule, p: Past) returns (accepted: bool, p': Past)
      requires Live(World(), me) && Tracks(schedule, p, World(), me) && workers[me].pc == Running(coro)
      modifies this
      ensures p' == Then(p, Submit(me, r)) && Tracks(schedule, p', World(), me) && Goes(old(World()), World(), me)
      ensures Begun(schedule, p') == Begun(schedule, p)
      ensures workers[me].pc == if accepted then Submitting(coro, r) else Running(coro)
      ensures old(stopped) ==> !accepted
      ensures Alone(schedule, p) ==> accepted == (!old(stopped) && !schedule.stops)
      ensures Alone(schedule, p) ==> World() == if accepted then At(old(World()), me, Submitting(coro, r))
          else old(World()).(stopped := true)
    {
      TurnByOthers(me, schedule, Turn(p));
      OthersFrame(World(), me, TurnAt(schedule, Turn(p)));
      var before := Prepare(me, schedule, p);
      accepted := !stopped;
      if accepted {
        workers := workers[me := workers[me].(pc := Submitting(coro, r))];
      }
      assert World() == Next(before, Submit(me, r));
      ReachableNext(before, Submit(me, r));
      p' := Then(p, Submit(me, r));
      NowThen(schedule, p, Submit(me, r));
      BegunThen(schedule, p, Submit(me, r));
      assert Begun(schedule, p) + [] == Begun(schedule, p);
    }

    /** The task goes to the queue of its worker, or to the shared one. */
    method Enqueue(r: Request, ghost late: bool)
      requires |queues| == |workers| + 1
      modifies this`queues, this`coros
      ensures var after := Accept(old(World()), r, late); queues == after.queues && coros == after.coros
    {
      var q := if r.target < |workers| then r.target else |workers|;
      var task := Callback(|jobs|);
      if r.asCoroutine {
        task := Resumption(|coros|);
        coros := coros + [Coro(RADY, |jobs|, 0)];
      }
      queues := queues[q := queues[q] + [task]];
    }

    method Enqueued(r: Request, coro: nat, me: nat, schedule: Schedule, p: Past) returns (p': Past)
      requires Live(World(), me) && Tracks(schedule, p, World(), me)
          && workers[me].pc == Submitting(coro, r)
      modifies this
      ensures Stepped(schedule, p, p', old(World()), World(), me)
      ensures workers[me] == old(workers[me]).(pc := Running(coro))
      ensures Alone(schedule, p) ==> trace == old(trace) && stopped == (old(stopped) || schedule.stops)
      ensures Alone(schedule, p) ==> Enlisted(old(World()), World(), r, false)
    {
      var before := Prepare(me, schedule, p);
      Enqueue(r, false);
      assert Next(before, Step(me)) == At(Accept(before, r, false), me, Running(coro));
      p' := Executed(me, schedule, p, before, old(World()));
    }

    /** The coroutine goes back to the pool, or to the worker's own queue. */
    method GaveBack(coro: nat, me: nat, schedule: Schedule, p: Past) returns (p': Past)
      requires Live(World(), me) && Tracks(schedule, p, World(), me) && workers[me].pc == Returned(coro)
      modifies this
      ensures Stepped(schedule, p, p', old(World()), World(), me)
      ensures workers[me] == old(workers[me]).(pc := if old(workers[me]).draining then SeeOwn else LoopTop)
      ensures Alone(schedule, p) ==> trace == old(trace)
      ensures Alone(schedule, p) ==> PutBack(World(), me, coro)
    {
      var before := Prepare(me, schedule, p);
      assert Next(before, Step(me)) == GiveBack(before, me, coro);
      if coros[coro].status == DEAD || coros[coro].status == ECPT {
        pool := pool + [coro];
      } else {
        queues := queues[me := queues[me] + [Resumption(coro)]];
      }
      p' := Executed(me, schedule, p, before, old(World()));
    }

    /** The end of an iteration without a task: the idle wait, or the end of the second loop. */
    method GaveUp(me: nat, schedule: Schedule, p: Past) returns (p': Past)
      requires Live(World(), me) && Tracks(schedule, p, World(), me) && workers[me].pc == NoTask
      modifies this
      ensures Stepped(schedule, p, p', old(World()), World(), me)
      ensures workers[me] == old(workers[me]).(pc := if old(workers[me]).draining then Exited else LoopTop)
      ensures Alone(schedule, p) ==> queues == old(queues)
    {
      var before := Prepare(me, schedule, p);
      p' := Executed(me, schedule, p, before, old(World()));
    }

    // ----- The operations -----

    /** Dequeues from a queue unless it is seen to be empty. */
    method TryQueue(q: nat, me: nat, schedule: Schedule, p: Past) returns (done: bool, found: Picked, p': Past)
      requires Live(World(), me) && Tracks(schedule, p, World(), me)
      requires LooksAt(|workers|, me, workers[me].pc, q)
      modifies this
      ensures Went(schedule, p, p', old(World()), World(), me)
      ensures workers[me].pc == if done then After(found) else LookOn(old(workers[me].pc))
      ensures !done ==> found == Nothing
      ensures Alone(schedule, p) ==> Tried(old(queues), q, done, found, queues)
      ensures Alone(schedule, p) && old(stopped) ==> Measure(World()) < Measure(old(World()))
    {
      done, found := false, Nothing;
      var empty;
      empty, p' := IsEmpty(q, me, schedule, p);
      if !empty {
        done := true;
        found, p' := Dequeue(q, me, schedule, p');
      }
    }

    /** One iteration of the steal loop, which skips the worker's own queue. */
    method StealFrom(i: nat, me: nat, schedule: Schedule, p: Past) returns (done: bool, found: Picked, p': Past)
      requires Live(World(), me) && Tracks(schedule, p, World(), me)
      requires workers[me].pc == SeeSteal(i) && i < |workers|
      modifies this
      ensures Went(schedule, p, p', old(World()), World(), me)
      ensures workers[me].pc == if done then After(found) else SeeSteal(i + 1)
      ensures !done ==> found == Nothing
      ensures Alone(schedule, p) ==>
                var q := StealIndex(old(World()), me, i);
                if q == me then !done && queues == old(queues) else Tried(old(queues), q, done, found, queues)
      ensures Alone(schedule, p) && old(stopped) ==> Measure(World()) < Measure(old(World()))
    {
      var q := (me + 1 + i) % |workers|;
      if q == me {
        done, found := false, Nothing;
        p' := Skip(me, schedule, p);
      } else {
        done, found, p' := TryQueue(q, me, schedule, p);
      }
    }

    /** The steal loop. */
    method Steal(me: nat, schedule: Schedule, p: Past) returns (found: Picked, p': Past)
      requires Live(World(), me) && Tracks(schedule, p, World(), me)
      requires workers[me].pc == SeeSteal(0) && |queues| == |workers| + 1
      modifies this
      ensures Went(schedule, p, p', old(World()), World(), me)
      ensures workers[me].pc == After(found)
      ensures Alone(schedule, p) && old(queues[me] == queues[|workers|] == []) ==>
          PicksFirst(old(World()), me, found, queues)
      ensures Alone(schedule, p) && old(stopped) ==> Measure(World()) < Measure(old(World()))
    {
      ghost var w := World();
      ghost var alone := Alone(schedule, p);
      p', found := p, Nothing;
      var i, done := 0, false;
      while i < |workers| && !done
        invariant i <= |workers| && (p' == p || Went(schedule, p, p', w, World(), me)) && (done ==> p' != p)
        invariant Tracks(schedule, p', World(), me) && Goes(w, World(), me)
        invariant Stealing(w, World(), me, i, done, found, alone)
        decreases |workers| - i, !done
      {
        i, done, found, p' := StealOnce(i, me, schedule, p', w, alone);
      }
      if !done {
        p' := StealNothing(i, me, schedule, p', w, alone);
      } else if alone {
        ScannedAll(w, me, i, done, found, queues);
      }
    }

    /** One round of the steal loop, with what is known of the rounds before. */
    method StealOnce(i: nat, me: nat, schedule: Schedule, p: Past, ghost w: State, ghost alone: bool)
      returns (j: nat, done: bool, found: Picked, p': Past)
      requires Live(World(), me) && Tracks(schedule, p, World(), me) && Goes(w, World(), me)
      requires i < |workers| && |w.queues| == |w.workers| + 1 && Stealing(w, World(), me, i, false, Nothing, alone)
      requires alone ==> Alone(schedule, p)
      modifies this
      ensures Went(schedule, p, p', old(World()), World(), me) && Goes(w, World(), me)
      ensures j == (if done then i else i + 1) && Stealing(w, World(), me, j, done, found, alone)
    {
      done, found, p' := StealFrom(i, me, schedule, p);
      j := if done then i else i + 1;
      if alone {
        ScannedOneMore(w, me, i, done, found, queues);
      }
    }

    /** The end of the steal loop when every queue was seen empty. */
    method StealNothing(i: nat, me: nat, schedule: Schedule, p: Past, ghost w: State, ghost alone: bool)
      returns (p': Past)
      requires Live(World(), me) && Tracks(schedule, p, World(), me) && Goes(w, World(), me)
      requires i == |workers| && |w.queues| == |w.workers| + 1 && Stealing(w, World(), me, i, false, Nothing, alone)
      requires alone ==> Alone(schedule, p)
      modifies this
      ensures Went(schedule, p, p', old(World()), World(), me) && Goes(w, World(), me)
      ensures workers[me].pc == After(Nothing)
      ensures alone && w.queues[me] == w.queues[Global(w)] == [] ==> PicksFirst(w, me, Nothing, queues)
      ensures alone && w.stopped ==> Measure(World()) < Measure(w)
    {
      p' := Skip(me, schedule, p);
      if alone {
        ScannedAll(w, me, i, false, Nothing, queues);
      }
    }

    /** `pickTask`. */
    method PickTask(me: nat, schedule: Schedule, p: Past) returns (found: Picked, p': Past)
      requires Live(World(), me) && Tracks(schedule, p, World(), me)
      requires workers[me].pc == SeeOwn && |queues| == |workers| + 1
      modifies this
      ensures Went(schedule, p, p', old(World()), World(), me)
      ensures workers[me].pc == After(found)
      ensures Alone(schedule, p) ==> PicksFirst(old(World()), me, found, queues)
      ensures Alone(schedule, p) && old(stopped) ==> Measure(World()) < Measure(old(World()))
    {
      var done;
      ghost var w := World();
      done, found, p' := TryQueue(me, me, schedule, p);
      if done {
        if Alone(schedule, p) {
          TriedFirst(w, me, me, found, queues);
        }
        return;
      }
      HandOk(World(), me);
      ghost var w1 := World();
      found, p' := PickElsewhere(me, schedule, p');
      if Alone(schedule, p) {
        PicksFromSame(w, w1, me, found, queues);
      }
    }

    /** `pickTask` behind the look at the worker's own queue. */
    method PickElsewhere(me: nat, schedule: Schedule, p: Past) returns (found: Picked, p': Past)
      requires Live(World(), me) && Tracks(schedule, p, World(), me)
      requires workers[me].pc == SeeGlobal && |queues| == |workers| + 1
      modifies this
      ensures Went(schedule, p, p', old(World()), World(), me)
      ensures workers[me].pc == After(found)
      ensures Alone(schedule, p) && old(queues[me]) == [] ==> PicksFirst(old(World()), me, found, queues)
      ensures Alone(schedule, p) && old(stopped) ==> Measure(World()) < Measure(old(World()))
    {
      var done;
      ghost var w := World();
      done, found, p' := TryQueue(|workers|, me, schedule, p);
      if done {
        if Alone(schedule, p) && w.queues[me] == [] {
          TriedFirst(w, me, |workers|, found, queues);
        }
      } else {
        HandOk(World(), me);
        ghost var w1 := World();
        found, p' := Steal(me, schedule, p');
        if Alone(schedule, p) && w.queues[me] == [] {
          PicksFromSame(w, w1, me, found, queues);
        }
      }
    }

    /** `getIdleCoroutine`. */
    method GetIdleCoroutine(job: nat, me: nat, schedule: Schedule, p: Past)
      returns (missing: bool, coro: nat, p': Past)
      requires Live(World(), me) && Tracks(schedule, p, World(), me) && workers[me].pc == SeePool(job)
      modifies this
      ensures Went(schedule, p, p', old(World()), World(), me)
      ensures workers[me].pc == if missing then NullCoroutine(job) else Resume(coro)
      ensures !missing ==> coro < |coros| && coros[coro] == Coro(RADY, job, 0)
      ensures Alone(schedule, p) ==>
                !missing && trace == old(trace)
                && if old(pool) == [] then pool == [] else coro == old(pool)[0] && pool == old(pool)[1..]
      ensures Alone(schedule, p) && old(stopped) ==> Measure(World()) < Measure(old(World()))
    {
      var made;
      missing := false;
      made, coro, p' := LookAtPool(job, me, schedule, p);
      if !made {
        missing, coro, p' := TakeIdle(job, me, schedule, p');
      }
    }

    /** `execute`, called by a running callback. */
    method ExecuteInside(r: Request, coro: nat, me: nat, schedule: Schedule, p: Past)
      returns (accepted: bool, p': Past)
      requires Live(World(), me) && Tracks(schedule, p, World(), me) && workers[me].pc == Running(coro)
      modifies this
      ensures Submits(schedule, p, p', old(World()), World(), me, [r])
      ensures workers[me].pc == Running(coro)
      ensures old(stopped) ==> !accepted
      ensures Alone(schedule, p) ==> accepted == (!old(stopped) && !schedule.stops) && trace == old(trace)
      ensures Alone(schedule, p) ==>
                if accepted then !stopped && Enlisted(old(World()), World(), r, false)
                else World() == old(World()).(stopped := true)
    {
      accepted, p' := Offer(r, coro, me, schedule, p);
      if accepted {
        p' := Enqueued(r, coro, me, schedule, p');
      }
    }

    /** The callback's calls of `execute` during a slice. */
    method MakeCalls(calls: seq<Request>, coro: nat, me: nat, schedule: Schedule, p: Past) returns (p': Past)
      requires Live(World(), me) && Tracks(schedule, p, World(), me) && workers[me].pc == Running(coro)
      modifies this
      ensures Submits(schedule, p, p', old(World()), World(), me, calls)
      ensures workers[me].pc == Running(coro)
      ensures Alone(schedule, p) ==> trace == old(trace) && (old(stopped) ==> World() == old(World()))
      ensures Alone(schedule, p) && !old(stopped) && !schedule.stops ==> Grew(old(jobs), jobs, calls)
    {
      ghost var w := World();
      p' := p;
      for i := 0 to |calls|
        invariant Submits(schedule, p, p', w, World(), me, calls[..i])
        invariant workers[me].pc == Running(coro)
        invariant Alone(schedule, p) ==> trace == w.trace && (w.stopped ==> World() == w)
        invariant Alone(schedule, p) && !w.stopped && !schedule.stops ==> !stopped && Grew(w.jobs, jobs, calls[..i])
      {
        var accepted;
        ghost var before, p0 := World(), p';
        accepted, p' := ExecuteInside(calls[i], coro, me, schedule, p');
        SubmitsOneMore(schedule, p, p0, p', w, before, World(), me, calls, i);
        if accepted && Alone(schedule, p) && !w.stopped {
          GrewOneMore(w.jobs, before.jobs, jobs, calls, i);
        }
      }
      assert calls[..|calls|] == calls;
    }

    /** Runs the coroutine until it gives the worker back its context. */
    method RunSlice(coro: nat, calls: seq<Request>, me: nat, schedule: Schedule, p: Past) returns (p': Past)
      requires Live(World(), me) && Tracks(schedule, p, World(), me) && workers[me].pc == Running(coro)
      modifies this
      ensures Submits(schedule, p, p', old(World()), World(), me, calls) && Turn(p') > Turn(p)
      ensures workers[me].pc == Returned(coro)
      ensures Alone(schedule, p) ==> trace == old(trace)
      ensures Alone(schedule, p) && !old(stopped) && !schedule.stops ==> Grew(old(jobs), jobs, calls)
      ensures Alone(schedule, p) && old(stopped) ==> Measure(World()) < Measure(old(World()))
    {
      p' := MakeCalls(calls, coro, me, schedule, p);
      p' := Switched(coro, me, schedule, p');
    }

    /** Resumes a coroutine and puts it where it then belongs. */
    method RunCoroutine(coro: nat, calls: Slice -> seq<Request>, me: nat, schedule: Schedule, p: Past)
      returns (p': Past)
      requires Live(World(), me) && Tracks(schedule, p, World(), me) && workers[me].pc == Resume(coro)
      modifies this
      ensures Ran(schedule, p, p', old(World()), World(), me, calls, NextSlice(old(World()), Resumption(coro)))
      ensures workers[me].pc == if workers[me].draining then SeeOwn else LoopTop
      ensures Alone(schedule, p) ==> trace == old(trace) + [NextSlice(old(World()), Resumption(coro))]
      ensures Alone(schedule, p) ==> PutBack(World(), me, coro)
      ensures Alone(schedule, p) && old(stopped) ==> Measure(World()) < Measure(old(World()))
    {
      p' := Resumed(coro, me, schedule, p);
      var slice := Slice(coros[coro].job, coros[coro].next);
      p' := RunSlice(coro, calls(slice), me, schedule, p');
      p' := GaveBack(coro, me, schedule, p');
    }

    /** The body of either loop of `run`; `missing` when `getIdleCoroutine` dereferenced null. */
    method RunTask(task: Task, calls: Slice -> seq<Request>, me: nat, schedule: Schedule, p: Past)
      returns (missing: bool, p': Past)
      requires Live(World(), me) && Tracks(schedule, p, World(), me)
      requires workers[me].pc == After(Picked(task))
      modifies this
      ensures if missing then Went(schedule, p, p', old(World()), World(), me)
              else Ran(schedule, p, p', old(World()), World(), me, calls, NextSlice(old(World()), task))
      ensures if missing then task.Callback? && workers[me].pc == NullCoroutine(task.job)
              else workers[me].pc == if workers[me].draining then SeeOwn else LoopTop
      ensures Alone(schedule, p) ==> !missing && trace == old(trace) + [NextSlice(old(World()), task)]
      ensures Alone(schedule, p) && old(stopped) ==> Measure(World()) < Measure(old(World()))
    {
      match task {
        case Callback(job) =>
          var coro;
          missing, coro, p' := GetIdleCoroutine(job, me, schedule, p);
          if missing {
            return;
          }
          p' := RunCoroutine(coro, calls, me, schedule, p');
        case Resumption(coro) =>
          missing := false;
          p' := RunCoroutine(coro, calls, me, schedule, p);
      }
    }

    /** One iteration of the first loop. */
    method WorkOnce(me: nat, calls: Slice -> seq<Request>, schedule: Schedule, p: Past)
      returns (missing: bool, p': Past)
      requires Live(World(), me) && Tracks(schedule, p, World(), me) && Serves(calls, schedule, p)
      requires workers[me] == Worker(false, SeeOwn)
      modifies this
      ensures Continues(schedule, p, p', World(), me, calls)
      ensures if missing then workers[me].pc.NullCoroutine? else workers[me] == Worker(false, LoopTop)
      ensures Alone(schedule, p) ==> !missing
    {
      missing := false;
      HandOk(World(), me);
      var found;
      found, p' := PickTask(me, schedule, p);
      if found == Nothing {
        p' := GaveUp(me, schedule, p');
      } else {
        ghost var before, p0 := World(), p';
        missing, p' := RunTask(found.task, calls, me, schedule, p');
        if !missing {
          ServesOneMore(schedule, p0, p', before, World(), me, calls, NextSlice(before, found.task));
        }
      }
    }

    /** The first loop of `run`; the look at `m_stopped` that ends the loop is the last instruction. */
    method FirstLoop(me: nat, calls: Slice -> seq<Request>, schedule: Schedule, p: Past)
      returns (missing: bool, p': Past)
      requires Live(World(), me) && Tracks(schedule, p, World(), me) && Serves(calls, schedule, p)
      requires workers[me] == Worker(false, LoopTop) && schedule.stops
      modifies this
      ensures Continues(schedule, p, p', World(), me, calls)
      ensures if missing then workers[me].pc.NullCoroutine? else workers[me] == Worker(true, SeeOwn) && stopped
      ensures Alone(schedule, p) ==> !missing
    {
      missing, p' := false, p;
      var stop := false;
      while !stop && !missing
        invariant p' == p || Continues(schedule, p, p', World(), me, calls)
        invariant p' == p ==> World() == old(World()) && !stop && !missing
        invariant if missing then workers[me].pc.NullCoroutine?
                  else workers[me] == if stop then Worker(true, SeeOwn) else Worker(false, LoopTop)
        invariant Alone(schedule, p) ==> !missing
        decreases TurnsLeft(schedule, p'), !stop && !missing
      {
        stop, p' := IsStopped(me, schedule, p');
        if !stop {
          missing, p' := WorkOnce(me, calls, schedule, p');
        }
      }
      if !missing {
        DrainingIsStopped(World(), me);
      }
    }

    /** One iteration of the second loop: the body, and the search for the next task. */
    method DrainOnce(task: Task, me: nat, calls: Slice -> seq<Request>, schedule: Schedule, p: Past)
      returns (missing: bool, found: Picked, p': Past)
      requires Live(World(), me) && Tracks(schedule, p, World(), me) && Serves(calls, schedule, p)
      requires workers[me] == Worker(true, After(Picked(task))) && stopped
      modifies this
      ensures Continues(schedule, p, p', World(), me, calls) && stopped
      ensures if missing then workers[me].pc.NullCoroutine? else workers[me] == Worker(true, After(found))
      ensures Alone(schedule, p) ==>
                !missing && Measure(World()) < Measure(old(World())) && (found == Nothing ==> AllEmpty(queues))
    {
      found := Nothing;
      missing, p' := RunTask(task, calls, me, schedule, p);
      if !missing {
        ServesOneMore(schedule, p, p', old(World()), World(), me, calls, NextSlice(old(World()), task));
        HandOk(World(), me);
        found, p' := PickTask(me, schedule, p');
      }
    }

    /** The second loop, when `first` is what was picked before it. */
    method Drain(first: Picked, me: nat, calls: Slice -> seq<Request>, schedule: Schedule, p: Past)
      returns (missing: bool, p': Past)
      requires Live(World(), me) && Tracks(schedule, p, World(), me) && Serves(calls, schedule, p)
      requires workers[me] == Worker(true, After(first)) && stopped
      modifies this
      ensures p' == p || Continues(schedule, p, p', World(), me, calls)
      ensures p' == p ==> World() == old(World()) && first == Nothing && !missing
      ensures stopped
      ensures if missing then workers[me].pc.NullCoroutine? else workers[me] == Worker(true, NoTask)
      ensures Alone(schedule, p) ==> !missing && (p' != p ==> AllEmpty(queues))
    {
      var found := first;
      missing, p' := false, p;
      while found != Nothing && !missing
        invariant p' == p || Continues(schedule, p, p', World(), me, calls)
        invariant p' == p ==> World() == old(World()) && found == first && !missing
        invariant stopped
        invariant if missing then workers[me].pc.NullCoroutine? else workers[me] == Worker(true, After(found))
        invariant Alone(schedule, p) ==> !missing && (found == Nothing && p' != p ==> AllEmpty(queues))
        decreases TurnsLeft(schedule, p'), !missing, Measure(World())
      {
        missing, found, p' := DrainOnce(found.task, me, calls, schedule, p');
      }
    }

    /** The second loop of `run`. */
    method SecondLoop(me: nat, calls: Slice -> seq<Request>, schedule: Schedule, p: Past)
      returns (missing: bool, p': Past)
      requires Live(World(), me) && Tracks(schedule, p, World(), me) && Serves(calls, schedule, p)
      requires workers[me] == Worker(true, SeeOwn) && stopped
      modifies this
      ensures Continues(schedule, p, p', World(), me, calls)
      ensures if missing then workers[me].pc.NullCoroutine? else workers[me] == Worker(true, Exited)
      ensures Alone(schedule, p) ==> !missing && AllEmpty(queues)
    {
      HandOk(World(), me);
      var found;
      found, p' := PickTask(me, schedule, p);
      missing, p' := Drain(found, me, calls, schedule, p');
      if !missing {
        p' := GaveUp(me, schedule, p');
      }
    }

    /** `run`; `missing` when the worker dereferenced a null coroutine. */
    method RunWorker(me: nat, calls: Slice -> seq<Request>, schedule: Schedule) returns (missing: bool, p: Past)
      requires Live(World(), me) && ByOthers(me, schedule) && schedule.stops
      requires workers[me] == Worker(false, LoopTop)
      modifies this
      ensures World() == Run(old(World()), Moves(schedule, p)) && Own(me, p) && Reachable(World()) && me < |workers|
      ensures if missing then workers[me].pc.NullCoroutine? else workers[me] == Worker(true, Exited)
      ensures Submitted(p) == AllCalls(calls, Begun(schedule, p))
      ensures schedule.turns == [] ==> !missing && AllEmpty(queues)
    {
      p := From(World());
      missing, p := FirstLoop(me, calls, schedule, p);
      if !missing {
        missing, p := SecondLoop(me, calls, schedule, p);
      }
      NowIsRun(schedule, p);
    }

    // ----- Outside threads and the controller -----

    /** `execute`, called by an outside thread; `between` is what the others do between its check and its enqueue. */
    method Execute(k: nat, r: Request, between: seq<Move>) returns (accepted: bool)
      requires Reachable(World()) && k < |clients| && clients[k] == Ready && NotByClient(k, between)
      modifies this
      ensures Reachable(World()) && accepted == !old(stopped)
      ensures if accepted then World() == Run(old(World()), [Check(k, r)] + between + [Put(k)])
          else World() == old(World())
      ensures accepted ==> Enlisted(Run(old(World()), [Check(k, r)] + between), World(), r, stopped)
    {
      accepted := !stopped;
      if accepted {
        ghost var start := World();
        ReachableNext(start, Check(k, r));
        clients := clients[k := Checked(r)];
        assert World() == Next(start, Check(k, r)) == Run(start, [Check(k, r)]);
        InterfereWith(k, between);
        RunAppend(start, [Check(k, r)], between);
        RunNext(start, [Check(k, r)] + between, Put(k));
        AcceptFor(k, r);
      }
    }

    /** The others run between an outside thread's check and its enqueue. */
    method InterfereWith(k: nat, between: seq<Move>)
      requires Reachable(World()) && k < |clients| && NotByClient(k, between)
      modifies this
      ensures World() == Run(old(World()), between) && Reachable(World())
      ensures k < |clients| && clients[k] == old(clients)[k]
    {
      ClientFrame(World(), k, between);
      var s := Run(World(), between);
      queues, pool, coros, stopped := s.queues, s.pool, s.coros, s.stopped;
      workers, clients, jobs, trace := s.workers, s.clients, s.jobs, s.trace;
    }

    method AcceptFor(k: nat, r: Request)
      requires Reachable(World()) && k < |clients| && clients[k] == Checked(r)
      modifies this
      ensures World() == Next(old(World()), Put(k)) && Reachable(World())
      ensures Enlisted(old(World()), World(), r, stopped)
    {
      ReachableInv(World());
      ReachableNext(World(), Put(k));
      ghost var before := World();
      AcceptEnlists(before.(clients := clients[k := Ready]), r, stopped);
      var after := Next(World(), Put(k));
      clients := clients[k := Ready];
      Enqueue(r, stopped);
      jobs := after.jobs;
      assert World() == Next(before, Put(k));
    }

    /** `start`; the one controller has joined the workers before it starts again. */
    method Start()
      requires Reachable(World()) && (stopped ==> AllExited(World()))
      modifies this`stopped, this`workers, this`jobs
      ensures World() == Next(old(World()), Move.Start) && Reachable(World())
      ensures !stopped && |workers| == |old(workers)|
      ensures forall w :: 0 <= w < |workers| ==>
                workers[w] == if old(stopped) then Worker(false, LoopTop) else old(workers[w])
    {
      ReachableNext(World(), Move.Start);
      if !stopped {
        return;
      }
      stopped := false;
      workers := seq(|workers|, _ => Worker(false, LoopTop));
      jobs := InTime(jobs);
    }

    /** `stop`; `others` is what the other threads do until the last worker has left and `join` returns. */
    method Stop(others: seq<Move>)
      requires Reachable(World())
      requires !stopped ==> AllExited(Run(Next(World(), Move.Stop), others))
      modifies this
      ensures Reachable(World())
      ensures World() == if old(stopped) then old(World()) else Run(old(World()), [Move.Stop] + others)
      ensures !old(stopped) ==> AllExited(World()) && (AllEmpty(queues) <==> NoLate(World()))
      ensures !old(stopped) && Move.Start !in others && old(NoneUnderWay(World())) ==> AllEmpty(queues)
    {
      if stopped {
        return;
      }
      ghost var start := World();
      ReachableNext(start, Move.Stop);
      StopDrainsIff(start);
      stopped := true;
      assert World() == Next(start, Move.Stop) == Run(start, [Move.Stop]);
      RunReachable(World(), others);
      RunAppend(start, [Move.Stop], others);
      var s := Run(World(), others);
      queues, pool, coros, stopped := s.queues, s.pool, s.coros, s.stopped;
      workers, clients, jobs, trace := s.workers, s.clients, s.jobs, s.trace;
      DrainComplete(World());
    }
  }
}

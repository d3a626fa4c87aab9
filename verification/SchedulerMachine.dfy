/** `Scheduler` and the coroutines it runs, as a transition system: workers, outside
    threads that submit tasks, and the controller that starts and stops.

    The queues are atomic FIFO sequences, which the linearizability of `LockFreeQueue` justifies.
    `empty()` and `dequeue()` stay separate steps, so a queue that was seen non-empty
    may be empty when the worker dequeues. */
module SchedulerMachine {

  datatype Status = INIT | RADY | RUNN | SUSP | DEAD | ECPT

  /** What a callback does: it yields `pauses` times and then returns or throws a `std::exception`. */
  datatype Program = Program(pauses: nat, throws: bool)

  /** A coroutine: `next` is where its context will continue, as the index of a slice. */
  datatype Coro = Coro(status: Status, job: nat, next: nat)

  /** `Task`: a callback that was not started, or a coroutine to resume. */
  datatype Task = Callback(job: nat) | Resumption(coro: nat)

  /** What is submitted: a callback, or a coroutine made from it, for a worker's queue or (any other index) for all. */
  datatype Request = Request(program: Program, asCoroutine: bool, target: nat)

  /** A worker's program counter, with the locals that are live there. */
  datatype Pc =
    | LoopTop
    | SeeOwn
    | SeeGlobal
    | SeeSteal(i: nat)
    | TakeFrom(q: nat)
    | NoTask
    | SeePool(job: nat)
    | TakePool(job: nat)
    | Resume(coro: nat)
    | Running(coro: nat)
    | Submitting(coro: nat, request: Request)
    | Returned(coro: nat)
    | Exited
    | NullCoroutine(job: nat)   // `getIdleCoroutine` dereferences the null it got from the pool
    | GuardFailed               // an assertion of `resume`, `yield` or `reset` fired

  /** `draining`: in the second loop of `run`. */
  datatype Worker = Worker(draining: bool, pc: Pc)

  /** An outside thread in `execute`: before its check of `m_stopped`, or between the check and the enqueue. */
  datatype Client = Ready | Checked(request: Request)

  // ----- Recorded for the proofs -----

  datatype Place = Queued(q: nat) | Held(w: nat) | Finished

  datatype Carrier = NoCoro | On(coro: nat)

  /** An accepted task. `ran`: slices begun; `late`: enqueued by an outside thread after `stop`
      (its check came before), and since then neither picked up nor followed by a new `start`. */
  datatype Job = Job(program: Program, place: Place, carrier: Carrier, ran: nat, late: bool)

  /** A slice that was begun: `index` is where the coroutine's context continued. */
  datatype Slice = Slice(job: nat, index: nat)

  datatype State = State(queues: seq<seq<Task>>, pool: seq<nat>, coros: seq<Coro>,
                         workers: seq<Worker>, clients: seq<Client>, stopped: bool,
                         jobs: seq<Job>, trace: seq<Slice>)

  datatype Move =
    | Step(w: nat)
    | Submit(w: nat, request: Request)
    | Check(k: nat, request: Request)
    | Put(k: nat)
    | Start
    | Stop

  /** The index of the queue shared by all workers. */
  function Global(s: State): nat { |s.workers| }

  function Init(workers: nat, clients: nat): State {
    State(seq(workers + 1, _ => []), [], [], seq(workers, _ => Worker(true, Exited)),
          seq(clients, _ => Ready), true, [], [])
  }

  /** Only worker `w` of the threads has moved, it is still in the same loop, and no task was accepted. */
  ghost predicate ByWorker(s: State, s': State, w: nat) {
    && |s'.workers| == |s.workers| && w < |s.workers|
    && (forall v :: 0 <= v < |s.workers| && v != w ==> s'.workers[v] == s.workers[v])
    && s'.workers[w].draining == s.workers[w].draining
    && s'.stopped == s.stopped && s'.clients == s.clients
    && |s'.jobs| == |s.jobs|
    && (forall j :: 0 <= j < |s.jobs| ==>
          s'.jobs[j].program == s.jobs[j].program && (s'.jobs[j].late ==> s.jobs[j].late))
  }

  /** No slice was begun. */
  ghost predicate NoSlice(s: State, s': State) {
    && s'.trace == s.trace && |s'.jobs| == |s.jobs|
    && forall j :: 0 <= j < |s.jobs| ==> s'.jobs[j].ran == s.jobs[j].ran
  }

  function At(s: State, w: nat, pc: Pc): State
    requires w < |s.workers|
  {
    s.(workers := s.workers[w := s.workers[w].(pc := pc)])
  }

  function SetJob(s: State, j: nat, job: Job): State {
    if j < |s.jobs| then s.(jobs := s.jobs[j := job]) else s
  }

  function SetCoro(s: State, c: nat, coro: Coro): State {
    if c < |s.coros| then s.(coros := s.coros[c := coro]) else s
  }

  function Append(s: State, q: nat, t: Task): State {
    if q < |s.queues| then s.(queues := s.queues[q := s.queues[q] + [t]]) else s
  }

  predicate NonEmpty(s: State, q: nat) { q < |s.queues| && s.queues[q] != [] }

  /** `execute` behind its check. A submitted coroutine is made by the caller and becomes the scheduler's here. */
  function Accept(s: State, r: Request, late: bool): (s': State)
    ensures s'.workers == s.workers && s'.stopped == s.stopped && s'.clients == s.clients
  {
    var q := if r.target < |s.workers| then r.target else Global(s);
    if r.asCoroutine then
      Append(s.(coros := s.coros + [Coro(RADY, |s.jobs|, 0)],
                jobs := s.jobs + [Job(r.program, Queued(q), On(|s.coros|), 0, late)]), q, Resumption(|s.coros|))
    else
      Append(s.(jobs := s.jobs + [Job(r.program, Queued(q), NoCoro, 0, late)]), q, Callback(|s.jobs|))
  }

  function StealIndex(s: State, w: nat, i: nat): nat
    requires |s.workers| > 0
  {
    (w + 1 + i) % |s.workers|
  }

  function JobOf(s: State, t: Task): nat {
    match t
    case Callback(j) => j
    case Resumption(c) => if c < |s.coros| then s.coros[c].job else 0
  }

  /** A `dequeue` of `pickTask`, and the worker's look at what it got. */
  function Take(s: State, w: nat, q: nat): (s': State)
    requires w < |s.workers|
    ensures ByWorker(s, s', w) && NoSlice(s, s')
    ensures s'.workers[w].pc.NoTask? || s'.workers[w].pc.SeePool? || s'.workers[w].pc.Resume?
    ensures s'.workers[w].pc == NoTask <==> !NonEmpty(s, q)
  {
    if !NonEmpty(s, q) then At(s, w, NoTask)
    else
      var t := s.queues[q][0];
      var j := JobOf(s, t);
      var s1 := s.(queues := s.queues[q := s.queues[q][1..]]);
      var s2 := if j < |s.jobs| then SetJob(s1, j, s.jobs[j].(place := Held(w), late := false)) else s1;
      At(s2, w, match t case Callback(job) => SeePool(job) case Resumption(c) => Resume(c))
  }

  /** `getIdleCoroutine` with the pool seen empty: a new coroutine for the callback. */
  function Create(s: State, w: nat, j: nat): (s': State)
    requires w < |s.workers|
    ensures ByWorker(s, s', w) && NoSlice(s, s')
    ensures s'.workers[w].pc.Resume?
  {
    var s1 := s.(coros := s.coros + [Coro(RADY, j, 0)]);
    var s2 := if j < |s.jobs| then SetJob(s1, j, s.jobs[j].(carrier := On(|s.coros|))) else s1;
    At(s2, w, Resume(|s.coros|))
  }

  /** `getIdleCoroutine` otherwise: an idle coroutine gets the callback. */
  function Recycle(s: State, w: nat, j: nat): (s': State)
    requires w < |s.workers|
    ensures ByWorker(s, s', w) && NoSlice(s, s')
    ensures s'.workers[w].pc.Resume? || s'.workers[w].pc.NullCoroutine? || s'.workers[w].pc.GuardFailed?
  {
    if s.pool == [] then At(s, w, NullCoroutine(j))
    else
      var c := s.pool[0];
      if c < |s.coros| && s.coros[c].status == RUNN then At(s, w, GuardFailed)
      else
        var s1 := SetCoro(s.(pool := s.pool[1..]), c, Coro(RADY, j, 0));
        var s2 := if j < |s.jobs| then SetJob(s1, j, s.jobs[j].(carrier := On(c))) else s1;
        At(s2, w, Resume(c))
  }

  /** `resume`, until the coroutine runs. */
  function Begin(s: State, w: nat, c: nat): (s': State)
    requires w < |s.workers|
    ensures ByWorker(s, s', w)
    ensures s'.workers[w].pc.Running? || s'.workers[w].pc.GuardFailed?
  {
    if c >= |s.coros| || (s.coros[c].status != RADY && s.coros[c].status != SUSP) then At(s, w, GuardFailed)
    else
      var coro := s.coros[c];
      var s1 := SetCoro(s, c, coro.(status := RUNN));
      var s2 := if coro.job < |s.jobs| then SetJob(s1, coro.job, s.jobs[coro.job].(ran := s.jobs[coro.job].ran + 1))
        else s1;
      At(s2.(trace := s.trace + [Slice(coro.job, coro.next)]), w, Running(c))
  }

  /** The slice ends: `yield`, or the callback returns or throws. */
  function End(s: State, w: nat, c: nat): (s': State)
    requires w < |s.workers|
    ensures ByWorker(s, s', w) && NoSlice(s, s')
    ensures s'.workers[w].pc.Returned? || s'.workers[w].pc.GuardFailed?
  {
    if c >= |s.coros| || s.coros[c].status != RUNN then At(s, w, GuardFailed)
    else
      var coro := s.coros[c];
      var program := if coro.job < |s.jobs| then s.jobs[coro.job].program else Program(0, false);
      var status := if coro.next < program.pauses then SUSP else if program.throws then ECPT else DEAD;
      At(SetCoro(s, c, coro.(status := status, next := coro.next + 1)), w, Returned(c))
  }

  /** After `resume`: back to the pool, or to the worker's own queue. */
  function GiveBack(s: State, w: nat, c: nat): (s': State)
    requires w < |s.workers|
    ensures ByWorker(s, s', w) && NoSlice(s, s')
    ensures s'.workers[w].pc == if s.workers[w].draining then SeeOwn else LoopTop
  {
    var again := At(s, w, if s.workers[w].draining then SeeOwn else LoopTop);
    if c >= |s.coros| then again
    else
      var j := s.coros[c].job;
      if s.coros[c].status == DEAD || s.coros[c].status == ECPT then
        var s1 := again.(pool := s.pool + [c]);
        if j < |s.jobs| then SetJob(s1, j, s.jobs[j].(place := Finished, carrier := NoCoro)) else s1
      else
        var s1 := Append(again, w, Resumption(c));
        if j < |s.jobs| then SetJob(s1, j, s.jobs[j].(place := Queued(w))) else s1
  }

  function WorkerStep(s: State, w: nat): State
    requires w < |s.workers|
  {
    match s.workers[w].pc
    case LoopTop => s.(workers := s.workers[w := Worker(s.stopped, SeeOwn)])
    case SeeOwn => At(s, w, if NonEmpty(s, w) then TakeFrom(w) else SeeGlobal)
    case SeeGlobal => At(s, w, if NonEmpty(s, Global(s)) then TakeFrom(Global(s)) else SeeSteal(0))
    case SeeSteal(i) =>
      if i >= |s.workers| then At(s, w, NoTask)
      else
        var q := StealIndex(s, w, i);
        At(s, w, if q != w && NonEmpty(s, q) then TakeFrom(q) else SeeSteal(i + 1))
    case TakeFrom(q) => Take(s, w, q)
    case NoTask => At(s, w, if s.workers[w].draining then Exited else LoopTop)
    case SeePool(j) => if s.pool == [] then Create(s, w, j) else At(s, w, TakePool(j))
    case TakePool(j) => Recycle(s, w, j)
    case Resume(c) => Begin(s, w, c)
    case Running(c) => End(s, w, c)
    case Submitting(c, r) => At(Accept(s, r, false), w, Running(c))
    case Returned(c) => GiveBack(s, w, c)
    case Exited => s
    case NullCoroutine(_) => s
    case GuardFailed => s
  }

  predicate AllExited(s: State) {
    forall w :: 0 <= w < |s.workers| ==> s.workers[w].pc == Exited
  }

  /** A new start serves what an earlier drain left behind. */
  function InTime(jobs: seq<Job>): (r: seq<Job>)
    ensures |r| == |jobs| && forall j :: 0 <= j < |jobs| ==> r[j] == jobs[j].(late := false)
  {
    seq(|jobs|, j requires 0 <= j < |jobs| => jobs[j].(late := false))
  }

  /** A move that is not possible changes nothing. */
  function Next(s: State, mv: Move): State {
    match mv
    case Step(w) => if w < |s.workers| then WorkerStep(s, w) else s
    case Submit(w, r) =>
      if w < |s.workers| && s.workers[w].pc.Running? && !s.stopped
      then At(s, w, Submitting(s.workers[w].pc.coro, r)) else s
    case Check(k, r) =>
      if k < |s.clients| && s.clients[k] == Ready && !s.stopped then s.(clients := s.clients[k := Checked(r)]) else s
    case Put(k) =>
      if k < |s.clients| && s.clients[k].Checked?
      then Accept(s.(clients := s.clients[k := Ready]), s.clients[k].request, s.stopped) else s
    case Start =>
      if s.stopped && AllExited(s)
      then s.(stopped := false, workers := seq(|s.workers|, _ => Worker(false, LoopTop)), jobs := InTime(s.jobs)) else s
    case Stop => s.(stopped := true)
  }

  function Run(s: State, moves: seq<Move>): State
    decreases |moves|
  {
    if moves == [] then s else Run(Next(s, moves[0]), moves[1..])
  }
}

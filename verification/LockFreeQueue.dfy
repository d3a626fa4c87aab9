/** The class `LockFreeQueue` with its retry loops, run by one thread while others interfere.

    Between any two of a method's shared accesses the other threads take any finite number of steps,
    and a compare-and-swap may fail spuriously: both are given by a schedule. Each method is proved to
    perform the run of the transition system that consists of these turns and its own instructions, so
    everything proved about runs holds of it. */
module LockFreeQueue {
  import opened QueueSpec
  import opened QueueMachine
  import opened QueueInvariant
  import opened QueueRuns
  import opened QueueTheorems

  /** What happens before one shared access: the others' steps, and whether an exchange fails spuriously. */
  datatype Turn = Turn(others: seq<Move>, weak: bool)

  /** How an iteration of `dequeue` ends. */
  datatype Attempt = Again | FoundEmpty | Took(curHead: Id, ret: Ptr)

  /** After the end of the schedule a thread runs alone and its exchanges do not fail spuriously. */
  function TurnAt(schedule: seq<Turn>, pos: nat): Turn {
    if pos < |schedule| then schedule[pos] else Turn([], false)
  }

  /** The first `n` instructions of `me`, each behind the turn of the others. */
  function Woven(me: nat, schedule: seq<Turn>, n: nat): seq<Move> {
    if n == 0 then []
    else
      var turn := TurnAt(schedule, n - 1);
      Woven(me, schedule, n - 1) + turn.others + [Advance(me, turn.weak)]
  }

  /** The state after them. */
  function Reached(start: State, me: nat, schedule: seq<Turn>, n: nat): State
    decreases n, 1
  {
    if n == 0 then start else ReachedBy(start, me, schedule, n)
  }

  function ReachedBy(start: State, me: nat, schedule: seq<Turn>, n: nat): State
    requires n > 0
    decreases n, 0
  {
    var turn := TurnAt(schedule, n - 1);
    Step(Run(Reached(start, me, schedule, n - 1), turn.others), Advance(me, turn.weak))
  }

  lemma ReachedNext(start: State, me: nat, schedule: seq<Turn>, n: nat)
    ensures
      var turn := TurnAt(schedule, n);
      Reached(start, me, schedule, n + 1) ==
        Step(Run(Reached(start, me, schedule, n), turn.others), Advance(me, turn.weak))
  {
  }

  lemma {:induction false} ReachedIsRun(start: State, me: nat, schedule: seq<Turn>, n: nat)
    ensures Reached(start, me, schedule, n) == Run(start, Woven(me, schedule, n))
    decreases n
  {
    if n > 0 {
      var turn := TurnAt(schedule, n - 1);
      ReachedIsRun(start, me, schedule, n - 1);
      ReachedNext(start, me, schedule, n - 1);
      RunAppend(start, Woven(me, schedule, n - 1), turn.others);
      RunAppend(start, Woven(me, schedule, n - 1) + turn.others, [Advance(me, turn.weak)]);
    }
  }

  /** The run of a call: its invocation, and `n` instructions. */
  function CallRun(me: nat, call: Call, schedule: seq<Turn>, n: nat): seq<Move> {
    [Invoke(me, call)] + Woven(me, schedule, n)
  }

  lemma CallRuns(s: State, me: nat, call: Call, schedule: seq<Turn>, n: nat)
    ensures Run(s, CallRun(me, call, schedule, n)) == Reached(Step(s, Invoke(me, call)), me, schedule, n)
  {
    ReachedIsRun(Step(s, Invoke(me, call)), me, schedule, n);
    assert CallRun(me, call, schedule, n)[1..] == Woven(me, schedule, n);
  }

  ghost predicate NotBy(me: nat, moves: seq<Move>) {
    forall k :: 0 <= k < |moves| ==> moves[k].t != me
  }

  ghost predicate ByOthers(me: nat, schedule: seq<Turn>) {
    forall k :: 0 <= k < |schedule| ==> NotBy(me, schedule[k].others)
  }

  /** The other threads leave alone what belongs to `me`. */
  lemma {:induction false} OthersFrame(s: State, me: nat, moves: seq<Move>)
    requires Reachable(s) && me < |s.threads| && NotBy(me, moves)
    ensures var s' := Run(s, moves);
            && Reachable(s')
            && |s'.threads| == |s.threads| && s'.threads[me] == s.threads[me]
            && |s.h.ops| <= |s'.h.ops|
            && (s.threads[me].pc != Idle ==>
                  s.threads[me].op < |s.h.ops| && s'.h.ops[s.threads[me].op] == s.h.ops[s.threads[me].op])
    decreases |moves|
  {
    if moves == [] {
      if s.threads[me].pc != Idle {
        RegistersPoint(s, me);
      }
    } else {
      var mv := moves[0];
      ReachableStep(s, mv);
      OneFrame(s, me, mv);
      OthersFrame(Step(s, mv), me, moves[1..]);
    }
  }

  lemma OneFrame(s: State, me: nat, mv: Move)
    requires Reachable(s) && me < |s.threads| && mv.t != me
    ensures var s' := Step(s, mv);
            && |s'.threads| == |s.threads| && s'.threads[me] == s.threads[me]
            && |s.h.ops| <= |s'.h.ops|
            && (s.threads[me].pc != Idle ==>
                  s.threads[me].op < |s.h.ops| && s'.h.ops[s.threads[me].op] == s.h.ops[s.threads[me].op])
  {
    ReachableInv(s);
    assert ThreadOk(s, me);
    if mv.t < |s.threads| {
      assert Apart(s.threads[me], s.threads[mv.t]);
    }
  }

  /** `me` has executed `pos` instructions since `start`. */
  ghost predicate Tracks(start: State, me: nat, schedule: seq<Turn>, pos: nat, w: State) {
    w == Reached(start, me, schedule, pos) && ByOthers(me, schedule) && Reachable(w) && me < |w.threads|
  }

  /** From `w` to `w'` the others took their turn and then `me` executed one instruction. */
  ghost predicate Stepped(start: State, w: State, w': State, me: nat, schedule: seq<Turn>, pos: nat) {
    w' == Reached(start, me, schedule, pos + 1) && Kept(w, w', me)
  }

  /** From `w` to `w'` the thread `me` came from instruction `pos` to `end` of its operation. */
  ghost predicate Went(start: State, w: State, w': State, me: nat, schedule: seq<Turn>, pos: nat, end: nat) {
    pos < end && w' == Reached(start, me, schedule, end) && Kept(w, w', me)
  }

  /** `me` is still working on the same operation. */
  ghost predicate Kept(w: State, w': State, me: nat) {
    && Reachable(w')
    && me < |w.threads| && me < |w'.threads|
    && w'.threads[me].op == w.threads[me].op
    && w.threads[me].op < |w.h.ops| && w.threads[me].op < |w'.h.ops|
    && w'.h.ops[w.threads[me].op].call == w.h.ops[w.threads[me].op].call
  }

  /** Operation `i` of the history is this call, and it returned `ret`. */
  ghost predicate Answered(h: Hist, i: nat, call: Call, ret: Ret) {
    i < |h.ops| && h.ops[i].call == call && h.ops[i].outcome.Returned? && h.ops[i].outcome.ret == ret
  }

  /** The instructions that change no shared memory. */
  ghost predicate Quiet(pc: Pc) {
    !IsCas(pc) && !pc.DeqFree?
  }

  /** How far tail lags behind the last node, plus one. */
  ghost function Lag(w: State): nat {
    if w.mem.tail in w.h.rank && w.h.rank[w.mem.tail] <= |w.h.chain| then |w.h.chain| - w.h.rank[w.mem.tail] else 0
  }

  /** Nothing shared has changed. */
  ghost predicate Undisturbed(w: State, w': State) {
    w'.mem == w.mem && Lag(w') == Lag(w) && Current(w'.h) == Current(w.h)
  }

  lemma OneInstruction(start: State, w: State, w': State, me: nat, schedule: seq<Turn>, pos: nat)
    requires Tracks(start, me, schedule, pos, w) && w.threads[me].pc != Idle
    requires var turn := TurnAt(schedule, pos); w' == Step(Run(w, turn.others), Advance(me, turn.weak))
    ensures Stepped(start, w, w', me, schedule, pos)
    ensures pos >= |schedule| ==>
              Current(w'.h) == (if Changes(w.threads[me].pc, w'.threads[me].pc)
                                then After(Current(w.h), w.h.ops[w.threads[me].op].call) else Current(w.h))
    ensures pos >= |schedule| && Quiet(w.threads[me].pc) ==> Undisturbed(w, w')
  {
    var turn := TurnAt(schedule, pos);
    var mid := Run(w, turn.others);
    OthersFrame(w, me, turn.others);
    ReachedNext(start, me, schedule, pos);
    RegistersPoint(mid, me);
    ReachableStep(mid, Advance(me, turn.weak));
    InstructionFrame(mid, w', me, turn.weak);
  }

  /** What one instruction of `me` keeps. */
  lemma InstructionFrame(s: State, s': State, me: nat, weak: bool)
    requires me < |s.threads| && s.threads[me].pc != Idle && s.threads[me].op < |s.h.ops|
    requires s' == Step(s, Advance(me, weak))
    ensures && |s'.threads| == |s.threads| && s'.threads[me].op == s.threads[me].op
            && |s'.h.ops| == |s.h.ops|
            && s'.h.ops[s.threads[me].op].call == s.h.ops[s.threads[me].op].call
            && Current(s'.h) == (if Changes(s.threads[me].pc, s'.threads[me].pc)
                                 then After(Current(s.h), s.h.ops[s.threads[me].op].call) else Current(s.h))
            && (Quiet(s.threads[me].pc) ==> s'.mem == s.mem && s'.h.chain == s.h.chain && s'.h.rank == s.h.rank)
  {
  }

  /** A successful exchange of tail brings it closer to the last node. */
  lemma TailGainsOnLast(s: State, me: nat)
    requires Reachable(s) && me < |s.threads|
    requires s.threads[me].pc.EnqHelp? || s.threads[me].pc.EnqSwing? || s.threads[me].pc.DeqHelp?
    requires s.threads[me].pc.curTail == s.mem.tail
    ensures Lag(Step(s, Advance(me, false))) < Lag(s)
  {
    ReachableInv(s);
    assert ThreadOk(s, me);
  }

  /** The dequeuer that moves head holds the value that leaves the queue. */
  lemma TakesItsValue(s: State, me: nat)
    requires Reachable(s) && me < |s.threads| && s.threads[me].pc.DeqMove?
    requires s.threads[me].pc.curHead == s.mem.head
    ensures Current(s.h) != [] && Current(s.h)[0] == s.threads[me].pc.ret
    ensures s.threads[me].op < |s.h.ops| && s.h.ops[s.threads[me].op].call == Dequeue
  {
    ReachableInv(s);
    assert ThreadOk(s, me);
    TakesFirst(s.mem, s.h, s.threads[me].pc.succ);
  }

  /** A head without a successor means an empty queue, and the other way around. */
  lemma NilMeansEmpty(s: State)
    requires Reachable(s)
    ensures Next(s.mem, s.mem.head) == Nil <==> Current(s.h) == []
  {
    ReachableInv(s);
    assert s.mem.nodes[s.mem.head].next == Nil <==> Last(s.h, s.mem.head);
  }

  /** With head and tail at rest, what `empty` computes is right. */
  lemma EmptyIsRight(s: State)
    requires Reachable(s)
    ensures s.mem.head == s.mem.tail && Next(s.mem, s.mem.head) == Nil <==> Current(s.h) == []
  {
    NilMeansEmpty(s);
    ReachableInv(s);
    assert s.mem.nodes[s.mem.head].next == Nil <==> Last(s.h, s.mem.head);
    assert s.h.chain[s.h.rank[s.mem.head]] == s.mem.head && s.h.chain[s.h.rank[s.mem.tail]] == s.mem.tail;
  }

  /** The rest of the chain can be walked from head. */
  lemma RemainingLinked(s: State)
    requires Reachable(s)
    ensures s.mem.head in s.h.rank && s.h.rank[s.mem.head] <= |s.h.chain|
    ensures var list := Remaining(s.mem, s.h); Linked(s.mem, list) && list[0] == s.mem.head
  {
    ReachableInv(s);
    var list: seq<Id> := Remaining(s.mem, s.h);
    var hd := s.h.rank[s.mem.head];
    forall i | 0 <= i < |list|
      ensures list[i] < |s.mem.nodes|
      ensures s.mem.nodes[list[i]].next == if i < |list| - 1 then To(list[i + 1]) else Nil
    {
      assert list[i] == s.h.chain[hd + i] && s.h.rank[list[i]] == hd + i;
      if i < |list| - 1 {
        assert s.h.rank[s.h.chain[hd + i + 1]] == hd + i + 1;
        NextOf(s.mem, s.h, list[i], list[i + 1]);
      }
    }
  }

  /** The instructions that load head. */
  lemma HeadLoaded(m: Mem, pc: Pc, weak: bool)
    requires pc.DeqLoadHead? || pc.EmpLoadHead?
    ensures Exec(m, pc, weak) == (m, if pc == DeqLoadHead then DeqLoadTail(m.head) else EmpLoadTail(m.head))
        && Quiet(pc)
  {
  }

  /** The instructions that load tail. */
  lemma TailLoaded(m: Mem, pc: Pc, weak: bool)
    requires pc.EnqLoadTail? || pc.DeqLoadTail? || pc.EmpLoadTail?
    ensures Exec(m, pc, weak).0 == m && Quiet(pc)
    ensures Exec(m, pc, weak).1 == match pc
                                   case EnqLoadTail(node) => EnqLoadNext(node, m.tail)
                                   case DeqLoadTail(curHead) => DeqLoadNext(curHead, m.tail)
                                   case EmpLoadTail(h) => EmpLoadNext(h, m.tail)
                                   case _ => Idle
  {
  }

  predicate LoadsNextOf(pc: Pc, node: Id) {
    (pc.EnqLoadNext? && pc.curTail == node) || (pc.DeqLoadNext? && pc.curHead == node)
    || (pc.EmpLoadNext? && pc.curHead == node)
  }

  predicate MovesTail(pc: Pc, expected: Id, desired: Id) {
    (pc.EnqHelp? && pc.curTail == expected && pc.succ == desired)
    || (pc.EnqSwing? && pc.curTail == expected && pc.node == desired)
    || (pc.DeqHelp? && pc.curTail == expected && pc.succ == desired)
  }

  /** The instructions that load a `next`. */
  lemma NextLoaded(m: Mem, pc: Pc, node: Id, weak: bool)
    requires LoadsNextOf(pc, node)
    ensures Exec(m, pc, weak).0 == m && Quiet(pc)
    ensures Exec(m, pc, weak).1 == match pc
                                   case EnqLoadNext(n, curTail) => EnqCheck(n, curTail, Next(m, node))
                                   case DeqLoadNext(curHead, curTail) => DeqCheck(curHead, curTail, Next(m, node))
                                   case EmpLoadNext(h, t) => Done(Flag(h == t && Next(m, node) == Nil))
                                   case _ => Idle
  {
  }

  /** The instructions that exchange tail. */
  lemma TailExchanged(m: Mem, pc: Pc, expected: Id, desired: Id, weak: bool)
    requires MovesTail(pc, expected, desired)
    ensures Exec(m, pc, weak).0 == if !weak && m.tail == expected then m.(tail := desired) else m
    ensures Exec(m, pc, weak).1 == match pc
                                   case EnqHelp(node, _, _) => EnqLoadTail(node)
                                   case EnqSwing(_, _) => Done(Unit)
                                   case _ => DeqLoadHead
    ensures !Changes(pc, Exec(m, pc, weak).1)
  {
  }

  class LockFreeQueue {
    var nodes: seq<Node>
    var head: Id
    var tail: Id
    var retired: seq<Id>
    // The other threads of the program, and the recorded history.
    var threads: seq<Thread>
    var history: Hist

    function Memory(): Mem
      reads this
    {
      Mem(nodes, head, tail, retired)
    }

    function World(): State
      reads this
    {
      State(Memory(), threads, history)
    }

    /** The abstract contents. */
    function Contents(): seq<Ptr>
      reads this
    {
      Current(history)
    }

    constructor (threadCount: nat)
      ensures World() == Init(threadCount) && Reachable(World()) && Contents() == []
    {
      nodes, head, tail, retired := [Node(Null, Nil)], 0, 0, [];
      threads := Init(threadCount).threads;
      history := Init(threadCount).h;
      new;
      assert World() == Run(Init(threadCount), []);
    }

    /** The others run. */
    method Interfere(me: nat, schedule: seq<Turn>, pos: nat) returns (before: Mem, weak: bool)
      requires Reachable(World()) && me < |threads| && threads[me].pc != Idle && ByOthers(me, schedule)
      modifies this
      ensures World() == Run(old(World()), TurnAt(schedule, pos).others) && Reachable(World())
      ensures before == Memory() && weak == TurnAt(schedule, pos).weak
      ensures me < |threads| && threads[me] == old(threads[me])
      ensures threads[me].op < |history.ops|
      ensures threads[me].op < |old(history.ops)| && history.ops[threads[me].op] == old(history.ops[threads[me].op])
      ensures pos >= |schedule| ==> World() == old(World()) && !weak
    {
      var turn := TurnAt(schedule, pos);
      OthersFrame(World(), me, turn.others);
      var w := Run(World(), turn.others);
      nodes, head, tail, retired := w.mem.nodes, w.mem.head, w.mem.tail, w.mem.retired;
      threads, history := w.threads, w.h;
      before, weak := Memory(), turn.weak;
    }

    /** The thread `me` calls an operation: records the call. */
    method Called(me: nat, c: Call, before: Mem)
      requires me < |threads| && threads[me].pc == Idle && Reachable(State(before, threads, history))
      requires Memory() == Begin(before, c).0
      modifies this`threads, this`history
      ensures World() == Step(State(before, old(threads), old(history)), Invoke(me, c)) && Reachable(World())
      ensures me < |threads| && threads[me] == Thread(Begin(before, c).1, |old(history.ops)|)
      ensures |history.ops| == |old(history.ops)| + 1 && history.ops[|old(history.ops)|].call == c
      ensures Contents() == old(Contents())
    {
      ReachableStep(State(before, threads, history), Invoke(me, c));
      var w := Step(State(before, threads, history), Invoke(me, c));
      threads, history := w.threads, w.h;
    }

    /** The thread `me` has executed its instruction on the memory `before`, which the others left: records the step. */
    method Executed(me: nat, schedule: seq<Turn>, pos: nat, before: Mem, ghost start: State, ghost w: State)
      requires Tracks(start, me, schedule, pos, w) && w.threads[me].pc != Idle
      requires me < |threads| && threads[me].pc == w.threads[me].pc
      requires State(before, threads, history) == Run(w, TurnAt(schedule, pos).others)
      requires Reachable(State(before, threads, history))
      requires Memory() == Exec(before, threads[me].pc, TurnAt(schedule, pos).weak).0
      modifies this`threads, this`history
      ensures Stepped(start, w, World(), me, schedule, pos)
      ensures World() ==
        Step(State(before, old(threads), old(history)), Advance(me, TurnAt(schedule, pos).weak))
      ensures threads[me].pc == Exec(before, old(threads[me].pc), TurnAt(schedule, pos).weak).1
      ensures pos >= |schedule| ==>
                Contents() == if Changes(old(threads[me].pc), threads[me].pc)
                  then After(Current(w.h), w.h.ops[w.threads[me].op].call) else Current(w.h)
      ensures pos >= |schedule| && Quiet(old(threads[me].pc)) ==> Undisturbed(w, World())
    {
      var weak := TurnAt(schedule, pos).weak;
      RegistersPoint(State(before, threads, history), me);
      var after := Step(State(before, threads, history), Advance(me, weak));
      threads, history := after.threads, after.h;
      OneInstruction(start, w, World(), me, schedule, pos);
    }

    // ----- One method per shared access -----

    method LoadTail(me: nat, schedule: seq<Turn>, pos: nat, ghost start: State) returns (curTail: Id)
      requires Tracks(start, me, schedule, pos, World())
      requires threads[me].pc.EnqLoadTail? || threads[me].pc.DeqLoadTail? || threads[me].pc.EmpLoadTail?
      modifies this
      ensures Stepped(start, old(World()), World(), me, schedule, pos)
      ensures pos >= |schedule| ==> Undisturbed(old(World()), World())
      ensures threads[me].pc == match old(threads[me].pc)
                                case EnqLoadTail(node) => EnqLoadNext(node, curTail)
                                case DeqLoadTail(curHead) => DeqLoadNext(curHead, curTail)
                                case EmpLoadTail(h) => EmpLoadNext(h, curTail)
                                case _ => Idle
      ensures curTail == tail
    {
      var before, weak := Interfere(me, schedule, pos);
      curTail := tail;
      TailLoaded(before, threads[me].pc, weak);
      Executed(me, schedule, pos, before, start, old(World()));
    }

    method LoadHead(me: nat, schedule: seq<Turn>, pos: nat, ghost start: State) returns (curHead: Id)
      requires Tracks(start, me, schedule, pos, World())
      requires threads[me].pc.DeqLoadHead? || threads[me].pc.EmpLoadHead?
      modifies this
      ensures Stepped(start, old(World()), World(), me, schedule, pos)
      ensures pos >= |schedule| ==> Undisturbed(old(World()), World())
      ensures threads[me].pc == if old(threads[me].pc) == DeqLoadHead then DeqLoadTail(curHead)
          else EmpLoadTail(curHead)
      ensures curHead == head
    {
      var before, weak := Interfere(me, schedule, pos);
      curHead := head;
      HeadLoaded(before, threads[me].pc, weak);
      Executed(me, schedule, pos, before, start, old(World()));
    }

    method LoadNext(node: Id, me: nat, schedule: seq<Turn>, pos: nat, ghost start: State) returns (next: Link)
      requires Tracks(start, me, schedule, pos, World())
      requires LoadsNextOf(threads[me].pc, node)
      modifies this
      ensures Stepped(start, old(World()), World(), me, schedule, pos)
      ensures pos >= |schedule| ==> Undisturbed(old(World()), World())
      ensures threads[me].pc == match old(threads[me].pc)
                                case EnqLoadNext(n, curTail) => EnqCheck(n, curTail, next)
                                case DeqLoadNext(curHead, curTail) => DeqCheck(curHead, curTail, next)
                                case EmpLoadNext(h, t) => Done(Flag(h == t && next == Nil))
                                case _ => Idle
      ensures next == Next(Memory(), node)
    {
      var before, weak := Interfere(me, schedule, pos);
      next := Next(Memory(), node);
      NextLoaded(before, threads[me].pc, node, weak);
      Executed(me, schedule, pos, before, start, old(World()));
    }

    method TailIs(curTail: Id, me: nat, schedule: seq<Turn>, pos: nat, ghost start: State) returns (same: bool)
      requires Tracks(start, me, schedule, pos, World())
      requires threads[me].pc.EnqCheck? && threads[me].pc.curTail == curTail
      modifies this
      ensures Stepped(start, old(World()), World(), me, schedule, pos)
      ensures pos >= |schedule| ==> Undisturbed(old(World()), World())
      ensures same == (curTail == tail)
      ensures threads[me].pc == var pc := old(threads[me].pc);
                                if !same then EnqLoadTail(pc.node)
                                else if pc.next == Nil then EnqLink(pc.node, curTail)
                                else EnqHelp(pc.node, curTail, pc.next.id)
    {
      var before, weak := Interfere(me, schedule, pos);
      same := curTail == tail;
      Executed(me, schedule, pos, before, start, old(World()));
    }

    method HeadIs(curHead: Id, me: nat, schedule: seq<Turn>, pos: nat, ghost start: State) returns (same: bool)
      requires Tracks(start, me, schedule, pos, World())
      requires threads[me].pc.DeqCheck? && threads[me].pc.curHead == curHead
      modifies this
      ensures Stepped(start, old(World()), World(), me, schedule, pos)
      ensures pos >= |schedule| ==> Undisturbed(old(World()), World())
      ensures same == (curHead == head)
      ensures threads[me].pc == var pc := old(threads[me].pc);
                                if !same then DeqLoadHead
                                else if curHead != pc.curTail then DeqRead(curHead, pc.next)
                                else if pc.next == Nil then Done(Got(Null))
                                else DeqHelp(pc.curTail, pc.next.id)
    {
      var before, weak := Interfere(me, schedule, pos);
      same := curHead == head;
      Executed(me, schedule, pos, before, start, old(World()));
    }

    method ExchangeNext(node: Id, newNode: Id, me: nat, schedule: seq<Turn>, pos: nat, ghost start: State)
      returns (ok: bool)
      requires Tracks(start, me, schedule, pos, World())
      requires threads[me].pc == EnqLink(newNode, node)
      modifies this
      ensures Stepped(start, old(World()), World(), me, schedule, pos)
      ensures pos >= |schedule| ==>
                Contents() == if ok then After(old(Contents()), old(history.ops[threads[me].op].call))
                  else old(Contents())
      ensures threads[me].pc == if ok then EnqSwing(newNode, node) else EnqLoadTail(newNode)
      ensures pos >= |schedule| && Next(old(Memory()), node) == Nil ==> ok
    {
      var before, weak := Interfere(me, schedule, pos);
      ok := !weak && Next(Memory(), node) == Nil;
      if ok {
        RegistersPoint(World(), me);
        nodes := nodes[node := nodes[node].(next := To(newNode))];
      }
      Executed(me, schedule, pos, before, start, old(World()));
    }

    method ExchangeTail(expected: Id, desired: Id, me: nat, schedule: seq<Turn>, pos: nat, ghost start: State)
      requires Tracks(start, me, schedule, pos, World())
      requires MovesTail(threads[me].pc, expected, desired)
      modifies this
      ensures Stepped(start, old(World()), World(), me, schedule, pos)
      ensures pos >= |schedule| ==> Contents() == old(Contents())
      ensures threads[me].pc == match old(threads[me].pc)
                                case EnqHelp(node, _, _) => EnqLoadTail(node)
                                case EnqSwing(_, _) => Done(Unit)
                                case _ => DeqLoadHead
      ensures pos >= |schedule| && old(tail) == expected ==> Lag(World()) < Lag(old(World()))
    {
      var before, weak := Interfere(me, schedule, pos);
      if !weak && tail == expected {
        TailGainsOnLast(World(), me);
        tail := desired;
      }
      TailExchanged(before, threads[me].pc, expected, desired, weak);
      Executed(me, schedule, pos, before, start, old(World()));
    }

    method ReadData(next: Link, me: nat, schedule: seq<Turn>, pos: nat, ghost start: State) returns (value: Ptr)
      requires Tracks(start, me, schedule, pos, World())
      requires threads[me].pc.DeqRead? && threads[me].pc.next == next
      modifies this
      ensures Stepped(start, old(World()), World(), me, schedule, pos)
      ensures pos >= |schedule| ==> Undisturbed(old(World()), World())
      ensures next.To? && threads[me].pc == DeqMove(old(threads[me].pc.curHead), next.id, value)
    {
      var before, weak := Interfere(me, schedule, pos);
      RegistersPoint(World(), me);
      value := nodes[next.id].data;
      Executed(me, schedule, pos, before, start, old(World()));
    }

    method ExchangeHead(curHead: Id, succ: Id, me: nat, schedule: seq<Turn>, pos: nat, ghost start: State)
      returns (ok: bool)
      requires Tracks(start, me, schedule, pos, World())
      requires threads[me].pc.DeqMove? && threads[me].pc.curHead == curHead
          && threads[me].pc.succ == succ
      modifies this
      ensures Stepped(start, old(World()), World(), me, schedule, pos)
      ensures pos >= |schedule| ==>
                Contents() == if ok then After(old(Contents()), old(history.ops[threads[me].op].call))
                  else old(Contents())
      ensures threads[me].pc == if ok then DeqFree(curHead, old(threads[me].pc.ret)) else DeqLoadHead
      ensures pos >= |schedule| && old(head) == curHead ==> ok
      ensures pos >= |schedule| && ok ==> old(Contents()) == [old(threads[me].pc.ret)] + Contents()
    {
      var before, weak := Interfere(me, schedule, pos);
      if head == curHead {
        TakesItsValue(World(), me);
      }
      ok := !weak && head == curHead;
      if ok {
        head := succ;
      }
      Executed(me, schedule, pos, before, start, old(World()));
    }

    method Delete(node: Id, me: nat, schedule: seq<Turn>, pos: nat, ghost start: State)
      requires Tracks(start, me, schedule, pos, World())
      requires threads[me].pc.DeqFree? && threads[me].pc.curHead == node
      modifies this
      ensures Stepped(start, old(World()), World(), me, schedule, pos)
      ensures pos >= |schedule| ==> Contents() == old(Contents())
      ensures threads[me].pc == Done(Got(old(threads[me].pc.ret)))
    {
      var before, weak := Interfere(me, schedule, pos);
      retired := retired + [node];
      Executed(me, schedule, pos, before, start, old(World()));
    }

    method Return(me: nat, schedule: seq<Turn>, pos: nat, ghost start: State)
      requires Tracks(start, me, schedule, pos, World())
      requires threads[me].pc.Done?
      modifies this
      ensures Stepped(start, old(World()), World(), me, schedule, pos)
      ensures pos >= |schedule| ==> Undisturbed(old(World()), World())
      ensures threads[me].pc == Idle
      ensures var o := history.ops[threads[me].op]; o.outcome.Returned? && o.outcome.ret == old(threads[me].pc.result)
    {
      var before, weak := Interfere(me, schedule, pos);
      Executed(me, schedule, pos, before, start, old(World()));
    }

    // ----- The operations -----

    /** One iteration of `enqueue`: links the new node, or helps tail along, or notices that tail moved. */
    method TryLink(newNode: Id, me: nat, schedule: seq<Turn>, pos: nat, ghost start: State)
      returns (linked: bool, curTail: Id, end: nat)
      requires Tracks(start, me, schedule, pos, World())
      requires threads[me].pc == EnqLoadTail(newNode)
      modifies this
      ensures Went(start, old(World()), World(), me, schedule, pos, end)
      ensures threads[me].pc == if linked then EnqSwing(newNode, curTail) else EnqLoadTail(newNode)
      ensures pos >= |schedule| ==>
                Contents() == if linked then After(old(Contents()), history.ops[threads[me].op].call)
                  else old(Contents())
      ensures !linked && pos >= |schedule| ==> Lag(World()) < Lag(old(World()))
    {
      linked := false;
      curTail := LoadTail(me, schedule, pos, start);
      var next := LoadNext(curTail, me, schedule, pos + 1, start);
      var same := TailIs(curTail, me, schedule, pos + 2, start);
      end := pos + 3;
      if same {
        if next == Nil {
          linked := ExchangeNext(curTail, newNode, me, schedule, end, start);
        } else {
          ExchangeTail(curTail, next.id, me, schedule, end, start);
        }
        end := end + 1;
      }
    }

    /** `enqueue`; `end` is how many instructions it took. */
    method Enqueue(me: nat, value: Ptr, schedule: seq<Turn>) returns (end: nat)
      requires Reachable(World()) && me < |threads| && threads[me].pc == Idle && ByOthers(me, schedule)
      modifies this
      ensures World() == Run(old(World()), CallRun(me, QueueSpec.Enqueue(value), schedule, end)) && Reachable(World())
      ensures me < |threads| && threads[me].pc == Idle
      ensures Answered(history, |old(history.ops)|, QueueSpec.Enqueue(value), Unit)
      ensures schedule == [] ==> Contents() == old(Contents()) + [value]
    {
      var newNode := |nodes|;
      var before := Memory();
      nodes := nodes + [Node(value, Nil)];
      Called(me, QueueSpec.Enqueue(value), before);
      end := LinkNode(newNode, me, schedule);
      CallRuns(old(World()), me, QueueSpec.Enqueue(value), schedule, end);
    }

    /** What `enqueue` does once it has its node. */
    method LinkNode(newNode: Id, me: nat, schedule: seq<Turn>) returns (end: nat)
      requires Reachable(World()) && me < |threads| && ByOthers(me, schedule)
      requires threads[me].pc == EnqLoadTail(newNode) && threads[me].op < |history.ops|
      modifies this
      ensures World() == Reached(old(World()), me, schedule, end)
      ensures Kept(old(World()), World(), me) && threads[me].pc == Idle
      ensures Answered(history, threads[me].op, old(history.ops[threads[me].op].call), Unit)
      ensures schedule == [] ==> Contents() == After(old(Contents()), old(history.ops[threads[me].op].call))
    {
      ghost var start := World();
      ghost var call := history.ops[threads[me].op].call;
      var linked, curTail := false, 0;
      end := 0;
      while !linked
        invariant Tracks(start, me, schedule, end, World()) && Kept(start, World(), me)
        invariant threads[me].pc == if linked then EnqSwing(newNode, curTail) else EnqLoadTail(newNode)
        invariant schedule == [] ==>
                    Contents() == if linked then After(Current(start.h), call) else Current(start.h)
        decreases if end < |schedule| then |schedule| - end else 0, !linked, Lag(World())
      {
        linked, curTail, end := TryLink(newNode, me, schedule, end, start);
      }
      ExchangeTail(curTail, newNode, me, schedule, end, start);
      Return(me, schedule, end + 1, start);
      end := end + 2;
    }

    /** The loads of one iteration of `dequeue`. */
    method LookForTake(me: nat, schedule: seq<Turn>, pos: nat, ghost start: State)
      returns (curHead: Id, curTail: Id, next: Link, same: bool)
      requires Tracks(start, me, schedule, pos, World())
      requires threads[me].pc == DeqLoadHead
      modifies this
      ensures Went(start, old(World()), World(), me, schedule, pos, pos + 4)
      ensures threads[me].pc == if !same then DeqLoadHead
                                else if curHead != curTail then DeqRead(curHead, next)
                                else if next == Nil then Done(Got(Null))
                                else DeqHelp(curTail, next.id)
      ensures pos >= |schedule| ==>
                && Undisturbed(old(World()), World())
                && same && curHead == head && curTail == tail && next == Next(Memory(), head)
    {
      curHead := LoadHead(me, schedule, pos, start);
      curTail := LoadTail(me, schedule, pos + 1, start);
      next := LoadNext(curHead, me, schedule, pos + 2, start);
      same := HeadIs(curHead, me, schedule, pos + 3, start);
    }

    /** One iteration of `dequeue`: finds the queue empty, takes the first value, or has to try again. */
    method TryTake(me: nat, schedule: seq<Turn>, pos: nat, ghost start: State) returns (attempt: Attempt, end: nat)
      requires Tracks(start, me, schedule, pos, World())
      requires threads[me].pc == DeqLoadHead
      modifies this
      ensures Went(start, old(World()), World(), me, schedule, pos, end)
      ensures threads[me].pc == match attempt
                                case Again => DeqLoadHead
                                case FoundEmpty => Done(Got(Null))
                                case Took(curHead, ret) => DeqFree(curHead, ret)
      ensures pos >= |schedule| ==>
                match attempt
                case Again => Contents() == old(Contents())
                case FoundEmpty => Contents() == old(Contents()) == []
                case Took(_, ret) => old(Contents()) == [ret] + Contents()
      ensures attempt == Again && pos >= |schedule| ==> Lag(World()) < Lag(old(World()))
    {
      attempt, end := Again, pos + 4;
      var curHead, curTail, next, same := LookForTake(me, schedule, pos, start);
      if same {
        if curHead == curTail {
          if next == Nil {
            NilMeansEmpty(World());
            return FoundEmpty, end;
          }
          ExchangeTail(curTail, next.id, me, schedule, end, start);
          end := end + 1;
        } else {
          attempt := TakeFrom(curHead, next, me, schedule, end, start);
          end := end + 2;
        }
      }
    }

    /** The last branch of that iteration: reads the value and tries to move head. */
    method TakeFrom(curHead: Id, next: Link, me: nat, schedule: seq<Turn>, pos: nat, ghost start: State)
      returns (attempt: Attempt)
      requires Tracks(start, me, schedule, pos, World())
      requires threads[me].pc == DeqRead(curHead, next)
      modifies this
      ensures Went(start, old(World()), World(), me, schedule, pos, pos + 2)
      ensures attempt != FoundEmpty
      ensures threads[me].pc == if attempt == Again then DeqLoadHead else DeqFree(attempt.curHead, attempt.ret)
      ensures pos >= |schedule| ==> if attempt == Again then Contents() == old(Contents())
                                    else old(Contents()) == [attempt.ret] + Contents()
      ensures pos >= |schedule| && old(head) == curHead ==> attempt != Again
    {
      var ret := ReadData(next, me, schedule, pos, start);
      var moved := ExchangeHead(curHead, next.id, me, schedule, pos + 1, start);
      attempt := if moved then Took(curHead, ret) else Again;
    }

    /** `dequeue`; `end` is how many instructions it took. */
    method Dequeue(me: nat, schedule: seq<Turn>) returns (ret: Ptr, end: nat)
      requires Reachable(World()) && me < |threads| && threads[me].pc == Idle && ByOthers(me, schedule)
      modifies this
      ensures World() == Run(old(World()), CallRun(me, QueueSpec.Dequeue, schedule, end)) && Reachable(World())
      ensures me < |threads| && threads[me].pc == Idle
      ensures Answered(history, |old(history.ops)|, QueueSpec.Dequeue, Got(ret))
      ensures schedule == [] ==> Contents() == After(old(Contents()), QueueSpec.Dequeue)
                                 && Got(ret) == Returns(old(Contents()), QueueSpec.Dequeue)
    {
      Called(me, QueueSpec.Dequeue, Memory());
      ret, end := Take(me, schedule);
      CallRuns(old(World()), me, QueueSpec.Dequeue, schedule, end);
    }

    /** What `dequeue` does once it is called. */
    method Take(me: nat, schedule: seq<Turn>) returns (ret: Ptr, end: nat)
      requires Reachable(World()) && me < |threads| && ByOthers(me, schedule)
      requires threads[me].pc == DeqLoadHead && threads[me].op < |history.ops|
      modifies this
      ensures World() == Reached(old(World()), me, schedule, end)
      ensures Kept(old(World()), World(), me) && threads[me].pc == Idle
      ensures Answered(history, threads[me].op, old(history.ops[threads[me].op].call), Got(ret))
      ensures schedule == [] ==>
                if old(Contents()) == [] then ret == Null && Contents() == []
                else old(Contents()) == [ret] + Contents()
    {
      ghost var start := World();
      var attempt;
      attempt, end := TakeUntilDone(me, schedule);
      ret := Null;
      if attempt.Took? {
        Delete(attempt.curHead, me, schedule, end, start);
        ret, end := attempt.ret, end + 1;
      }
      Return(me, schedule, end, start);
      end := end + 1;
    }

    /** The loop of `dequeue`. */
    method TakeUntilDone(me: nat, schedule: seq<Turn>) returns (attempt: Attempt, end: nat)
      requires Reachable(World()) && me < |threads| && ByOthers(me, schedule)
      requires threads[me].pc == DeqLoadHead && threads[me].op < |history.ops|
      modifies this
      ensures Tracks(old(World()), me, schedule, end, World()) && Kept(old(World()), World(), me)
      ensures match attempt
              case Again => false
              case FoundEmpty => threads[me].pc == Done(Got(Null))
              case Took(curHead, ret) => threads[me].pc == DeqFree(curHead, ret)
      ensures schedule == [] ==>
                match attempt
                case Again => false
                case FoundEmpty => Contents() == old(Contents()) == []
                case Took(_, ret) => old(Contents()) == [ret] + Contents()
    {
      ghost var start := World();
      attempt, end := Again, 0;
      while attempt == Again
        invariant Tracks(start, me, schedule, end, World()) && Kept(start, World(), me)
        invariant threads[me].pc == match attempt
                                    case Again => DeqLoadHead
                                    case FoundEmpty => Done(Got(Null))
                                    case Took(curHead, ret) => DeqFree(curHead, ret)
        invariant schedule == [] ==>
                    match attempt
                    case Again => Contents() == Current(start.h)
                    case FoundEmpty => Contents() == Current(start.h) == []
                    case Took(_, ret) => Current(start.h) == [ret] + Contents()
        decreases if end < |schedule| then |schedule| - end else 0, attempt == Again, Lag(World())
      {
        attempt, end := TryTake(me, schedule, end, start);
      }
    }

    /** The loads of `empty`. */
    method LookForEmpty(me: nat, schedule: seq<Turn>, ghost start: State) returns (isEmpty: bool)
      requires Tracks(start, me, schedule, 0, World())
      requires threads[me].pc == EmpLoadHead
      modifies this
      ensures Went(start, old(World()), World(), me, schedule, 0, 3)
      ensures threads[me].pc == Done(Flag(isEmpty))
      ensures schedule == [] ==> Undisturbed(old(World()), World()) && isEmpty == (Contents() == [])
    {
      var h := LoadHead(me, schedule, 0, start);
      assert threads[me].pc == EmpLoadTail(h);
      isEmpty := LookOnForEmpty(h, me, schedule, start);
      EmptyIsRight(World());
    }

    method LookOnForEmpty(h: Id, me: nat, schedule: seq<Turn>, ghost start: State) returns (isEmpty: bool)
      requires Tracks(start, me, schedule, 1, World())
      requires threads[me].pc == EmpLoadTail(h)
      modifies this
      ensures Went(start, old(World()), World(), me, schedule, 1, 3)
      ensures threads[me].pc == Done(Flag(isEmpty))
      ensures schedule == [] ==>
                Undisturbed(old(World()), World()) && isEmpty == (h == tail && Next(Memory(), h) == Nil)
    {
      var t := LoadTail(me, schedule, 1, start);
      var next := LoadNext(h, me, schedule, 2, start);
      isEmpty := h == t && next == Nil;
    }

    /** `empty`. */
    method Empty(me: nat, schedule: seq<Turn>) returns (isEmpty: bool)
      requires Reachable(World()) && me < |threads| && threads[me].pc == Idle && ByOthers(me, schedule)
      modifies this
      ensures World() == Run(old(World()), CallRun(me, IsEmpty, schedule, 4)) && Reachable(World())
      ensures me < |threads| && threads[me].pc == Idle
      ensures Answered(history, |old(history.ops)|, IsEmpty, Flag(isEmpty))
      ensures schedule == [] ==> Contents() == old(Contents()) && isEmpty == (Contents() == [])
    {
      Called(me, IsEmpty, Memory());
      ghost var start := World();
      isEmpty := LookForEmpty(me, schedule, start);
      Return(me, schedule, 3, start);
      CallRuns(old(World()), me, IsEmpty, schedule, 4);
    }

    /** The destructor, when no operation is running: deletes the remaining nodes, so that every
        node ever allocated, the dummy and one per `enqueue`, has been deleted exactly once. */
    method Destroy()
      requires Reachable(World()) && Quiescent(World())
      modifies this`retired
      ensures Distinct(retired) && forall id: Id :: id in retired <==> id < |nodes|
      ensures |nodes| == 1 + Count(history.ops, IS_ENQUEUE)
    {
      EveryNodeOnce(World());
      RemainingLinked(World());
      ghost var remaining, mem := Remaining(Memory(), history), Memory();
      ghost var deleted := 0;
      var current := To(head);
      while current.To?
        invariant deleted <= |remaining|
        invariant retired == old(retired) + remaining[..deleted]
        invariant current == if deleted < |remaining| then To(remaining[deleted]) else Nil
        decreases |remaining| - deleted
      {
        var tmp := current.id;
        assert mem.nodes == nodes;
        current := nodes[tmp].next;
        retired := retired + [tmp];
        deleted := deleted + 1;
      }
      assert remaining[..deleted] == remaining;
    }
  }
}

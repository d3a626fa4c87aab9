/** `LockFreeQueue` as a transition system. Every atomic load and every compare-and-swap of
    the source is one step, and the steps of any number of threads interleave freely. */
module QueueMachine {
  import opened QueueSpec

  /** A node's address. Addresses come from a growing store and are never reused. */
  type Id = nat

  datatype Link = Nil | To(id: Id)

  datatype Node = Node(data: Ptr, next: Link)

  /** The shared memory: `retired` lists the nodes handed to `delete`, in order. */
  datatype Mem = Mem(nodes: seq<Node>, head: Id, tail: Id, retired: seq<Id>)

  /** A program counter together with the registers that are live there. */
  datatype Pc =
    | Idle
    | EnqLoadTail(node: Id)
    | EnqLoadNext(node: Id, curTail: Id)
    | EnqCheck(node: Id, curTail: Id, next: Link)
    | EnqLink(node: Id, curTail: Id)
    | EnqHelp(node: Id, curTail: Id, succ: Id)
    | EnqSwing(node: Id, curTail: Id)
    | DeqLoadHead
    | DeqLoadTail(curHead: Id)
    | DeqLoadNext(curHead: Id, curTail: Id)
    | DeqCheck(curHead: Id, curTail: Id, next: Link)
    | DeqHelp(curTail: Id, succ: Id)
    | DeqRead(curHead: Id, next: Link)
    | DeqMove(curHead: Id, succ: Id, ret: Ptr)
    | DeqFree(curHead: Id, ret: Ptr)
    | EmpLoadHead
    | EmpLoadTail(curHead: Id)
    | EmpLoadNext(curHead: Id, curTail: Id)
    | Done(result: Ret)

  function Next(m: Mem, id: Id): Link {
    if id < |m.nodes| then m.nodes[id].next else Nil
  }

  function Data(m: Mem, id: Id): Ptr {
    if id < |m.nodes| then m.nodes[id].data else Null
  }

  function SetNext(m: Mem, id: Id, to: Id): Mem {
    if id < |m.nodes| then m.(nodes := m.nodes[id := m.nodes[id].(next := To(to))]) else m
  }

  /** `tail.compare_exchange_weak(expected, desired)`: a weak exchange may fail although it matches. */
  function CasTail(m: Mem, expected: Id, desired: Id, weak: bool): Mem {
    if !weak && m.tail == expected then m.(tail := desired) else m
  }

  /** Allocation of a node and the jump to the first instruction of the call's loop. */
  function Begin(m: Mem, c: Call): (Mem, Pc) {
    match c
    case Enqueue(v) => (m.(nodes := m.nodes + [Node(v, Nil)]), EnqLoadTail(|m.nodes|))
    case Dequeue => (m, DeqLoadHead)
    case IsEmpty => (m, EmpLoadHead)
  }

  /** One instruction of a thread. `weak` makes a compare-and-swap fail spuriously. */
  function Exec(m: Mem, pc: Pc, weak: bool): (Mem, Pc) {
    match pc
    case Idle => (m, Idle)
    case EnqLoadTail(node) => (m, EnqLoadNext(node, m.tail))
    case EnqLoadNext(node, curTail) => (m, EnqCheck(node, curTail, Next(m, curTail)))
    case EnqCheck(node, curTail, next) =>
      if curTail != m.tail then (m, EnqLoadTail(node))
      else if next == Nil then (m, EnqLink(node, curTail))
      else (m, EnqHelp(node, curTail, next.id))
    case EnqLink(node, curTail) =>
      if !weak && Next(m, curTail) == Nil then (SetNext(m, curTail, node), EnqSwing(node, curTail))
      else (m, EnqLoadTail(node))
    case EnqHelp(node, curTail, succ) => (CasTail(m, curTail, succ, weak), EnqLoadTail(node))
    case EnqSwing(node, curTail) => (CasTail(m, curTail, node, weak), Done(Unit))
    case DeqLoadHead => (m, DeqLoadTail(m.head))
    case DeqLoadTail(curHead) => (m, DeqLoadNext(curHead, m.tail))
    case DeqLoadNext(curHead, curTail) => (m, DeqCheck(curHead, curTail, Next(m, curHead)))
    case DeqCheck(curHead, curTail, next) =>
      if curHead != m.head then (m, DeqLoadHead)
      else if curHead == curTail then
        if next == Nil then (m, Done(Got(Null))) else (m, DeqHelp(curTail, next.id))
      else (m, DeqRead(curHead, next))
    case DeqHelp(curTail, succ) => (CasTail(m, curTail, succ, weak), DeqLoadHead)
    case DeqRead(curHead, next) =>
      // A null `next` would be dereferenced here; `NeverReadsNull` shows there is none.
      if next == Nil then (m, pc) else (m, DeqMove(curHead, next.id, Data(m, next.id)))
    case DeqMove(curHead, succ, ret) =>
      if !weak && m.head == curHead then (m.(head := succ), DeqFree(curHead, ret)) else (m, DeqLoadHead)
    case DeqFree(curHead, ret) => (m.(retired := m.retired + [curHead]), Done(Got(ret)))
    case EmpLoadHead => (m, EmpLoadTail(m.head))
    case EmpLoadTail(h) => (m, EmpLoadNext(h, m.tail))
    case EmpLoadNext(h, t) => (m, Done(Flag(h == t && Next(m, h) == Nil)))
    case Done(_) => (m, Idle)
  }

  // ----- History -----
  // Everything below is recorded for the proofs. `Exec` and `Begin` do not take it as an argument.

  /** When an operation takes effect: not yet, by looking at the contents before step `at`,
      or by changing the contents in step `at`. */
  datatype Lin = NotYet | Observes(at: nat) | Acts(at: nat)

  datatype Outcome = Pending | Returned(ret: Ret, at: nat)

  /** One operation. `loops` counts entries of its retry loop, `fails` its spurious failures,
      `base` and `mark` are the successful exchanges before its call and before its current loop. */
  datatype Op = Op(call: Call, invoked: nat, lin: Lin, outcome: Outcome,
                   loops: nat, fails: nat, base: nat, mark: nat)

  datatype Actor = Nobody | Actor(op: nat)

  /** `chain`: the nodes ever linked, in order; `rank`: its inverse; `wins`: successful exchanges;
      `log[k]`: the abstract contents after k steps; `who[k]`: the operation that changed them in step k. */
  datatype Hist = Hist(chain: seq<Id>, rank: map<Id, nat>, wins: nat,
                       ops: seq<Op>, log: seq<seq<Ptr>>, who: seq<Actor>)

  datatype Thread = Thread(pc: Pc, op: nat)

  datatype State = State(mem: Mem, threads: seq<Thread>, h: Hist)

  datatype Move = Invoke(t: nat, call: Call) | Advance(t: nat, weak: bool)

  function Init(n: nat): State {
    State(Mem([Node(Null, Nil)], 0, 0, []), seq(n, _ => Thread(Idle, 0)),
          Hist([0], map[0 := 0], 0, [], [[]], []))
  }

  function Now(h: Hist): nat { |h.who| }

  function Current(h: Hist): seq<Ptr> { if h.log == [] then [] else h.log[|h.log| - 1] }

  /** The first moment at or after `from` when the queue held something. */
  function FirstNonEmpty(log: seq<seq<Ptr>>, from: nat): (k: nat)
    ensures (exists j :: from <= j < |log| && log[j] != []) ==> from <= k < |log| && log[k] != []
    decreases |log| - from
  {
    if from >= |log| || log[from] != [] then from else FirstNonEmpty(log, from + 1)
  }

  predicate IsCas(pc: Pc) {
    pc.EnqLink? || pc.EnqHelp? || pc.EnqSwing? || pc.DeqHelp? || pc.DeqMove?
  }

  predicate StartsLoop(pc: Pc) { pc.EnqLoadTail? || pc.DeqLoadHead? }

  /** Whether the instruction just executed is where its operation changes the contents. */
  predicate Changes(pc: Pc, pc': Pc) {
    (pc.EnqLink? && pc'.EnqSwing?) || (pc.DeqMove? && pc'.DeqFree?)
  }

  function LinAfter(h: Hist, o: Op, pc: Pc, pc': Pc): Lin {
    if Changes(pc, pc') then Acts(Now(h))
    else if pc.DeqLoadNext? then if pc'.DeqCheck? && pc'.next == Nil then Observes(Now(h)) else NotYet
    else if pc.DeqCheck? then if pc'.Done? then o.lin else NotYet
    else if pc.EmpLoadNext? then
      if pc' == Done(Flag(true)) then Observes(Now(h)) else Observes(FirstNonEmpty(h.log, o.invoked + 1))
    else o.lin
  }

  function OpAfter(h: Hist, o: Op, pc: Pc, pc': Pc, weak: bool): Op {
    o.(lin := LinAfter(h, o, pc, pc'),
       outcome := if pc.Done? then Returned(pc.result, Now(h)) else o.outcome,
       loops := if StartsLoop(pc) then o.loops + 1 else o.loops,
       fails := if weak && IsCas(pc) then o.fails + 1 else o.fails,
       mark := if StartsLoop(pc) then h.wins else o.mark)
  }

  /** A compare-and-swap succeeded exactly when it changed the shared memory. */
  predicate Won(m: Mem, m': Mem) { m.head != m'.head || m.tail != m'.tail || m.nodes != m'.nodes }

  function Record(h: Hist, i: nat, m: Mem, m': Mem, pc: Pc, pc': Pc, weak: bool): Hist
    requires i < |h.ops|
  {
    Hist(if pc.EnqLink? && pc'.EnqSwing? then h.chain + [pc.node] else h.chain,
         if pc.EnqLink? && pc'.EnqSwing? then h.rank[pc.node := |h.chain|] else h.rank,
         if Won(m, m') then h.wins + 1 else h.wins,
         h.ops[i := OpAfter(h, h.ops[i], pc, pc', weak)],
         h.log + [if Changes(pc, pc') then After(Current(h), h.ops[i].call) else Current(h)],
         h.who + [if Changes(pc, pc') then Actor(i) else Nobody])
  }

  /** A move that is not possible (no such thread, a call by a busy thread, no call to advance) changes nothing. */
  function Step(s: State, mv: Move): State {
    if mv.t >= |s.threads| then s
    else
      var th := s.threads[mv.t];
      match mv
      case Invoke(t, c) =>
        if th.pc != Idle then s
        else
          var (m', pc') := Begin(s.mem, c);
          var o := Op(c, Now(s.h), NotYet, Pending, 0, 0, s.h.wins, s.h.wins);
          State(m', s.threads[t := Thread(pc', |s.h.ops|)],
                s.h.(ops := s.h.ops + [o], log := s.h.log + [Current(s.h)], who := s.h.who + [Nobody]))
      case Advance(t, weak) =>
        if th.pc == Idle || th.op >= |s.h.ops| then s
        else
          var (m', pc') := Exec(s.mem, th.pc, weak);
          State(m', s.threads[t := th.(pc := pc')], Record(s.h, th.op, s.mem, m', th.pc, pc', weak))
  }

  function Run(s: State, moves: seq<Move>): State
    decreases |moves|
  {
    if moves == [] then s else Run(Step(s, moves[0]), moves[1..])
  }

  lemma {:induction false} RunAppend(s: State, a: seq<Move>, b: seq<Move>)
    ensures Run(s, a + b) == Run(Run(s, a), b)
    decreases |a|
  {
    if a == [] {
      assert a + b == b;
    } else {
      assert (a + b)[1..] == a[1..] + b;
      RunAppend(Step(s, a[0]), a[1..], b);
    }
  }
}

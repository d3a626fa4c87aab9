/** What every reachable state of the queue satisfies, and the proof that each step keeps it. */
module QueueInvariant {
  import opened QueueSpec
  import opened QueueMachine

  // ----- Shape of the shared memory -----

  ghost predicate Before(h: Hist, a: Id, b: Id) {
    a in h.rank && b in h.rank && h.rank[a] <= h.rank[b]
  }

  ghost predicate Follows(h: Hist, a: Id, b: Id) {
    a in h.rank && b in h.rank && h.rank[b] == h.rank[a] + 1
  }

  ghost predicate Last(h: Hist, a: Id) {
    a in h.rank && h.rank[a] == |h.chain| - 1
  }

  /** Allocated by an `enqueue` that has not linked it yet. */
  ghost predicate Unlinked(m: Mem, h: Hist, id: Id) {
    id < |m.nodes| && id !in h.rank
  }

  ghost predicate ChainOk(m: Mem, h: Hist) {
    && (forall i :: 0 <= i < |h.chain| ==> h.chain[i] in h.rank && h.rank[h.chain[i]] == i)
    && (forall id {:trigger id in h.rank} :: id in h.rank ==>
          id < |m.nodes| && h.rank[id] < |h.chain| && h.chain[h.rank[id]] == id)
  }

  /** The links follow the chain: one acyclic list, every node pointing to the next linked one. */
  ghost predicate LinksOk(m: Mem, h: Hist) {
    forall id {:trigger m.nodes[id]} :: 0 <= id < |m.nodes| ==>
      && (m.nodes[id].next == Nil <==> id !in h.rank || Last(h, id))
      && (m.nodes[id].next.To? ==> Follows(h, id, m.nodes[id].next.id))
  }

  /** Head never passes tail, and tail is the last node or the one before it. */
  ghost predicate EndsOk(m: Mem, h: Hist) {
    && Before(h, m.head, m.tail)
    && |h.chain| <= h.rank[m.tail] + 2
    && h.wins == |h.chain| - 1 + h.rank[m.tail] + h.rank[m.head]
  }

  ghost predicate Shape(m: Mem, h: Hist) {
    ChainOk(m, h) && LinksOk(m, h) && EndsOk(m, h)
  }

  /** The abstract contents are the data of the nodes after head, in chain order. */
  ghost predicate ContentsOk(m: Mem, h: Hist)
    requires Shape(m, h)
  {
    && |Current(h)| == |h.chain| - 1 - h.rank[m.head]
    && forall i :: 0 <= i < |Current(h)| ==> Current(h)[i] == m.nodes[h.chain[h.rank[m.head] + 1 + i]].data
  }

  // ----- The recorded operations -----

  /** The contents change only where an operation acts, and there as the call specifies. */
  ghost predicate LogOk(h: Hist) {
    && |h.log| == |h.who| + 1
    && h.log[0] == []
    && forall k {:trigger h.who[k]} :: 0 <= k < |h.who| ==>
         match h.who[k]
         case Nobody => h.log[k + 1] == h.log[k]
         case Actor(i) => i < |h.ops| && h.ops[i].lin == Acts(k) && h.log[k + 1] == After(h.log[k], h.ops[i].call)
  }

  ghost predicate OpOk(h: Hist, i: nat)
    requires i < |h.ops|
  {
    var o := h.ops[i];
    && o.invoked < |h.who|
    && (o.lin.Observes? ==> o.invoked < o.lin.at < |h.who| && |h.log| > o.lin.at
                            && After(h.log[o.lin.at], o.call) == h.log[o.lin.at])
    && (o.lin.Acts? ==> o.invoked < o.lin.at < |h.who| && h.who[o.lin.at] == Actor(i))
    && (o.outcome.Returned? ==>
          && o.lin != NotYet && o.lin.at <= o.outcome.at < |h.who|
          && |h.log| > o.lin.at
          && Returns(h.log[o.lin.at], o.call) == o.outcome.ret)
    && o.base <= o.mark <= h.wins
    && o.loops <= 1 + (h.wins - o.base) + o.fails
  }

  ghost predicate OpsOk(h: Hist) {
    forall i :: 0 <= i < |h.ops| ==> OpOk(h, i)
  }

  ghost predicate RetiredBefore(m: Mem, h: Hist)
    requires Shape(m, h)
  {
    forall i :: 0 <= i < |m.retired| ==> m.retired[i] in h.rank && h.rank[m.retired[i]] < h.rank[m.head]
  }

  // ----- What a thread knows at each instruction -----

  /** An exchange by some thread succeeded since this loop iteration began. */
  ghost predicate Overtaken(h: Hist, o: Op) { o.mark < h.wins }

  ghost predicate SeenNonEmpty(h: Hist, from: nat) {
    exists k :: from < k < |h.log| && h.log[k] != []
  }

  ghost predicate EnqNode(m: Mem, h: Hist, o: Op, node: Id) {
    Unlinked(m, h, node) && o.call == Enqueue(m.nodes[node].data) && o.lin == NotYet
  }

  /** A register that was loaded from `tail` in this iteration. */
  ghost predicate TailReg(m: Mem, h: Hist, o: Op, curTail: Id) {
    Before(h, curTail, m.tail) && (curTail == m.tail || Overtaken(h, o))
  }

  /** A register that was loaded from `head` in this iteration. */
  ghost predicate HeadReg(m: Mem, h: Hist, o: Op, curHead: Id) {
    Before(h, curHead, m.head) && (curHead == m.head || Overtaken(h, o))
  }

  ghost predicate LoopBound(h: Hist, o: Op, pc: Pc) {
    if StartsLoop(pc) then o.loops <= h.wins - o.base + o.fails
    else o.loops <= 1 + (o.mark - o.base) + o.fails
  }

  /** The registers of an `enqueue` at `pc`, working for operation `o`. */
  ghost predicate EnqOk(m: Mem, h: Hist, o: Op, pc: Pc)
    requires Shape(m, h)
  {
    match pc
    case EnqLoadTail(node) => EnqNode(m, h, o, node)
    case EnqLoadNext(node, curTail) => EnqNode(m, h, o, node) && TailReg(m, h, o, curTail)
    case EnqCheck(node, curTail, next) =>
      EnqNode(m, h, o, node) && TailReg(m, h, o, curTail)
      && (if next == Nil then m.nodes[curTail].next == Nil || Overtaken(h, o) else Follows(h, curTail, next.id))
    case EnqLink(node, curTail) =>
      EnqNode(m, h, o, node) && Before(h, curTail, m.tail) && (m.nodes[curTail].next == Nil || Overtaken(h, o))
    case EnqHelp(node, curTail, succ) =>
      EnqNode(m, h, o, node) && TailReg(m, h, o, curTail) && Follows(h, curTail, succ)
    case EnqSwing(node, curTail) =>
      o.call.Enqueue? && o.lin.Acts? && Before(h, curTail, m.tail) && Follows(h, curTail, node)
    case _ => true
  }

  /** The registers of a `dequeue`. */
  ghost predicate DeqOk(m: Mem, h: Hist, o: Op, pc: Pc)
    requires Shape(m, h)
  {
    match pc
    case DeqLoadHead => o.call == Dequeue && o.lin == NotYet
    case DeqLoadTail(curHead) => o.call == Dequeue && o.lin == NotYet && HeadReg(m, h, o, curHead)
    case DeqLoadNext(curHead, curTail) =>
      o.call == Dequeue && o.lin == NotYet && HeadReg(m, h, o, curHead)
      && Before(h, curHead, curTail) && TailReg(m, h, o, curTail)
    case DeqCheck(curHead, curTail, next) =>
      o.call == Dequeue && HeadReg(m, h, o, curHead)
      && Before(h, curHead, curTail) && TailReg(m, h, o, curTail)
      && (if next == Nil then curHead == curTail && o.lin.Observes? && |h.log| > o.lin.at && h.log[o.lin.at] == []
          else Follows(h, curHead, next.id) && o.lin == NotYet)
    case DeqHelp(curTail, succ) =>
      o.call == Dequeue && o.lin == NotYet && TailReg(m, h, o, curTail) && Follows(h, curTail, succ)
    case DeqRead(curHead, next) =>
      o.call == Dequeue && o.lin == NotYet && HeadReg(m, h, o, curHead)
      && next.To? && Follows(h, curHead, next.id) && Before(h, next.id, m.tail)
    case DeqMove(curHead, succ, ret) =>
      o.call == Dequeue && o.lin == NotYet && HeadReg(m, h, o, curHead)
      && Follows(h, curHead, succ) && Before(h, succ, m.tail) && m.nodes[succ].data == ret
    case DeqFree(curHead, ret) =>
      o.call == Dequeue && o.lin.Acts? && |h.log| > o.lin.at
      && Returns(h.log[o.lin.at], Dequeue) == Got(ret)
      && curHead in h.rank && h.rank[curHead] < h.rank[m.head] && curHead !in m.retired
    case _ => true
  }

  /** The registers of an `empty`: its head was the last node, or the queue held something since the call. */
  ghost predicate EmpOk(m: Mem, h: Hist, o: Op, pc: Pc)
    requires Shape(m, h)
  {
    match pc
    case EmpLoadHead => o.call == IsEmpty && o.lin == NotYet
    case EmpLoadTail(a) =>
      o.call == IsEmpty && o.lin == NotYet && Before(h, a, m.head) && (Last(h, a) || SeenNonEmpty(h, o.invoked))
    case EmpLoadNext(a, t) =>
      o.call == IsEmpty && o.lin == NotYet && Before(h, a, m.head) && (Last(h, a) || SeenNonEmpty(h, o.invoked))
      && Before(h, a, t) && Before(h, t, m.tail)
    case Done(r) => o.lin != NotYet && |h.log| > o.lin.at && Returns(h.log[o.lin.at], o.call) == r
    case _ => true
  }

  ghost predicate PcOk(m: Mem, h: Hist, o: Op, pc: Pc)
    requires Shape(m, h)
  {
    EnqOk(m, h, o, pc) && DeqOk(m, h, o, pc) && EmpOk(m, h, o, pc)
  }

  ghost predicate ThreadOk(s: State, t: nat)
    requires Shape(s.mem, s.h) && t < |s.threads|
  {
    var th := s.threads[t];
    th.pc != Idle ==>
      && th.op < |s.h.ops|
      && s.h.ops[th.op].outcome == Pending
      && LoopBound(s.h, s.h.ops[th.op], th.pc)
      && PcOk(s.mem, s.h, s.h.ops[th.op], th.pc)
  }

  ghost predicate ThreadsOk(s: State)
    requires Shape(s.mem, s.h)
  {
    forall t :: 0 <= t < |s.threads| ==> ThreadOk(s, t)
  }

  ghost predicate HasNode(pc: Pc) {
    pc.EnqLoadTail? || pc.EnqLoadNext? || pc.EnqCheck? || pc.EnqLink? || pc.EnqHelp?
  }

  /** Two threads never share an operation, an unlinked node, or a node to delete. */
  ghost predicate Apart(a: Thread, b: Thread) {
    && (a.pc != Idle && b.pc != Idle ==> a.op != b.op)
    && (HasNode(a.pc) && HasNode(b.pc) ==> a.pc.node != b.pc.node)
    && (a.pc.DeqFree? && b.pc.DeqFree? ==> a.pc.curHead != b.pc.curHead)
  }

  ghost predicate ThreadsApart(s: State) {
    forall t, u :: 0 <= t < |s.threads| && 0 <= u < |s.threads| && t != u ==> Apart(s.threads[t], s.threads[u])
  }

  // ----- Deletion -----

  ghost predicate Retiring(s: State, id: Id) {
    exists t :: 0 <= t < |s.threads| && s.threads[t].pc.DeqFree? && s.threads[t].pc.curHead == id
  }

  /** Exactly the nodes before head are deleted or about to be, each once. */
  ghost predicate RetiredOk(s: State)
    requires Shape(s.mem, s.h)
  {
    && (forall i, j :: 0 <= i < j < |s.mem.retired| ==> s.mem.retired[i] != s.mem.retired[j])
    && RetiredBefore(s.mem, s.h)
    && (forall id :: id in s.h.rank && s.h.rank[id] < s.h.rank[s.mem.head] ==>
          id in s.mem.retired || Retiring(s, id))
  }

  /** A pending operation belongs to a thread, an allocated node is linked or belongs to a thread. */
  ghost predicate Owned(s: State) {
    && (forall i :: 0 <= i < |s.h.ops| && s.h.ops[i].outcome == Pending ==>
          exists t :: 0 <= t < |s.threads| && s.threads[t].pc != Idle && s.threads[t].op == i)
    && (forall id :: 0 <= id < |s.mem.nodes| && id !in s.h.rank ==>
          exists t :: 0 <= t < |s.threads| && HasNode(s.threads[t].pc) && s.threads[t].pc.node == id)
  }

  ghost predicate Inv(s: State) {
    && Shape(s.mem, s.h)
    && ContentsOk(s.mem, s.h)
    && LogOk(s.h)
    && OpsOk(s.h)
    && ThreadsOk(s)
    && ThreadsApart(s)
    && RetiredOk(s)
    && Owned(s)
  }

  lemma InitInv(n: nat)
    ensures Inv(Init(n))
  {
  }

  // ----- How one step may change the state -----

  /** The memory and the history of the queue only grow in a step. */
  ghost predicate Grows(m: Mem, h: Hist, m': Mem, h': Hist)
    requires Shape(m, h) && Shape(m', h')
  {
    && |m.nodes| <= |m'.nodes|
    && (forall id :: 0 <= id < |m.nodes| ==>
          && m'.nodes[id].data == m.nodes[id].data
          && (m'.nodes[id].next == m.nodes[id].next || h.wins < h'.wins))
    && (forall id {:trigger id in h.rank} :: id in h.rank ==> id in h'.rank && h'.rank[id] == h.rank[id])
    && |h.chain| <= |h'.chain|
    && (|h.chain| < |h'.chain| ==> Current(h') != [])
    && h.rank[m.head] <= h'.rank[m'.head]
    && h.rank[m.tail] <= h'.rank[m'.tail]
    && h.wins <= h'.wins
    && (m'.head != m.head || m'.tail != m.tail ==> h.wins < h'.wins)
    && |h'.log| == |h.log| + 1 && |h'.who| == |h.who| + 1
    && (forall k :: 0 <= k < |h.log| ==> h'.log[k] == h.log[k])
    && (forall k :: 0 <= k < |h.who| ==> h'.who[k] == h.who[k])
  }

  lemma SeenStays(h: Hist, h': Hist, from: nat)
    requires SeenNonEmpty(h, from)
    requires |h.log| <= |h'.log| && forall k :: 0 <= k < |h.log| ==> h'.log[k] == h.log[k]
    ensures SeenNonEmpty(h', from)
  {
    var k :| from < k < |h.log| && h.log[k] != [];
    assert h'.log[k] != [];
  }

  lemma EnqStays(m: Mem, h: Hist, m': Mem, h': Hist, o: Op, pc: Pc)
    requires Shape(m, h) && Shape(m', h') && Grows(m, h, m', h')
    requires EnqOk(m, h, o, pc) && o.mark <= h.wins
    requires HasNode(pc) ==> pc.node !in h'.rank
    ensures EnqOk(m', h', o, pc)
  {
  }

  lemma DeqStays(m: Mem, h: Hist, m': Mem, h': Hist, o: Op, pc: Pc)
    requires Shape(m, h) && Shape(m', h') && Grows(m, h, m', h')
    requires DeqOk(m, h, o, pc) && o.mark <= h.wins
    requires pc.DeqFree? ==> pc.curHead !in m'.retired
    ensures DeqOk(m', h', o, pc)
  {
  }

  lemma EmpStays(m: Mem, h: Hist, m': Mem, h': Hist, o: Op, pc: Pc)
    requires Shape(m, h) && Shape(m', h') && Grows(m, h, m', h')
    requires EmpOk(m, h, o, pc) && o.invoked < |h.who| && |h.log| == |h.who| + 1
    ensures EmpOk(m', h', o, pc)
  {
    if pc.EmpLoadTail? || pc.EmpLoadNext? {
      if SeenNonEmpty(h, o.invoked) {
        SeenStays(h, h', o.invoked);
      } else if |h.chain| < |h'.chain| {
        assert h'.log[|h'.log| - 1] != [];
      }
    }
  }

  ghost predicate Linking(s: State, t: nat, id: Id)
    requires t < |s.threads|
  {
    s.threads[t].pc.EnqLink? && s.threads[t].pc.node == id
  }

  ghost predicate Deleting(s: State, t: nat, id: Id)
    requires t < |s.threads|
  {
    s.threads[t].pc.DeqFree? && s.threads[t].pc.curHead == id
  }

  ghost predicate Working(s: State, t: nat, i: nat)
    requires t < |s.threads|
  {
    s.threads[t].pc != Idle && s.threads[t].op == i
  }

  /** Everything another thread relies on when `t` takes the step from `s` to `s'`. */
  ghost predicate Extends(s: State, s': State, t: nat)
    requires Shape(s.mem, s.h) && Shape(s'.mem, s'.h) && t < |s.threads|
  {
    && Grows(s.mem, s.h, s'.mem, s'.h)
    && |s'.threads| == |s.threads|
    && (forall u :: 0 <= u < |s.threads| && u != t ==> s'.threads[u] == s.threads[u])
    && (forall id :: id in s'.h.rank && id !in s.h.rank ==> Linking(s, t, id))
    && (forall id :: id in s'.mem.retired && id !in s.mem.retired ==> Deleting(s, t, id))
    && |s.h.ops| <= |s'.h.ops|
    && (forall i :: 0 <= i < |s.h.ops| && !Working(s, t, i) ==> s'.h.ops[i] == s.h.ops[i])
  }

  /** A step of `t` leaves what another thread `u` knows true. */
  lemma OtherThread(s: State, s': State, t: nat, u: nat)
    requires Shape(s.mem, s.h) && Shape(s'.mem, s'.h) && t < |s.threads| && u < |s.threads| && t != u
    requires ThreadOk(s, u) && Apart(s.threads[u], s.threads[t]) && LogOk(s.h) && OpsOk(s.h)
    requires Extends(s, s', t)
    ensures ThreadOk(s', u)
  {
    var th := s.threads[u];
    if th.pc != Idle {
      assert OpOk(s.h, th.op);
      assert !Working(s, t, th.op);
      assert HasNode(th.pc) ==> !Linking(s, t, th.pc.node);
      assert th.pc.DeqFree? ==> !Deleting(s, t, th.pc.curHead);
      EnqStays(s.mem, s.h, s'.mem, s'.h, s.h.ops[th.op], th.pc);
      DeqStays(s.mem, s.h, s'.mem, s'.h, s.h.ops[th.op], th.pc);
      EmpStays(s.mem, s.h, s'.mem, s'.h, s.h.ops[th.op], th.pc);
    }
  }

  // ----- The memory side of a step -----

  /** What the three memory-changing instructions have in common. */
  ghost predicate Appends(h: Hist, h': Hist, current: seq<Ptr>) {
    && |h.log| == |h.who| + 1
    && (exists a :: h'.who == h.who + [a])
    && h'.log == h.log + [current]
  }

  ghost predicate MemoryOk(m: Mem, h: Hist, m': Mem, h': Hist) {
    Shape(m, h) && Shape(m', h') && ContentsOk(m', h') && Grows(m, h, m', h')
  }

  /** The exchange of `next` links the new node after the last one. */
  lemma LinkMemory(m: Mem, h: Hist, m': Mem, h': Hist, node: Id, curTail: Id)
    requires Shape(m, h) && ContentsOk(m, h) && Unlinked(m, h, node)
    requires curTail in h.rank && Before(h, curTail, m.tail) && m.nodes[curTail].next == Nil
    requires m' == SetNext(m, curTail, node)
    requires h'.chain == h.chain + [node] && h'.rank == h.rank[node := |h.chain|] && h'.wins == h.wins + 1
    requires Appends(h, h', Current(h) + [m.nodes[node].data])
    ensures MemoryOk(m, h, m', h')
  {
    assert Last(h, curTail);
    assert m.tail == curTail by {
      assert h.chain[h.rank[m.tail]] == m.tail;
      assert h.chain[h.rank[curTail]] == curTail;
    }
    assert m.nodes[node].next == Nil;
    LinkLinks(m, h, m', h', node, curTail);
    assert ContentsOk(m', h');
  }

  lemma LinkLinks(m: Mem, h: Hist, m': Mem, h': Hist, node: Id, curTail: Id)
    requires ChainOk(m, h) && LinksOk(m, h) && Unlinked(m, h, node) && Last(h, curTail)
    requires m.nodes[node].next == Nil
    requires m' == SetNext(m, curTail, node)
    requires h'.chain == h.chain + [node] && h'.rank == h.rank[node := |h.chain|]
    ensures ChainOk(m', h') && LinksOk(m', h')
  {
  }

  /** The exchange of `tail` moves it to its successor. */
  lemma TailMemory(m: Mem, h: Hist, m': Mem, h': Hist, succ: Id)
    requires Shape(m, h) && ContentsOk(m, h) && Follows(h, m.tail, succ)
    requires m' == m.(tail := succ)
    requires h'.chain == h.chain && h'.rank == h.rank && h'.wins == h.wins + 1
    requires Appends(h, h', Current(h))
    ensures MemoryOk(m, h, m', h')
  {
  }

  /** The exchange of `head` moves it to its successor. */
  lemma HeadMemory(m: Mem, h: Hist, m': Mem, h': Hist, succ: Id)
    requires Shape(m, h) && ContentsOk(m, h) && Follows(h, m.head, succ) && Before(h, succ, m.tail)
    requires m' == m.(head := succ)
    requires h'.chain == h.chain && h'.rank == h.rank && h'.wins == h.wins + 1
    requires Appends(h, h', After(Current(h), Dequeue))
    ensures MemoryOk(m, h, m', h')
    ensures Current(h) != [] && Current(h)[0] == m.nodes[succ].data
  {
    assert h.chain[h.rank[succ]] == succ;
    assert Current(h') == Current(h)[1..];
  }

  /** Every other instruction leaves the list as it is. */
  lemma QuietMemory(m: Mem, h: Hist, m': Mem, h': Hist)
    requires Shape(m, h) && ContentsOk(m, h)
    requires m'.nodes == m.nodes && m'.head == m.head && m'.tail == m.tail
    requires h'.chain == h.chain && h'.rank == h.rank && h'.wins == h.wins
    requires Appends(h, h', Current(h))
    ensures MemoryOk(m, h, m', h')
  {
  }

  /** What holds when the thread working for operation `i` is about to execute `pc`. */
  ghost predicate Ready(m: Mem, h: Hist, i: nat, pc: Pc) {
    && Shape(m, h)
    && ContentsOk(m, h)
    && RetiredBefore(m, h)
    && |h.log| == |h.who| + 1
    && i < |h.ops|
    && pc != Idle
    && h.ops[i].outcome == Pending
    && OpOk(h, i)
    && LoopBound(h, h.ops[i], pc)
    && PcOk(m, h, h.ops[i], pc)
  }

  lemma MemoryStep(m: Mem, h: Hist, i: nat, pc: Pc, weak: bool)
    requires Ready(m, h, i, pc)
    ensures var (m', pc') := Exec(m, pc, weak); MemoryOk(m, h, m', Record(h, i, m, m', pc, pc', weak))
  {
    var (m', pc') := Exec(m, pc, weak);
    var h' := Record(h, i, m, m', pc, pc', weak);
    assert h'.who == h.who + [h'.who[|h.who|]];
    if pc.EnqLink? && pc'.EnqSwing? {
      assert m'.nodes != m.nodes by {
        assert m'.nodes[pc.curTail].next != m.nodes[pc.curTail].next;
      }
      LinkMemory(m, h, m', h', pc.node, pc.curTail);
    } else if pc.DeqMove? && pc'.DeqFree? {
      HeadMemory(m, h, m', h', pc.succ);
    } else if (pc.EnqHelp? || pc.DeqHelp?) && m'.tail != m.tail {
      TailMemory(m, h, m', h', pc.succ);
    } else if pc.EnqSwing? && m'.tail != m.tail {
      TailMemory(m, h, m', h', pc.node);
    } else {
      QuietMemory(m, h, m', h');
    }
  }

  // ----- The thread that takes the step -----

  ghost predicate AfterOk(m: Mem, h: Hist, i: nat, pc: Pc) {
    && Shape(m, h)
    && i < |h.ops|
    && OpOk(h, i)
    && (pc != Idle ==> LoopBound(h, h.ops[i], pc) && PcOk(m, h, h.ops[i], pc))
  }

  lemma EnqLoads(m: Mem, h: Hist, i: nat, pc: Pc, weak: bool)
    requires Ready(m, h, i, pc) && (pc.EnqLoadTail? || pc.EnqLoadNext? || pc.EnqCheck?)
    ensures var (m', pc') := Exec(m, pc, weak); AfterOk(m', Record(h, i, m, m', pc, pc', weak), i, pc')
  {
    MemoryStep(m, h, i, pc, weak);
    var (m', pc') := Exec(m, pc, weak);
    var h' := Record(h, i, m, m', pc, pc', weak);
  }

  lemma EnqExchanges(m: Mem, h: Hist, i: nat, pc: Pc, weak: bool)
    requires Ready(m, h, i, pc) && (pc.EnqLink? || pc.EnqHelp? || pc.EnqSwing?)
    ensures var (m', pc') := Exec(m, pc, weak); AfterOk(m', Record(h, i, m, m', pc, pc', weak), i, pc')
  {
    MemoryStep(m, h, i, pc, weak);
    var (m', pc') := Exec(m, pc, weak);
    var h' := Record(h, i, m, m', pc, pc', weak);
  }

  lemma DeqLoads(m: Mem, h: Hist, i: nat, pc: Pc, weak: bool)
    requires Ready(m, h, i, pc) && (pc.DeqLoadHead? || pc.DeqLoadTail?)
    ensures var (m', pc') := Exec(m, pc, weak); AfterOk(m', Record(h, i, m, m', pc, pc', weak), i, pc')
  {
    MemoryStep(m, h, i, pc, weak);
    var (m', pc') := Exec(m, pc, weak);
    var h' := Record(h, i, m, m', pc, pc', weak);
  }

  lemma DeqLoadsNext(m: Mem, h: Hist, i: nat, pc: Pc, weak: bool)
    requires Ready(m, h, i, pc) && pc.DeqLoadNext?
    ensures var (m', pc') := Exec(m, pc, weak); AfterOk(m', Record(h, i, m, m', pc, pc', weak), i, pc')
  {
    MemoryStep(m, h, i, pc, weak);
    var (m', pc') := Exec(m, pc, weak);
    var h' := Record(h, i, m, m', pc, pc', weak);
  }

  lemma DeqChecks(m: Mem, h: Hist, i: nat, pc: Pc, weak: bool)
    requires Ready(m, h, i, pc) && pc.DeqCheck?
    ensures var (m', pc') := Exec(m, pc, weak); AfterOk(m', Record(h, i, m, m', pc, pc', weak), i, pc')
  {
    MemoryStep(m, h, i, pc, weak);
    var (m', pc') := Exec(m, pc, weak);
    var h' := Record(h, i, m, m', pc, pc', weak);
  }

  lemma DeqHelps(m: Mem, h: Hist, i: nat, pc: Pc, weak: bool)
    requires Ready(m, h, i, pc) && (pc.DeqHelp? || pc.DeqRead?)
    ensures var (m', pc') := Exec(m, pc, weak); AfterOk(m', Record(h, i, m, m', pc, pc', weak), i, pc')
  {
    MemoryStep(m, h, i, pc, weak);
    var (m', pc') := Exec(m, pc, weak);
    var h' := Record(h, i, m, m', pc, pc', weak);
  }

  lemma DeqMoves(m: Mem, h: Hist, i: nat, pc: Pc, weak: bool)
    requires Ready(m, h, i, pc) && pc.DeqMove?
    ensures var (m', pc') := Exec(m, pc, weak); AfterOk(m', Record(h, i, m, m', pc, pc', weak), i, pc')
  {
    MemoryStep(m, h, i, pc, weak);
    var (m', pc') := Exec(m, pc, weak);
    var h' := Record(h, i, m, m', pc, pc', weak);
  }

  lemma DeqFrees(m: Mem, h: Hist, i: nat, pc: Pc, weak: bool)
    requires Ready(m, h, i, pc) && (pc.DeqFree? || pc.Done?)
    ensures var (m', pc') := Exec(m, pc, weak); AfterOk(m', Record(h, i, m, m', pc, pc', weak), i, pc')
  {
    MemoryStep(m, h, i, pc, weak);
    var (m', pc') := Exec(m, pc, weak);
    var h' := Record(h, i, m, m', pc, pc', weak);
  }

  lemma EmpLoads(m: Mem, h: Hist, i: nat, pc: Pc, weak: bool)
    requires Ready(m, h, i, pc) && (pc.EmpLoadHead? || pc.EmpLoadTail?)
    ensures var (m', pc') := Exec(m, pc, weak); AfterOk(m', Record(h, i, m, m', pc, pc', weak), i, pc')
  {
    MemoryStep(m, h, i, pc, weak);
    var (m', pc') := Exec(m, pc, weak);
    var h' := Record(h, i, m, m', pc, pc', weak);
  }

  lemma EmpAnswers(m: Mem, h: Hist, i: nat, pc: Pc, weak: bool)
    requires Ready(m, h, i, pc) && pc.EmpLoadNext?
    ensures var (m', pc') := Exec(m, pc, weak); AfterOk(m', Record(h, i, m, m', pc, pc', weak), i, pc')
  {
    MemoryStep(m, h, i, pc, weak);
    var (m', pc') := Exec(m, pc, weak);
    var h' := Record(h, i, m, m', pc, pc', weak);
  }

  lemma OwnStep(m: Mem, h: Hist, i: nat, pc: Pc, weak: bool)
    requires Ready(m, h, i, pc)
    ensures var (m', pc') := Exec(m, pc, weak); AfterOk(m', Record(h, i, m, m', pc, pc', weak), i, pc')
  {
    if pc.EnqLoadTail? || pc.EnqLoadNext? || pc.EnqCheck? {
      EnqLoads(m, h, i, pc, weak);
    } else if pc.EnqLink? || pc.EnqHelp? || pc.EnqSwing? {
      EnqExchanges(m, h, i, pc, weak);
    } else if pc.DeqLoadHead? || pc.DeqLoadTail? {
      DeqLoads(m, h, i, pc, weak);
    } else if pc.DeqLoadNext? {
      DeqLoadsNext(m, h, i, pc, weak);
    } else if pc.DeqCheck? {
      DeqChecks(m, h, i, pc, weak);
    } else if pc.DeqHelp? || pc.DeqRead? {
      DeqHelps(m, h, i, pc, weak);
    } else if pc.DeqMove? {
      DeqMoves(m, h, i, pc, weak);
    } else if pc.DeqFree? || pc.Done? {
      DeqFrees(m, h, i, pc, weak);
    } else if pc.EmpLoadHead? || pc.EmpLoadTail? {
      EmpLoads(m, h, i, pc, weak);
    } else {
      EmpAnswers(m, h, i, pc, weak);
    }
  }

  // ----- The recorded history -----

  /** A recorded operation stays right when the history grows. */
  lemma OpStays(m: Mem, h: Hist, m': Mem, h': Hist, i: nat)
    requires MemoryOk(m, h, m', h') && |h.log| == |h.who| + 1
    requires i < |h.ops| <= |h'.ops| && h'.ops[i] == h.ops[i] && OpOk(h, i)
    ensures OpOk(h', i)
  {
  }

  lemma LogStep(m: Mem, h: Hist, i: nat, pc: Pc, weak: bool)
    requires Ready(m, h, i, pc) && LogOk(h)
    ensures var (m', pc') := Exec(m, pc, weak); LogOk(Record(h, i, m, m', pc, pc', weak))
  {
    var (m', pc') := Exec(m, pc, weak);
    var h' := Record(h, i, m, m', pc, pc', weak);
    forall k | 0 <= k < |h'.who|
      ensures match h'.who[k]
              case Nobody => h'.log[k + 1] == h'.log[k]
              case Actor(j) => j < |h'.ops| && h'.ops[j].lin == Acts(k)
                               && h'.log[k + 1] == After(h'.log[k], h'.ops[j].call)
    {
      if k < |h.who| {
        assert h'.who[k] == h.who[k];
      }
    }
  }
}

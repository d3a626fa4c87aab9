/** What the queue promises its callers: it is linearizable, it makes progress, and it deletes every node once. */
module QueueTheorems {
  import opened QueueSpec
  import opened QueueMachine
  import opened QueueInvariant
  import opened QueueRuns

  // ----- Linearizability -----

  ghost predicate Known(h: Hist, order: seq<nat>) {
    forall p :: 0 <= p < |order| ==> order[p] < |h.ops|
  }

  /** The contents after performing the operations in `order` one at a time. */
  ghost function Replay(h: Hist, q: seq<Ptr>, order: seq<nat>): seq<Ptr>
    requires Known(h, order)
    decreases |order|
  {
    if order == [] then q else Replay(h, After(q, h.ops[order[0]].call), order[1..])
  }

  ghost predicate Completed(h: Hist, i: nat) {
    i < |h.ops| && h.ops[i].outcome.Returned?
  }

  /** Performed one at a time on `q` in this order, the completed operations return what they did return. */
  ghost predicate Legal(h: Hist, q: seq<Ptr>, order: seq<nat>)
    requires Known(h, order)
    decreases |order|
  {
    order == [] ||
    (var o := h.ops[order[0]];
     (Completed(h, order[0]) ==> o.outcome.ret == Returns(q, o.call)) && Legal(h, After(q, o.call), order[1..]))
  }

  /** Operation `i` returned before operation `j` was called. */
  ghost predicate Precedes(h: Hist, i: nat, j: nat)
    requires i < |h.ops| && j < |h.ops|
  {
    Completed(h, i) && h.ops[i].outcome.at < h.ops[j].invoked
  }

  ghost predicate Distinct(order: seq<nat>) {
    forall p, q :: 0 <= p < q < |order| ==> order[p] != order[q]
  }

  /** `order` is a sequential history with the outcomes of `h`: it holds every completed operation once,
      keeps the order of operations that do not overlap, and ends in the current contents. */
  ghost predicate IsLinearization(h: Hist, order: seq<nat>) {
    && Known(h, order)
    && Distinct(order)
    && (forall i: nat :: Completed(h, i) ==> i in order)
    && (forall p, q :: 0 <= p < q < |order| ==> !Precedes(h, order[q], order[p]))
    && Legal(h, [], order)
    && Replay(h, [], order) == Current(h)
  }

  lemma {:induction false} ReplayAppend(h: Hist, q: seq<Ptr>, a: seq<nat>, b: seq<nat>)
    requires Known(h, a) && Known(h, b)
    ensures Known(h, a + b)
    ensures Replay(h, q, a + b) == Replay(h, Replay(h, q, a), b)
    ensures Legal(h, q, a + b) <==> Legal(h, q, a) && Legal(h, Replay(h, q, a), b)
    decreases |a|
  {
    if a == [] {
      assert a + b == b;
    } else {
      assert (a + b)[1..] == a[1..] + b;
      assert (a + b)[0] == a[0];
      ReplayAppend(h, After(q, h.ops[a[0]].call), a[1..], b);
    }
  }

  /** The operations below `n` that look at the contents before step `k`. */
  ghost function Observers(h: Hist, k: nat, n: nat): (r: seq<nat>)
    requires n <= |h.ops|
    ensures forall i: nat :: i in r <==> i < n && h.ops[i].lin == Observes(k)
  {
    if n == 0 then []
    else if h.ops[n - 1].lin == Observes(k) then Observers(h, k, n - 1) + [n - 1]
    else Observers(h, k, n - 1)
  }

  ghost function Actors(h: Hist, k: nat): seq<nat>
    requires k < |h.who|
  {
    match h.who[k] case Nobody => [] case Actor(i) => [i]
  }

  /** The operations that took effect in the first `k` steps: at each step first the
      observers of the contents before it, then the operation that changes them. */
  ghost function Order(h: Hist, k: nat): seq<nat>
    requires k <= |h.who|
  {
    if k == 0 then [] else Order(h, k - 1) + Observers(h, k - 1, |h.ops|) + Actors(h, k - 1)
  }

  lemma {:induction false} OrderMembers(h: Hist, k: nat)
    requires LogOk(h) && OpsOk(h) && k <= |h.who|
    ensures forall i: nat :: i in Order(h, k) <==> i < |h.ops| && h.ops[i].lin != NotYet && h.ops[i].lin.at < k
  {
    if k != 0 {
      OrderMembers(h, k - 1);
      forall i: nat | i < |h.ops| && h.ops[i].lin == Acts(k - 1)
        ensures h.who[k - 1] == Actor(i)
      {
        assert OpOk(h, i);
      }
    }
  }

  /** Observers change nothing and see the contents they should. */
  lemma {:induction false} ObserversLegal(h: Hist, k: nat, n: nat)
    requires LogOk(h) && OpsOk(h) && k < |h.who| && n <= |h.ops|
    ensures var r := Observers(h, k, n); Known(h, r) && Legal(h, h.log[k], r) && Replay(h, h.log[k], r) == h.log[k]
    decreases n
  {
    if n != 0 {
      ObserversLegal(h, k, n - 1);
      if h.ops[n - 1].lin == Observes(k) {
        assert OpOk(h, n - 1);
        ReplayAppend(h, h.log[k], Observers(h, k, n - 1), [n - 1]);
      }
    }
  }

  lemma ActorsLegal(h: Hist, k: nat)
    requires LogOk(h) && OpsOk(h) && k < |h.who|
    ensures var r := Actors(h, k); Known(h, r) && Legal(h, h.log[k], r) && Replay(h, h.log[k], r) == h.log[k + 1]
  {
    match h.who[k]
    case Nobody =>
    case Actor(i) => assert OpOk(h, i);
  }

  /** `a` leads from the empty queue to `q`, one legal operation after another. */
  ghost predicate Leads(h: Hist, a: seq<nat>, q: seq<Ptr>) {
    Known(h, a) && Legal(h, [], a) && Replay(h, [], a) == q
  }

  lemma LeadsOn(h: Hist, a: seq<nat>, q: seq<Ptr>, b: seq<nat>)
    requires Leads(h, a, q) && Known(h, b) && Legal(h, q, b)
    ensures Leads(h, a + b, Replay(h, q, b))
  {
    ReplayAppend(h, [], a, b);
  }

  lemma {:induction false} OrderLegal(h: Hist, k: nat) returns (order: seq<nat>)
    requires LogOk(h) && OpsOk(h) && k <= |h.who|
    ensures order == Order(h, k) && Leads(h, order, h.log[k])
  {
    if k == 0 {
      order := [];
    } else {
      var before := OrderLegal(h, k - 1);
      LegalStep(h, k - 1, before);
      order := before + Observers(h, k - 1, |h.ops|) + Actors(h, k - 1);
    }
  }

  lemma LegalStep(h: Hist, k: nat, before: seq<nat>)
    requires LogOk(h) && OpsOk(h) && k < |h.who| && Leads(h, before, h.log[k])
    ensures Leads(h, before + Observers(h, k, |h.ops|) + Actors(h, k), h.log[k + 1])
  {
    var seen, acting := Observers(h, k, |h.ops|), Actors(h, k);
    ObserversLegal(h, k, |h.ops|);
    LeadsOn(h, before, h.log[k], seen);
    ActorsLegal(h, k);
    LeadsOn(h, before + seen, h.log[k], acting);
  }

  /** No repetition, and no operation after one that took effect in a later step. */
  ghost predicate Sorted(h: Hist, order: seq<nat>) {
    && Known(h, order)
    && (forall p :: 0 <= p < |order| ==> h.ops[order[p]].lin != NotYet)
    && (forall p, q :: 0 <= p < q < |order| ==>
          order[p] != order[q] && h.ops[order[p]].lin.at <= h.ops[order[q]].lin.at)
  }

  lemma SortedConcat(h: Hist, a: seq<nat>, b: seq<nat>)
    requires Sorted(h, a) && Sorted(h, b)
    requires forall i, j :: i in a && j in b ==> i != j && h.ops[i].lin.at <= h.ops[j].lin.at
    ensures Sorted(h, a + b)
  {
    forall p, q | 0 <= p < q < |a + b|
      ensures (a + b)[p] != (a + b)[q] && h.ops[(a + b)[p]].lin.at <= h.ops[(a + b)[q]].lin.at
    {
      if p < |a| <= q {
        assert a[p] in a && b[q - |a|] in b;
      }
    }
  }

  lemma {:induction false} ObserversSorted(h: Hist, k: nat, n: nat)
    requires n <= |h.ops|
    ensures Sorted(h, Observers(h, k, n))
    decreases n
  {
    if n != 0 {
      ObserversSorted(h, k, n - 1);
    }
  }

  /** Whoever acts in step `k` acts then. */
  lemma ActorsSorted(h: Hist, k: nat)
    requires LogOk(h) && k < |h.who|
    ensures Sorted(h, Actors(h, k)) && forall i :: i in Actors(h, k) ==> h.ops[i].lin.at == k
  {
    assert h.who[k].Actor? ==> h.who[k].op < |h.ops| && h.ops[h.who[k].op].lin == Acts(k);
  }

  lemma SortedStep(h: Hist, k: nat, before: seq<nat>)
    requires LogOk(h) && k < |h.who| && Sorted(h, before)
    requires forall i :: i in before ==> h.ops[i].lin.at < k
    ensures Sorted(h, before + Observers(h, k, |h.ops|) + Actors(h, k))
  {
    var seen, acting := Observers(h, k, |h.ops|), Actors(h, k);
    ObserversSorted(h, k, |h.ops|);
    forall i, j | i in before && j in seen
      ensures i != j && h.ops[i].lin.at <= h.ops[j].lin.at
    {
    }
    SortedConcat(h, before, seen);
    ActorsSorted(h, k);
    forall i, j | i in before + seen && j in acting
      ensures i != j && h.ops[i].lin.at <= h.ops[j].lin.at
    {
    }
    SortedConcat(h, before + seen, acting);
  }

  lemma EarlierMembers(h: Hist, k: nat)
    requires LogOk(h) && OpsOk(h) && k <= |h.who|
    ensures forall i :: i in Order(h, k) ==> i < |h.ops| && h.ops[i].lin != NotYet && h.ops[i].lin.at < k
  {
    OrderMembers(h, k);
  }

  lemma {:induction false} OrderSorted(h: Hist, k: nat)
    requires LogOk(h) && OpsOk(h) && k <= |h.who|
    ensures Sorted(h, Order(h, k))
  {
    if k != 0 {
      OrderSorted(h, k - 1);
      EarlierMembers(h, k - 1);
      SortedStep(h, k - 1, Order(h, k - 1));
    }
  }

  /** Operations ordered by the step of their effect do not swap two that did not overlap. */
  lemma RealTime(h: Hist, order: seq<nat>)
    requires OpsOk(h) && Sorted(h, order)
    ensures forall p, q :: 0 <= p < q < |order| ==> !Precedes(h, order[q], order[p])
  {
    forall p, q | 0 <= p < q < |order|
      ensures !Precedes(h, order[q], order[p])
    {
      assert OpOk(h, order[p]) && OpOk(h, order[q]);
    }
  }

  /** Every run of any number of threads, with any spurious failures, is linearizable. */
  lemma Linearizable(s: State)
    requires Reachable(s)
    ensures exists order :: IsLinearization(s.h, order)
  {
    ReachableInv(s);
    var order := OrderLegal(s.h, |s.h.who|);
    OrderSorted(s.h, |s.h.who|);
    OrderMembers(s.h, |s.h.who|);
    RealTime(s.h, order);
    forall i: nat | Completed(s.h, i)
      ensures i in order
    {
      assert OpOk(s.h, i);
    }
    assert IsLinearization(s.h, order);
  }

  /** The contents change only in the exchange of `next` by an enqueuer, which appends its value,
      and in the exchange of `head` by a dequeuer, which takes the value it will return. */
  lemma ChangesOnlyAtExchanges(s: State, mv: Move)
    requires Reachable(s) && Current(Step(s, mv).h) != Current(s.h)
    ensures var s' := Step(s, mv);
            mv.Advance? && mv.t < |s.threads| &&
            match s.threads[mv.t].pc
            case EnqLink(node, _) =>
              Current(s'.h) == Current(s.h) + [Data(s.mem, node)] && s'.threads[mv.t].pc.EnqSwing?
            case DeqMove(_, _, ret) =>
              Current(s.h) == [ret] + Current(s'.h) && s'.threads[mv.t].pc.DeqFree?
            case _ => false
  {
    ReachableInv(s);
    if mv.Advance? && mv.t < |s.threads| && s.threads[mv.t].pc != Idle {
      ReadyThread(s, mv.t);
      ChangeByExec(s.mem, s.h, s.threads[mv.t].op, s.threads[mv.t].pc, mv.weak);
    }
  }

  lemma ChangeByExec(m: Mem, h: Hist, i: nat, pc: Pc, weak: bool)
    requires Ready(m, h, i, pc)
    requires var (m', pc') := Exec(m, pc, weak); Current(Record(h, i, m, m', pc, pc', weak)) != Current(h)
    ensures var (m', pc') := Exec(m, pc, weak);
            var after := Current(Record(h, i, m, m', pc, pc', weak));
            match pc
            case EnqLink(node, _) => after == Current(h) + [Data(m, node)] && pc'.EnqSwing?
            case DeqMove(_, _, ret) => Current(h) == [ret] + after && pc'.DeqFree?
            case _ => false
  {
    var (m', pc') := Exec(m, pc, weak);
    assert Changes(pc, pc');
    assert Current(Record(h, i, m, m', pc, pc', weak)) == After(Current(h), h.ops[i].call);
    if pc.DeqMove? {
      TakesFirst(m, h, pc.succ);
    }
  }

  lemma TakesFirst(m: Mem, h: Hist, succ: Id)
    requires Shape(m, h) && ContentsOk(m, h) && Follows(h, m.head, succ)
    ensures Current(h) != [] && Current(h)[0] == m.nodes[succ].data
  {
    assert h.chain[h.rank[succ]] == succ;
  }

  /** An `enqueue` returns nothing, a `dequeue` the value it took or null when the queue was empty, and
      `empty` says whether the queue was empty, each at a moment between the call and the return. */
  lemma AnswersAtAMoment(s: State, i: nat)
    requires Reachable(s) && Completed(s.h, i)
    ensures var h := s.h;
            var o := h.ops[i];
            exists k :: o.invoked < k <= o.outcome.at && k < |h.log|
                        && o.outcome.ret == Returns(h.log[k], o.call)
                        && (o.call.IsEmpty? ==> o.outcome.ret == Flag(h.log[k] == []))
                        && (o.outcome.ret == Got(Null) ==> h.log[k] == [] || h.log[k][0] == Null)
  {
    ReachableInv(s);
    assert OpOk(s.h, i);
    var k := s.h.ops[i].lin.at;
    assert s.h.ops[i].outcome.ret == Returns(s.h.log[k], s.h.ops[i].call);
  }

  /** The `next` through which a dequeuer reads its value is never null. */
  lemma NeverReadsNull(s: State, t: nat)
    requires Reachable(s) && t < |s.threads| && s.threads[t].pc.DeqRead?
    ensures s.threads[t].pc.next.To?
  {
    ReachableInv(s);
    assert ThreadOk(s, t);
  }

  // ----- Shape -----

  /** Each node's `next` is the one after it in the list, and the last node has none. */
  ghost predicate Linked(m: Mem, list: seq<Id>) {
    && list != []
    && (forall i :: 0 <= i < |list| ==> list[i] < |m.nodes|)
    && (forall i :: 0 <= i < |list| - 1 ==> m.nodes[list[i]].next == To(list[i + 1]))
    && m.nodes[list[|list| - 1]].next == Nil
  }

  /** The recorded contents are the data of the nodes behind `hd`. */
  ghost predicate Holds(m: Mem, h: Hist, list: seq<Id>, hd: nat)
    requires forall i :: 0 <= i < |list| ==> list[i] < |m.nodes|
  {
    hd < |list| == |Current(h)| + hd + 1
    && forall i :: 0 <= i < |Current(h)| ==> Current(h)[i] == m.nodes[list[hd + 1 + i]].data
  }

  /**
   * The nodes form one list without a cycle; head is on it and not after tail, and tail is its last node or the one
   * before. The contents are the data behind head, in order.
   */
  lemma QueueShape(s: State) returns (list: seq<Id>, hd: nat, tl: nat)
    requires Reachable(s)
    ensures Linked(s.mem, list) && Distinct(list)
    ensures hd <= tl < |list| <= tl + 2 && list[hd] == s.mem.head && list[tl] == s.mem.tail
    ensures Holds(s.mem, s.h, list, hd)
  {
    ReachableInv(s);
    list, hd, tl := s.h.chain, s.h.rank[s.mem.head], s.h.rank[s.mem.tail];
    ChainEnds(s.mem, s.h);
  }

  lemma ChainEnds(m: Mem, h: Hist)
    requires Shape(m, h) && ContentsOk(m, h)
    ensures
      var list, hd, tl := h.chain, h.rank[m.head], h.rank[m.tail];
      && Linked(m, list) && Distinct(list) && Holds(m, h, list, hd)
      && hd <= tl < |list| <= tl + 2 && list[hd] == m.head && list[tl] == m.tail
  {
    ChainLinked(m, h);
  }

  lemma ChainLinked(m: Mem, h: Hist)
    requires Shape(m, h)
    ensures Linked(m, h.chain) && Distinct(h.chain)
  {
    forall i | 0 <= i < |h.chain|
      ensures h.chain[i] < |m.nodes|
      ensures if i < |h.chain| - 1 then m.nodes[h.chain[i]].next == To(h.chain[i + 1])
          else m.nodes[h.chain[i]].next == Nil
    {
      assert h.rank[h.chain[i]] == i;
      if i < |h.chain| - 1 {
        assert h.rank[h.chain[i + 1]] == i + 1;
        NextOf(m, h, h.chain[i], h.chain[i + 1]);
      }
    }
  }

  /** Whatever is running, no node is deleted twice, and only nodes strictly before head are deleted. */
  lemma DeletedBeforeHead(s: State) returns (list: seq<Id>, hd: nat)
    requires Reachable(s)
    ensures Linked(s.mem, list) && Distinct(list) && hd < |list| && list[hd] == s.mem.head
    ensures Distinct(s.mem.retired) && forall id :: id in s.mem.retired ==> id in list[..hd]
  {
    ReachableInv(s);
    ChainLinked(s.mem, s.h);
    list, hd := s.h.chain, s.h.rank[s.mem.head];
    forall id | id in s.mem.retired
      ensures id in list[..hd]
    {
      assert list[..hd][s.h.rank[id]] == id;
    }
  }

  /** The pointer stayed, or moved on by one link. */
  ghost predicate MovedOn(m: Mem, from: Id, to: Id) {
    to == from || (from < |m.nodes| && m.nodes[from].next == To(to))
  }

  /** Head and tail only ever move forward, one link at a time. */
  lemma PointersMoveForward(s: State, mv: Move)
    requires Reachable(s)
    ensures var s' := Step(s, mv); MovedOn(s.mem, s.mem.head, s'.mem.head) && MovedOn(s.mem, s.mem.tail, s'.mem.tail)
  {
    ReachableInv(s);
    if mv.t < |s.threads| && mv.Advance? && s.threads[mv.t].pc != Idle {
      var th := s.threads[mv.t];
      assert ThreadOk(s, mv.t);
      ExecMovesForward(s.mem, s.h, s.h.ops[th.op], th.pc, mv.weak);
    }
  }

  lemma ExecMovesForward(m: Mem, h: Hist, o: Op, pc: Pc, weak: bool)
    requires Shape(m, h) && PcOk(m, h, o, pc)
    ensures var m' := Exec(m, pc, weak).0; MovedOn(m, m.head, m'.head) && MovedOn(m, m.tail, m'.tail)
  {
    if pc.EnqHelp? || pc.DeqHelp? {
      NextOf(m, h, pc.curTail, pc.succ);
    } else if pc.EnqSwing? {
      NextOf(m, h, pc.curTail, pc.node);
    } else if pc.DeqMove? {
      NextOf(m, h, pc.curHead, pc.succ);
    }
  }

  lemma NextOf(m: Mem, h: Hist, a: Id, b: Id)
    requires Shape(m, h) && Follows(h, a, b)
    ensures a < |m.nodes| && m.nodes[a].next == To(b)
  {
    assert a in h.rank && b in h.rank;
    assert h.chain[h.rank[b]] == b;
    assert m.nodes[a].next.To?;
    assert h.chain[h.rank[m.nodes[a].next.id]] == m.nodes[a].next.id;
  }

  // ----- Progress -----

  ghost function Count(ops: seq<Op>, p: Op -> bool): nat {
    if ops == [] then 0 else Count(ops[..|ops| - 1], p) + (if p(ops[|ops| - 1]) then 1 else 0)
  }

  lemma {:induction false} CountUpdate(ops: seq<Op>, p: Op -> bool, i: nat, o: Op)
    requires i < |ops|
    ensures Count(ops[i := o], p) + (if p(ops[i]) then 1 else 0) == Count(ops, p) + (if p(o) then 1 else 0)
  {
    var short := ops[..|ops| - 1];
    if i == |ops| - 1 {
      assert ops[i := o][..|ops| - 1] == short;
    } else {
      assert ops[i := o][..|ops| - 1] == short[i := o];
      CountUpdate(short, p, i, o);
    }
  }

  lemma {:induction false} CountWeaker(ops: seq<Op>, p: Op -> bool, q: Op -> bool)
    requires forall o :: p(o) ==> q(o)
    ensures Count(ops, p) <= Count(ops, q)
  {
    if ops != [] {
      CountWeaker(ops[..|ops| - 1], p, q);
    }
  }

  const IS_ENQUEUE: Op -> bool := (o: Op) => o.call.Enqueue?
  const IS_DEQUEUE: Op -> bool := (o: Op) => o.call == Dequeue
  const HAS_LINKED: Op -> bool := (o: Op) => o.call.Enqueue? && o.lin.Acts?
  const HAS_TAKEN: Op -> bool := (o: Op) => o.call == Dequeue && o.lin.Acts?

  /** The chain counts the enqueues that linked a node, the rank of head the dequeues that took one. */
  ghost predicate CountsOk(s: State) {
    && |s.h.chain| == 1 + Count(s.h.ops, HAS_LINKED)
    && s.mem.head in s.h.rank && s.h.rank[s.mem.head] == Count(s.h.ops, HAS_TAKEN)
    && |s.mem.nodes| == 1 + Count(s.h.ops, IS_ENQUEUE)
  }

  lemma AdvanceCounts(s: State, t: nat, weak: bool)
    requires Inv(s) && CountsOk(s) && t < |s.threads| && s.threads[t].pc != Idle
    ensures CountsOk(Step(s, Advance(t, weak)))
  {
    ReadyThread(s, t);
    var i, pc := s.threads[t].op, s.threads[t].pc;
    var o := s.h.ops[i];
    var (m', pc') := Exec(s.mem, pc, weak);
    var o' := OpAfter(s.h, o, pc, pc', weak);
    CountUpdate(s.h.ops, HAS_LINKED, i, o');
    CountUpdate(s.h.ops, HAS_TAKEN, i, o');
    CountUpdate(s.h.ops, IS_ENQUEUE, i, o');
    HeadAndChain(s.mem, s.h, o, pc, weak);
  }

  lemma HeadAndChain(m: Mem, h: Hist, o: Op, pc: Pc, weak: bool)
    requires Shape(m, h) && PcOk(m, h, o, pc)
    ensures var (m', pc') := Exec(m, pc, weak);
            && |m'.nodes| == |m.nodes|
            && m'.head in h.rank
            && h.rank[m'.head] == h.rank[m.head] + (if pc.DeqMove? && pc'.DeqFree? then 1 else 0)
            && (pc.EnqLink? && pc'.EnqSwing? ==> pc.node !in h.rank && pc.node != m'.head)
            && (Changes(pc, pc') ==> !o.lin.Acts? && (o.call.Enqueue? <==> pc.EnqLink?))
            && (!Changes(pc, pc') ==> (LinAfter(h, o, pc, pc').Acts? <==> o.lin.Acts?))
            && (pc.EnqLink? && pc'.EnqSwing? ==> o.call.Enqueue?)
            && (pc.DeqMove? ==> o.call == Dequeue)
  {
  }

  lemma StepCounts(s: State, mv: Move)
    requires Inv(s) && CountsOk(s)
    ensures CountsOk(Step(s, mv))
  {
    var s' := Step(s, mv);
    if mv.t < |s.threads| && mv.Advance? && s.threads[mv.t].pc != Idle {
      AdvanceCounts(s, mv.t, mv.weak);
    } else if s' != s {
      assert s'.h.ops[..|s.h.ops|] == s.h.ops;
    }
  }

  lemma {:induction false} RunCounts(s: State, moves: seq<Move>)
    requires Inv(s) && CountsOk(s)
    ensures CountsOk(Run(s, moves))
    decreases |moves|
  {
    if moves != [] {
      var mv := moves[0];
      var s' := Step(s, mv);
      StepInv(s, mv);
      StepCounts(s, mv);
      RunCounts(s', moves[1..]);
    }
  }

  /** Lock freedom, in numbers: an operation enters its loop at most once more than there were successful
      exchanges since its call (by any thread, its own helping included) and spurious failures of its own. */
  lemma LoopsBounded(s: State, i: nat)
    requires Reachable(s) && i < |s.h.ops|
    ensures s.h.ops[i].loops <= 1 + (s.h.wins - s.h.ops[i].base) + s.h.ops[i].fails
  {
    ReachableInv(s);
    assert OpOk(s.h, i);
  }

  lemma ReachableCounts(s: State)
    requires Reachable(s)
    ensures CountsOk(s)
  {
    var n, moves :| s == Run(Init(n), moves);
    InitInv(n);
    RunCounts(Init(n), moves);
  }

  /** Every enqueue causes at most two successful exchanges, every dequeue one. */
  lemma ExchangesBounded(s: State)
    requires Reachable(s)
    ensures s.h.wins <= 2 * Count(s.h.ops, IS_ENQUEUE) + Count(s.h.ops, IS_DEQUEUE)
  {
    ReachableInv(s);
    ReachableCounts(s);
    CountWeaker(s.h.ops, HAS_LINKED, IS_ENQUEUE);
    CountWeaker(s.h.ops, HAS_TAKEN, IS_DEQUEUE);
  }

  ghost predicate Strong(moves: seq<Move>) {
    forall k :: 0 <= k < |moves| && moves[k].Advance? ==> !moves[k].weak
  }

  ghost predicate NoFails(h: Hist) {
    forall i :: 0 <= i < |h.ops| ==> h.ops[i].fails == 0
  }

  lemma StepNoFails(s: State, mv: Move)
    requires NoFails(s.h) && (mv.Advance? ==> !mv.weak)
    ensures NoFails(Step(s, mv).h)
  {
    var s' := Step(s, mv);
    forall i | 0 <= i < |s'.h.ops|
      ensures s'.h.ops[i].fails == 0
    {
      assert i < |s.h.ops| ==> s.h.ops[i].fails == 0;
    }
  }

  lemma {:induction false} RunNoFails(s: State, moves: seq<Move>)
    requires Strong(moves) && NoFails(s.h)
    ensures NoFails(Run(s, moves).h)
    decreases |moves|
  {
    if moves != [] {
      StepNoFails(s, moves[0]);
      RunNoFails(Step(s, moves[0]), moves[1..]);
    }
  }

  /** Without spurious failures the number of calls alone bounds every operation's iterations. */
  lemma LoopsBoundedByCalls(n: nat, moves: seq<Move>, i: nat)
    requires Strong(moves) && i < |Run(Init(n), moves).h.ops|
    ensures var h := Run(Init(n), moves).h;
            h.ops[i].loops <= 1 + 2 * Count(h.ops, IS_ENQUEUE) + Count(h.ops, IS_DEQUEUE) - h.ops[i].base
  {
    LoopsBounded(Run(Init(n), moves), i);
    RunNoFails(Init(n), moves);
    ExchangesBounded(Run(Init(n), moves));
  }

  // ----- Node lifetime -----

  ghost predicate Quiescent(s: State) {
    forall t :: 0 <= t < |s.threads| ==> s.threads[t].pc == Idle
  }

  /** The nodes still in the list, head first. */
  ghost function Remaining(m: Mem, h: Hist): seq<Id>
    requires m.head in h.rank && h.rank[m.head] <= |h.chain|
  {
    h.chain[h.rank[m.head]..]
  }

  /** The retired nodes and the rest of the chain are disjoint and repeat nothing. */
  lemma RetiredThenRemaining(s: State)
    requires Shape(s.mem, s.h) && RetiredOk(s)
    ensures Distinct(s.mem.retired + Remaining(s.mem, s.h))
  {
    var all := s.mem.retired + Remaining(s.mem, s.h);
    var hd, r := s.h.rank[s.mem.head], |s.mem.retired|;
    forall p, q | 0 <= p < q < |all|
      ensures all[p] != all[q]
    {
      if p < r {
        assert s.mem.retired[p] in s.h.rank && s.h.rank[s.mem.retired[p]] < hd;
      } else {
        assert s.h.rank[s.h.chain[hd + (p - r)]] == hd + (p - r);
      }
      if q >= r {
        assert s.h.rank[s.h.chain[hd + (q - r)]] == hd + (q - r);
      }
    }
  }

  /** When no operation is running, the nodes deleted so far and the nodes still in the
      list are together every node ever allocated, each once: one per enqueue and the dummy. */
  lemma EveryNodeOnce(s: State)
    requires Reachable(s) && Quiescent(s)
    ensures && s.mem.head in s.h.rank && s.h.rank[s.mem.head] <= |s.h.chain|
            && Distinct(s.mem.retired + Remaining(s.mem, s.h))
            && (forall id: Id :: id in s.mem.retired + Remaining(s.mem, s.h) <==> id < |s.mem.nodes|)
            && |s.mem.nodes| == 1 + Count(s.h.ops, IS_ENQUEUE)
  {
    ReachableInv(s);
    ReachableCounts(s);
    RetiredThenRemaining(s);
    var all := s.mem.retired + Remaining(s.mem, s.h);
    forall id: Id | id < |s.mem.nodes|
      ensures id in all
    {
      NodeAccounted(s, id);
    }
  }

  lemma NodeAccounted(s: State, id: Id)
    requires Shape(s.mem, s.h) && RetiredOk(s) && Owned(s) && Quiescent(s) && id < |s.mem.nodes|
    ensures id in s.mem.retired + Remaining(s.mem, s.h)
  {
    assert id in s.h.rank;
    assert s.h.chain[s.h.rank[id]] == id;
    if s.h.rank[id] >= s.h.rank[s.mem.head] {
      assert Remaining(s.mem, s.h)[s.h.rank[id] - s.h.rank[s.mem.head]] == id;
    }
  }
}

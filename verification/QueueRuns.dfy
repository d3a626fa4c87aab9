/** The invariant holds in every state of every run of the queue. */
module QueueRuns {
  import opened QueueSpec
  import opened QueueMachine
  import opened QueueInvariant

  // ----- A thread advances -----

  lemma ReadyThread(s: State, t: nat)
    requires Inv(s) && t < |s.threads| && s.threads[t].pc != Idle
    ensures Ready(s.mem, s.h, s.threads[t].op, s.threads[t].pc)
  {
    assert ThreadOk(s, t);
    assert OpOk(s.h, s.threads[t].op);
  }

  /** What `Exec` and `Record` leave alone, whatever the instruction. */
  lemma ExecFrame(m: Mem, h: Hist, i: nat, pc: Pc, weak: bool)
    requires i < |h.ops|
    ensures var (m', pc') := Exec(m, pc, weak);
            var h' := Record(h, i, m, m', pc, pc', weak);
            && (forall id :: id in h'.rank && id !in h.rank ==> pc.EnqLink? && pc.node == id)
            && m'.retired == (if pc.DeqFree? then m.retired + [pc.curHead] else m.retired)
            && |h'.ops| == |h.ops|
            && (forall j :: 0 <= j < |h.ops| && j != i ==> h'.ops[j] == h.ops[j])
  {
  }

  lemma AdvanceExtends(s: State, t: nat, weak: bool)
    requires Inv(s) && t < |s.threads| && s.threads[t].pc != Idle
    ensures var s' := Step(s, Advance(t, weak));
            MemoryOk(s.mem, s.h, s'.mem, s'.h) && Extends(s, s', t)
  {
    var i, pc := s.threads[t].op, s.threads[t].pc;
    ReadyThread(s, t);
    MemoryStep(s.mem, s.h, i, pc, weak);
    ExecFrame(s.mem, s.h, i, pc, weak);
    var (m', pc') := Exec(s.mem, pc, weak);
    var h' := Record(s.h, i, s.mem, m', pc, pc', weak);
    var threads' := s.threads[t := Thread(pc', i)];
    assert Step(s, Advance(t, weak)) == State(m', threads', h');
    ExtendsBy(s, m', h', threads', t);
  }

  lemma ExtendsBy(s: State, m': Mem, h': Hist, threads': seq<Thread>, t: nat)
    requires t < |s.threads| && s.threads[t].pc != Idle
    requires MemoryOk(s.mem, s.h, m', h')
    requires |threads'| == |s.threads| && forall u :: 0 <= u < |s.threads| && u != t ==> threads'[u] == s.threads[u]
    requires forall id :: id in h'.rank && id !in s.h.rank ==> Linking(s, t, id)
    requires m'.retired == (if s.threads[t].pc.DeqFree? then s.mem.retired + [s.threads[t].pc.curHead]
        else s.mem.retired)
    requires |h'.ops| == |s.h.ops| && forall j :: 0 <= j < |s.h.ops| && j != s.threads[t].op ==> h'.ops[j] == s.h.ops[j]
    ensures Extends(s, State(m', threads', h'), t)
  {
  }

  lemma AdvanceOps(s: State, t: nat, weak: bool)
    requires Inv(s) && t < |s.threads| && s.threads[t].pc != Idle
    ensures OpsOk(Step(s, Advance(t, weak)).h)
  {
    var i, s' := s.threads[t].op, Step(s, Advance(t, weak));
    ReadyThread(s, t);
    OwnStep(s.mem, s.h, i, s.threads[t].pc, weak);
    MemoryStep(s.mem, s.h, i, s.threads[t].pc, weak);
    forall j | 0 <= j < |s'.h.ops|
      ensures OpOk(s'.h, j)
    {
      if j != i {
        OpStays(s.mem, s.h, s'.mem, s'.h, j);
      }
    }
  }

  lemma AdvanceOwn(s: State, t: nat, weak: bool)
    requires Inv(s) && t < |s.threads| && s.threads[t].pc != Idle
    ensures var s' := Step(s, Advance(t, weak)); Shape(s'.mem, s'.h) && t < |s'.threads| && ThreadOk(s', t)
  {
    ReadyThread(s, t);
    OwnStep(s.mem, s.h, s.threads[t].op, s.threads[t].pc, weak);
  }

  lemma AdvanceThreads(s: State, t: nat, weak: bool)
    requires Inv(s) && t < |s.threads| && s.threads[t].pc != Idle
    ensures var s' := Step(s, Advance(t, weak)); Shape(s'.mem, s'.h) && ThreadsOk(s')
  {
    var s' := Step(s, Advance(t, weak));
    AdvanceOwn(s, t, weak);
    AdvanceExtends(s, t, weak);
    forall u | 0 <= u < |s'.threads|
      ensures ThreadOk(s', u)
    {
      if u != t {
        OtherThread(s, s', t, u);
      }
    }
  }

  /** How the program counter of the moving thread may pick up a node. */
  lemma PcNodes(m: Mem, h: Hist, o: Op, pc: Pc, weak: bool)
    requires Shape(m, h) && PcOk(m, h, o, pc)
    ensures var pc' := Exec(m, pc, weak).1;
            && (HasNode(pc') ==> HasNode(pc) && pc'.node == pc.node)
            && (pc'.DeqFree? ==> pc.DeqMove? && pc.curHead == m.head && pc'.curHead == m.head)
            && (HasNode(pc) && !HasNode(pc') ==> pc.EnqLink? && pc'.EnqSwing?)
            && (pc' == Idle <==> pc == Idle || pc.Done?)
  {
  }

  lemma AdvanceApart(s: State, t: nat, weak: bool)
    requires Inv(s) && t < |s.threads| && s.threads[t].pc != Idle
    ensures ThreadsApart(Step(s, Advance(t, weak)))
  {
    var s' := Step(s, Advance(t, weak));
    ReadyThread(s, t);
    PcNodes(s.mem, s.h, s.h.ops[s.threads[t].op], s.threads[t].pc, weak);
    forall u | 0 <= u < |s.threads| && u != t
      ensures Apart(s'.threads[t], s'.threads[u]) && Apart(s'.threads[u], s'.threads[t])
    {
      assert Apart(s.threads[t], s.threads[u]) && Apart(s.threads[u], s.threads[t]);
      assert ThreadOk(s, u);
    }
  }

  lemma AdvanceRetired(s: State, t: nat, weak: bool)
    requires Inv(s) && t < |s.threads| && s.threads[t].pc != Idle
    ensures var s' := Step(s, Advance(t, weak)); Shape(s'.mem, s'.h) && RetiredOk(s')
  {
    var i, pc := s.threads[t].op, s.threads[t].pc;
    ReadyThread(s, t);
    AdvanceExtends(s, t, weak);
    ExecFrame(s.mem, s.h, i, pc, weak);
    PcNodes(s.mem, s.h, s.h.ops[i], pc, weak);
    var (m', pc') := Exec(s.mem, pc, weak);
    var s' := State(m', s.threads[t := Thread(pc', i)], Record(s.h, i, s.mem, m', pc, pc', weak));
    assert s' == Step(s, Advance(t, weak));
    HeadMoves(s.mem, s.h, s.h.ops[i], pc, weak);
    RetiredBy(s, s', t);
  }

  /** Head moves only in the exchange that makes its dequeuer delete the old head, and by one node. */
  lemma HeadMoves(m: Mem, h: Hist, o: Op, pc: Pc, weak: bool)
    requires Shape(m, h) && PcOk(m, h, o, pc)
    ensures var (m', pc') := Exec(m, pc, weak);
            m'.head != m.head ==> pc'.DeqFree? && pc'.curHead == m.head && Follows(h, m.head, m'.head)
  {
  }

  lemma RetiredBy(s: State, s': State, t: nat)
    requires t < |s.threads| && s.threads[t].pc != Idle && BothShaped(s, s') && RetiredOk(s) && Extends(s, s', t)
    requires var pc, pc' := s.threads[t].pc, s'.threads[t].pc;
             && s'.mem.retired == (if pc.DeqFree? then s.mem.retired + [pc.curHead] else s.mem.retired)
             && (pc.DeqFree? ==> pc.curHead in s.h.rank && s.h.rank[pc.curHead] < s.h.rank[s.mem.head]
                                 && pc.curHead !in s.mem.retired)
             && (s'.mem.head != s.mem.head ==>
                   pc'.DeqFree? && pc'.curHead == s.mem.head && Follows(s.h, s.mem.head, s'.mem.head))
    ensures RetiredOk(s')
  {
    forall id | id in s'.h.rank && s'.h.rank[id] < s'.h.rank[s'.mem.head]
      ensures id in s'.mem.retired || Retiring(s', id)
    {
      assert s'.h.chain[s'.h.rank[id]] == id;
      if id == s.mem.head {
        assert s'.threads[t].pc.curHead == id;
      } else {
        assert s'.h.chain[s'.h.rank[s.mem.head]] == s.mem.head;
        assert id in s.h.rank by {
          var before := s.h.chain[s'.h.rank[id]];
          assert before in s.h.rank && s'.h.rank[before] == s'.h.rank[id];
          assert s'.h.chain[s'.h.rank[before]] == before;
        }
        if id !in s.mem.retired {
          var u :| 0 <= u < |s.threads| && s.threads[u].pc.DeqFree? && s.threads[u].pc.curHead == id;
          if u == t {
            assert s'.mem.retired[|s.mem.retired|] == id;
          } else {
            assert s'.threads[u] == s.threads[u];
          }
        }
      }
    }
  }

  ghost predicate BothShaped(s: State, s': State) {
    Shape(s.mem, s.h) && Shape(s'.mem, s'.h)
  }

  lemma AdvanceOwnsOps(s: State, t: nat, weak: bool)
    requires Inv(s) && t < |s.threads| && s.threads[t].pc != Idle
    ensures var s' := Step(s, Advance(t, weak));
            forall i :: 0 <= i < |s'.h.ops| && s'.h.ops[i].outcome == Pending ==>
              exists u :: 0 <= u < |s'.threads| && s'.threads[u].pc != Idle && s'.threads[u].op == i
  {
    var s' := Step(s, Advance(t, weak));
    ReadyThread(s, t);
    ReturnsWhenIdle(s, t, weak);
    forall i | 0 <= i < |s'.h.ops| && s'.h.ops[i].outcome == Pending
      ensures exists u :: 0 <= u < |s'.threads| && s'.threads[u].pc != Idle && s'.threads[u].op == i
    {
      assert i < |s.h.ops| && s.h.ops[i].outcome == Pending;
      var u :| 0 <= u < |s.threads| && s.threads[u].pc != Idle && s.threads[u].op == i;
      assert s'.threads[u].op == i && s'.threads[u].pc != Idle;
    }
  }

  /** A thread is idle again only when its operation has returned, and no operation returns otherwise. */
  lemma ReturnsWhenIdle(s: State, t: nat, weak: bool)
    requires t < |s.threads| && s.threads[t].pc != Idle && s.threads[t].op < |s.h.ops|
    ensures var s' := Step(s, Advance(t, weak));
            && |s'.threads| == |s.threads| && |s'.h.ops| == |s.h.ops|
            && (forall u :: 0 <= u < |s.threads| && u != t ==> s'.threads[u] == s.threads[u])
            && s'.threads[t].op == s.threads[t].op
            && (s'.threads[t].pc == Idle ==> s'.h.ops[s.threads[t].op].outcome != Pending)
            && (forall i :: 0 <= i < |s.h.ops| && s'.h.ops[i].outcome == Pending ==> s.h.ops[i].outcome == Pending)
  {
  }

  lemma AdvanceOwned(s: State, t: nat, weak: bool)
    requires Inv(s) && t < |s.threads| && s.threads[t].pc != Idle
    ensures Owned(Step(s, Advance(t, weak)))
  {
    var s' := Step(s, Advance(t, weak));
    AdvanceOwnsOps(s, t, weak);
    ReadyThread(s, t);
    PcNodes(s.mem, s.h, s.h.ops[s.threads[t].op], s.threads[t].pc, weak);
    forall id | 0 <= id < |s'.mem.nodes| && id !in s'.h.rank
      ensures exists u :: 0 <= u < |s'.threads| && HasNode(s'.threads[u].pc) && s'.threads[u].pc.node == id
    {
      var u :| 0 <= u < |s.threads| && HasNode(s.threads[u].pc) && s.threads[u].pc.node == id;
      assert HasNode(s'.threads[u].pc) && s'.threads[u].pc.node == id;
    }
  }

  lemma AdvanceInv(s: State, t: nat, weak: bool)
    requires Inv(s) && t < |s.threads| && s.threads[t].pc != Idle
    ensures Inv(Step(s, Advance(t, weak)))
  {
    AdvanceExtends(s, t, weak);
    ReadyThread(s, t);
    LogStep(s.mem, s.h, s.threads[t].op, s.threads[t].pc, weak);
    AdvanceOps(s, t, weak);
    AdvanceThreads(s, t, weak);
    AdvanceApart(s, t, weak);
    AdvanceRetired(s, t, weak);
    AdvanceOwned(s, t, weak);
  }

  // ----- A thread calls an operation -----

  lemma InvokeLog(s: State, t: nat, c: Call)
    requires LogOk(s.h) && t < |s.threads| && s.threads[t].pc == Idle
    ensures LogOk(Step(s, Invoke(t, c)).h)
  {
    var s' := Step(s, Invoke(t, c));
    forall k | 0 <= k < |s'.h.who|
      ensures match s'.h.who[k]
              case Nobody => s'.h.log[k + 1] == s'.h.log[k]
              case Actor(j) => j < |s'.h.ops| && s'.h.ops[j].lin == Acts(k)
                               && s'.h.log[k + 1] == After(s'.h.log[k], s'.h.ops[j].call)
    {
      if k < |s.h.who| {
        assert s'.h.who[k] == s.h.who[k];
      }
    }
  }

  lemma InvokeMemory(s: State, t: nat, c: Call)
    requires Inv(s) && t < |s.threads| && s.threads[t].pc == Idle
    ensures var s' := Step(s, Invoke(t, c));
            MemoryOk(s.mem, s.h, s'.mem, s'.h) && Extends(s, s', t) && LogOk(s'.h)
  {
    var s' := Step(s, Invoke(t, c));
    assert Current(s'.h) == Current(s.h);
    assert ChainOk(s'.mem, s'.h);
    assert LinksOk(s'.mem, s'.h);
    InvokeLog(s, t, c);
  }

  lemma InvokeThreads(s: State, t: nat, c: Call)
    requires Inv(s) && t < |s.threads| && s.threads[t].pc == Idle
    ensures var s' := Step(s, Invoke(t, c)); Shape(s'.mem, s'.h) && ThreadsOk(s') && OpsOk(s'.h)
  {
    var s' := Step(s, Invoke(t, c));
    InvokeMemory(s, t, c);
    forall j | 0 <= j < |s'.h.ops|
      ensures OpOk(s'.h, j)
    {
      if j < |s.h.ops| {
        OpStays(s.mem, s.h, s'.mem, s'.h, j);
      }
    }
    forall u | 0 <= u < |s'.threads|
      ensures ThreadOk(s', u)
    {
      if u != t {
        OtherThread(s, s', t, u);
      }
    }
  }

  lemma InvokeApart(s: State, t: nat, c: Call)
    requires Inv(s) && t < |s.threads| && s.threads[t].pc == Idle
    ensures ThreadsApart(Step(s, Invoke(t, c)))
  {
    var s' := Step(s, Invoke(t, c));
    forall u | 0 <= u < |s.threads| && u != t
      ensures Apart(s'.threads[t], s'.threads[u]) && Apart(s'.threads[u], s'.threads[t])
    {
      assert ThreadOk(s, u);
    }
  }

  lemma InvokeOwned(s: State, t: nat, c: Call)
    requires Inv(s) && t < |s.threads| && s.threads[t].pc == Idle
    ensures var s' := Step(s, Invoke(t, c)); Shape(s'.mem, s'.h) && Owned(s') && RetiredOk(s')
  {
    var s' := Step(s, Invoke(t, c));
    InvokeMemory(s, t, c);
    forall i | 0 <= i < |s'.h.ops| && s'.h.ops[i].outcome == Pending
      ensures exists u :: 0 <= u < |s'.threads| && s'.threads[u].pc != Idle && s'.threads[u].op == i
    {
      if i == |s.h.ops| {
        assert s'.threads[t].op == i;
      } else {
        var u :| 0 <= u < |s.threads| && s.threads[u].pc != Idle && s.threads[u].op == i;
        assert s'.threads[u] == s.threads[u];
      }
    }
    forall id | 0 <= id < |s'.mem.nodes| && id !in s'.h.rank
      ensures exists u :: 0 <= u < |s'.threads| && HasNode(s'.threads[u].pc) && s'.threads[u].pc.node == id
    {
      if id == |s.mem.nodes| {
        assert s'.threads[t].pc.node == id;
      } else {
        var u :| 0 <= u < |s.threads| && HasNode(s.threads[u].pc) && s.threads[u].pc.node == id;
        assert s'.threads[u] == s.threads[u];
      }
    }
    forall id | id in s'.h.rank && s'.h.rank[id] < s'.h.rank[s'.mem.head]
      ensures id in s'.mem.retired || Retiring(s', id)
    {
      if id !in s.mem.retired {
        var u :| 0 <= u < |s.threads| && s.threads[u].pc.DeqFree? && s.threads[u].pc.curHead == id;
        assert s'.threads[u] == s.threads[u];
      }
    }
  }

  lemma InvokeInv(s: State, t: nat, c: Call)
    requires Inv(s) && t < |s.threads| && s.threads[t].pc == Idle
    ensures Inv(Step(s, Invoke(t, c)))
  {
    InvokeMemory(s, t, c);
    InvokeThreads(s, t, c);
    InvokeApart(s, t, c);
    InvokeOwned(s, t, c);
  }

  // ----- Every run -----

  lemma StepInv(s: State, mv: Move)
    requires Inv(s)
    ensures Inv(Step(s, mv))
  {
    if mv.t < |s.threads| {
      assert ThreadOk(s, mv.t);
      if mv.Invoke? && s.threads[mv.t].pc == Idle {
        InvokeInv(s, mv.t, mv.call);
      } else if mv.Advance? && s.threads[mv.t].pc != Idle {
        AdvanceInv(s, mv.t, mv.weak);
      }
    }
  }

  lemma {:induction false} RunInv(s: State, moves: seq<Move>)
    requires Inv(s)
    ensures Inv(Run(s, moves))
    decreases |moves|
  {
    if moves == [] {
    } else {
      StepInv(s, moves[0]);
      RunInv(Step(s, moves[0]), moves[1..]);
    }
  }

  /** A state that some run reaches: any number of threads, any calls, any interleaving, any spurious failures. */
  ghost predicate Reachable(s: State) {
    exists n, moves :: s == Run(Init(n), moves)
  }

  lemma ReachableInv(s: State)
    requires Reachable(s)
    ensures Inv(s)
  {
    var n, moves :| s == Run(Init(n), moves);
    InitInv(n);
    RunInv(Init(n), moves);
  }

  lemma ReachableRun(s: State, moves: seq<Move>)
    requires Reachable(s)
    ensures Reachable(Run(s, moves))
  {
    var n, before :| s == Run(Init(n), before);
    RunAppend(Init(n), before, moves);
    assert Run(s, moves) == Run(Init(n), before + moves);
  }

  lemma ReachableStep(s: State, mv: Move)
    requires Reachable(s)
    ensures Reachable(Step(s, mv))
  {
    ReachableRun(s, [mv]);
    assert [mv][1..] == [];
    assert Run(s, [mv]) == Run(Step(s, mv), []);
  }

  /** The registers that an instruction reads memory through point to nodes. */
  lemma RegistersPoint(s: State, t: nat)
    requires Reachable(s) && t < |s.threads| && s.threads[t].pc != Idle
    ensures s.threads[t].op < |s.h.ops|
    ensures s.threads[t].pc.EnqLink? ==> s.threads[t].pc.curTail < |s.mem.nodes|
    ensures s.threads[t].pc.DeqRead? ==> s.threads[t].pc.next.To? && s.threads[t].pc.next.id < |s.mem.nodes|
  {
    ReachableInv(s);
    assert ThreadOk(s, t);
  }
}

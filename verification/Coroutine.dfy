/** The class `Coroutine`: its status, and the thread's pointer to the current coroutine. */
module Coroutine {
  import opened SchedulerMachine
  import opened SchedulerInvariant

  /** How a callback ends: it returns, or throws a `std::exception`, or throws something else. */
  datatype Ending = Returns | Throws | ThrowsOther

  /** A callback yields `pauses` times before it ends. */
  datatype Body = Body(pauses: nat, ending: Ending)

  /** A coroutine's fields; `next` is the slice at which its saved context continues. */
  datatype Fields = Fields(status: Status, body: Body, next: nat)

  function Fresh(body: Body): Fields {
    Fields(RADY, body, 0)
  }

  /** What the status is when the context switches back after slice `next`; an unknown exception leaves it at `RUNN`. */
  function AfterSlice(body: Body, next: nat): Status {
    if next < body.pauses then SUSP
    else match body.ending
         case Returns => DEAD
         case Throws => ECPT
         case ThrowsOther => RUNN
  }

  datatype Call = Resuming | Resetting(body: Body)

  /** The assertion at the head of `resume` or `reset` holds. */
  predicate Allowed(c: Fields, call: Call) {
    match call
    case Resuming => Resumable(c.status)
    case Resetting(_) => c.status != RUNN
  }

  function Called(c: Fields, call: Call): Fields {
    if !Allowed(c, call) then c
    else
      match call
      case Resuming => Fields(AfterSlice(c.body, c.next), c.body, c.next + 1)
      case Resetting(body) => Fresh(body)
  }

  function AfterCalls(c: Fields, calls: seq<Call>): Fields
    decreases |calls|
  {
    if calls == [] then c else AfterCalls(Called(c, calls[0]), calls[1..])
  }

  function Resumes(n: nat): (calls: seq<Call>)
    ensures |calls| == n && forall i :: 0 <= i < n ==> calls[i] == Resuming
  {
    seq(n, _ => Resuming)
  }

  lemma {:induction false} ResumesFrom(c: Fields, n: nat)
    requires Resumable(c.status) && c.next <= c.body.pauses
    ensures AfterCalls(c, Resumes(n)) ==
      if n == 0 then c
      else if n <= c.body.pauses + 1 - c.next then Fields(AfterSlice(c.body, c.next + n - 1), c.body, c.next + n)
      else Fields(AfterSlice(c.body, c.body.pauses), c.body, c.body.pauses + 1)
    decreases n
  {
    if n > 0 {
      var c' := Called(c, Resuming);
      assert Resumes(n)[1..] == Resumes(n - 1);
      if Resumable(c'.status) {
        ResumesFrom(c', n - 1);
      } else {
        NoneAllowed(c', n - 1);
      }
    }
  }

  lemma {:induction false} NoneAllowed(c: Fields, n: nat)
    requires !Resumable(c.status)
    ensures AfterCalls(c, Resumes(n)) == c
    decreases n
  {
    if n > 0 {
      assert Resumes(n)[1..] == Resumes(n - 1);
      NoneAllowed(c, n - 1);
    }
  }

  /** A callback that yields `k` times is resumed exactly `k + 1` times: another resume is allowed until then,
      and not after. */
  lemma ResumedOncePerSlice(body: Body, n: nat)
    ensures Allowed(AfterCalls(Fresh(body), Resumes(n)), Resuming) <==> n <= body.pauses
    ensures AfterCalls(Fresh(body), Resumes(n)).next == if n <= body.pauses then n else body.pauses + 1
  {
    ResumesFrom(Fresh(body), n);
  }

  /**
   * Once its callback has ended, a coroutine can take another callback exactly when the callback did not throw
   * something other than a `std::exception`; otherwise no sequence of calls ever changes it again, and it cannot be
   * destroyed.
   */
  lemma ReusableIffKnownEnd(body: Body, calls: seq<Call>)
    ensures
      var c := AfterCalls(Fresh(body), Resumes(body.pauses + 1));
      && !Allowed(c, Resuming)
      && (forall other :: Allowed(c, Resetting(other)) <==> body.ending != ThrowsOther)
      && (Ended(c.status) <==> body.ending != ThrowsOther)
      && (body.ending == ThrowsOther ==> AfterCalls(c, calls) == c)
  {
    ResumesFrom(Fresh(body), body.pauses + 1);
    var c := AfterCalls(Fresh(body), Resumes(body.pauses + 1));
    if body.ending == ThrowsOther {
      Stuck(c, calls);
    }
  }

  lemma {:induction false} Stuck(c: Fields, calls: seq<Call>)
    requires c.status == RUNN
    ensures AfterCalls(c, calls) == c
    decreases |calls|
  {
    if calls != [] {
      Stuck(c, calls[1..]);
    }
  }

  /**
   * After a reset nothing of the former callback is left: the new one can be resumed once for each of its slices, and
   * then its ending decides the status.
   */
  lemma ResetRestarts(c: Fields, body: Body, n: nat)
    requires c.status != RUNN
    ensures
      var after := AfterCalls(c, [Resetting(body)] + Resumes(n));
      && (Allowed(after, Resuming) <==> n <= body.pauses)
      && after.next == (if n <= body.pauses then n else body.pauses + 1)
      && after.status ==
        if n == 0 then RADY
        else if n <= body.pauses then SUSP
        else match body.ending case Returns => DEAD case Throws => ECPT case ThrowsOther => RUNN
  {
    assert ([Resetting(body)] + Resumes(n))[1..] == Resumes(n);
    ResumesFrom(Fresh(body), n);
  }

  /** The callback of a scheduled task. */
  function BodyOf(program: Program): Body {
    Body(program.pauses, if program.throws then Throws else Returns)
  }

  /** The scheduler's steps from `resume` to the switch back do to a coroutine what the class does. */
  lemma SchedulerAgrees(s: State, w: nat, c: nat)
    requires Reachable(s) && w < |s.workers| && s.workers[w].pc == Resume(c)
    ensures c < |s.coros| && s.coros[c].job < |s.jobs|
    ensures
      var body := BodyOf(s.jobs[s.coros[c].job].program);
      var before := Fields(s.coros[c].status, body, s.coros[c].next);
      var after := End(Begin(s, w, c), w, c);
      && Allowed(before, Resuming)
      && c < |after.coros| && after.coros[c].job == s.coros[c].job
      && Called(before, Resuming) == Fields(after.coros[c].status, body, after.coros[c].next)
  {
    ReachableInv(s);
    assert PcOk(s, w, s.workers[w].pc);
  }

  /** The thread-local variables of one thread. */
  class Thread {
    var current: Coroutine?

    constructor ()
      ensures current == null
    {
      current := null;
    }
  }

  /** An operation returns `false` when its assertion fails, which aborts the program. */
  class Coroutine {
    var status: Status
    var body: Body
    var next: nat

    ghost function Abs(): Fields
      reads this
    {
      Fields(status, body, next)
    }

    constructor (body: Body)
      ensures Abs() == Fresh(body)
      ensures status == RADY && this.body == body && next == 0
    {
      this.body, next := body, 0;
      status := INIT;
      status := RADY;
    }

    method ResumeOn(thread: Thread) returns (ok: bool)
      modifies this, thread
      ensures ok == Allowed(old(Abs()), Resuming)
      ensures Abs() == Called(old(Abs()), Resuming)
      ensures thread.current == if ok then null else old(thread.current)
    {
      if status != RADY && status != SUSP {
        return false;
      }
      status := RUNN;
      thread.current := this;
      // The context switches, and the callback runs its next slice.
      next := next + 1;
      if next <= body.pauses {
        ok := Yield(thread);
      } else {
        Trampoline(thread);
        ok := true;
      }
    }

    method Yield(thread: Thread) returns (ok: bool)
      modifies this`status, thread
      ensures ok == (old(status) == RUNN)
      ensures status == if ok then SUSP else old(status)
      ensures thread.current == if ok then null else old(thread.current)
    {
      if status != RUNN {
        return false;
      }
      status := SUSP;
      thread.current := null;
      ok := true;
    }

    /** The end of the callback, on the thread whose current coroutine this is. */
    method Trampoline(thread: Thread)
      requires thread.current == this
      modifies this`status, thread
      ensures status == match body.ending case Returns => DEAD case Throws => ECPT case ThrowsOther => old(status)
      ensures thread.current == null
    {
      match body.ending {
        case Returns => thread.current.status := DEAD;
        case Throws => thread.current.status := ECPT;
        case ThrowsOther =>
      }
      thread.current := null;
    }

    method ResetTo(body: Body) returns (ok: bool)
      modifies this
      ensures ok == Allowed(old(Abs()), Resetting(body))
      ensures Abs() == Called(old(Abs()), Resetting(body))
      ensures ok ==> status == RADY && this.body == body && next == 0
    {
      if status == RUNN {
        return false;
      }
      this.body := body;
      status := INIT;
      next := 0;
      status := RADY;
      ok := true;
    }

    method Destroy() returns (ok: bool)
      ensures ok == Ended(status)
    {
      ok := status == DEAD || status == ECPT;
    }
  }
}

/** The counting semaphore of synch.c: a counter that may go below zero and a FIFO
    queue of the threads that wait. */
module Synch {
  import opened Options

  datatype Sema<T> = Sema(cnt: int, queue: seq<T>)

  /** P by thread t: the new semaphore, and whether t goes on without waiting. */
  function P<T>(s: Sema<T>, t: T): (Sema<T>, bool) {
    if s.cnt - 1 < 0 then (Sema(s.cnt - 1, s.queue + [t]), false)
    else (Sema(s.cnt - 1, s.queue), true)
  }

  /** V: the new semaphore and the thread that is released, if any waits. */
  function V<T>(s: Sema<T>): (Sema<T>, Option<T>) {
    if s.cnt + 1 <= 0 && s.queue != [] then (Sema(s.cnt + 1, s.queue[1..]), Some(s.queue[0]))
    else (Sema(s.cnt + 1, s.queue), None)
  }

  ghost predicate Valid<T>(s: Sema<T>) {
    |s.queue| == if s.cnt < 0 then -s.cnt else 0
  }

  /** P and V keep the wait queue as long as the counter is below zero; V releases a thread
      exactly when one waits. */
  lemma OperationsKeepValid<T>(s: Sema<T>)
    requires Valid(s)
    ensures Valid(V(s).0) && forall t :: Valid(P(s, t).0)
    ensures V(s).1.Some? <==> s.queue != []
  {}

  // ---- Whole histories ----------------------------------------------------------

  datatype Call<T> = PCall(thread: T) | VCall

  function After<T>(init: nat, calls: seq<Call<T>>): Sema<T> {
    if calls == [] then Sema(init, [])
    else
      var s := After(init, calls[..|calls|-1]);
      match calls[|calls|-1]
      case PCall(t) => P(s, t).0
      case VCall => V(s).0
  }

  /** The threads in the order in which they called P. */
  function Callers<T>(calls: seq<Call<T>>): seq<T> {
    if calls == [] then []
    else Callers(calls[..|calls|-1]) + if calls[|calls|-1].PCall? then [calls[|calls|-1].thread] else []
  }

  /** The threads in the order in which they got past P. */
  function Passed<T>(init: nat, calls: seq<Call<T>>): seq<T> {
    if calls == [] then []
    else
      var s := After(init, calls[..|calls|-1]);
      Passed(init, calls[..|calls|-1]) +
      match calls[|calls|-1]
      case PCall(t) => (if P(s, t).1 then [t] else [])
      case VCall => (if V(s).1.Some? then [V(s).1.value] else [])
  }

  function Signals<T>(calls: seq<Call<T>>): nat {
    if calls == [] then 0 else Signals(calls[..|calls|-1]) + if calls[|calls|-1].VCall? then 1 else 0
  }

  lemma PassStep<T>(passed: seq<T>, s: Sema<T>, callers: seq<T>, c: Call<T>)
    requires Valid(s) && passed + s.queue == callers
    ensures match c
            case PCall(t) => (if P(s, t).1 then passed + [t] else passed) + P(s, t).0.queue == callers + [t]
            case VCall => (if V(s).1.Some? then passed + [V(s).1.value] else passed) + V(s).0.queue == callers
  {
    if c.VCall? && s.queue != [] { assert s.queue == [s.queue[0]] + s.queue[1..]; }
  }

  lemma Unit<T>(a: seq<T>)
    ensures a + [] == a
  {}

  /** For every history: the wait queue has max(0, -cnt) threads, and threads pass in the
      order in which they called. */
  lemma {:induction false} FirstComeFirstServed<T>(init: nat, calls: seq<Call<T>>)
    ensures Valid(After(init, calls))
    ensures Passed(init, calls) + After(init, calls).queue == Callers(calls)
    ensures After(init, calls).cnt == init + Signals(calls) - |Callers(calls)|
  {
    if calls == [] {
    } else {
      var before := calls[..|calls|-1];
      FirstComeFirstServed(init, before);
      OperationsKeepValid(After(init, before));
      PassStep(Passed(init, before), After(init, before), Callers(before), calls[|calls|-1]);
      Unit(Passed(init, before));
      Unit(Callers(before));
    }
  }

  /** The counter and queue behave as a pool of tokens: the k-th caller of P has got past it
      exactly when more than k tokens, initial or from V, have been made available. */
  lemma TokenRefinement<T>(init: nat, calls: seq<Call<T>>, k: nat)
    requires k < |Callers(calls)|
    ensures k < |Passed(init, calls)| <==> k < init + Signals(calls)
    ensures k < |Passed(init, calls)| ==> Passed(init, calls)[k] == Callers(calls)[k]
  {
    FirstComeFirstServed(init, calls);
    assert |Passed(init, calls)| + |After(init, calls).queue| == |Callers(calls)|;
  }

  // ---- The semaphore ---------------------------------------------------------------

  class Semaphore<T> {
    var cnt: int
    var queue: seq<T>

    function Current(): Sema<T>
      reads this
    {
      Sema(cnt, queue)
    }

    constructor ()
      ensures Current() == Sema(0, [])
    {
      cnt := 0;
      queue := [];
    }

    method Initialize(cnt: int)
      modifies this
      ensures Current() == Sema(cnt, old(queue))
    {
      this.cnt := cnt;
    }

    method Wait(self: T) returns (goesOn: bool)
      modifies this
      ensures (Current(), goesOn) == P(old(Current()), self)
    {
      cnt := cnt - 1;
      if cnt < 0 {
        queue := queue + [self];
        goesOn := false;
      } else {
        goesOn := true;
      }
    }

    method Signal() returns (wake: Option<T>)
      modifies this
      ensures (Current(), wake) == V(old(Current()))
    {
      cnt := cnt + 1;
      wake := None;
      if cnt <= 0 && |queue| > 0 {
        wake := Some(queue[0]);
        queue := queue[1..];
      }
    }
  }
}

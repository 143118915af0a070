/** What single calls of the thread system do, and what its semaphores and its delete queue are
    in every run of it. */
module MinithreadCalls {
  import opened Options
  import opened MultilevelQueue
  import opened Scheduler
  import opened Minithread
  import Synch

  // ---- Runs with their calls -----------------------------------------------------------------

  ghost predicate CallAt(run: seq<Kernel>, calls: seq<Call>, n: nat)
    requires n < |calls| < |run|
  {
    Typed(run[n]) && Possible(run[n], calls[n]) && run[n + 1] == Perform(run[n], calls[n])
  }

  ghost predicate IsTrace(run: seq<Kernel>, calls: seq<Call>) {
    && |run| == |calls| + 1 && Initial(run[0])
    && forall n: nat :: n < |calls| ==> CallAt(run, calls, n)
  }

  lemma TraceInv(run: seq<Kernel>, calls: seq<Call>, n: nat)
    requires IsTrace(run, calls) && n < |run|
    ensures Inv(run[n])
  {
    forall m | 0 <= m < |run| - 1 ensures Next(run[m], run[m + 1]) { assert CallAt(run, calls, m); }
    RunInv(run, n);
  }

  // ---- The semaphores --------------------------------------------------------------------------

  /** The calls on semaphore i that one call of the system consists of. An ending thread signals
      the reaper; the clock handler signals the alarm thread. */
  function Ops(k: Kernel, c: Call, i: nat): seq<Synch.Call<Tid>> {
    match c
    case PCall(j) => if j == i && k.running.Some? then [Synch.PCall(k.running.value)] else []
    case VCall(j) => if j == i then [Synch.VCall] else []
    case ExitCall => if i == 0 then [Synch.VCall] else []
    case ClockTick(signals) => if i == 1 then Signals(signals) else []
    case _ => []
  }

  function Signals(n: nat): seq<Synch.Call<Tid>> {
    if n == 0 then [] else Signals(n - 1) + [Synch.VCall]
  }

  /** All calls on semaphore i in the first n calls of a run. */
  function History(run: seq<Kernel>, calls: seq<Call>, i: nat, n: nat): seq<Synch.Call<Tid>>
    requires n <= |calls| < |run|
  {
    if n == 0 then [] else History(run, calls, i, n - 1) + Ops(run[n - 1], calls[n - 1], i)
  }

  /** A semaphore after some more calls. */
  function Apply(s: Synch.Sema<Tid>, ops: seq<Synch.Call<Tid>>): Synch.Sema<Tid> {
    if ops == [] then s
    else
      var before := Apply(s, ops[..|ops| - 1]);
      match ops[|ops| - 1]
      case PCall(t) => Synch.P(before, t).0
      case VCall => Synch.V(before).0
  }

  lemma {:induction false} AfterApply(init: nat, a: seq<Synch.Call<Tid>>, b: seq<Synch.Call<Tid>>)
    ensures Synch.After(init, a + b) == Apply(Synch.After(init, a), b)
  {
    if b == [] {
      assert a + b == a;
    } else {
      var n := |b| - 1;
      AfterApply(init, a, b[..n]);
      assert (a + b)[..|a + b| - 1] == a + b[..n];
    }
  }

  lemma ApplyOne(s: Synch.Sema<Tid>, op: Synch.Call<Tid>)
    ensures Apply(s, [op]) == match op case PCall(t) => Synch.P(s, t).0 case VCall => Synch.V(s).0
  {
    assert [op][..0] == [];
  }

  lemma ApplyMore(s: Synch.Sema<Tid>, ops: seq<Synch.Call<Tid>>)
    ensures Apply(s, ops + [Synch.VCall]) == Synch.V(Apply(s, ops)).0
  {
    assert (ops + [Synch.VCall])[..|ops|] == ops;
  }

  lemma RunNextKeepsSems(k: Kernel)
    requires 0 <= k.clock.level < |k.ready|
    ensures RunNext(k).sems == k.sems
  {}

  lemma YieldKeepsSems(k: Kernel)
    requires 0 <= k.clock.level < |k.ready| && (k.running.Some? ==> k.running.value in k.live)
    ensures Yield(k).sems == k.sems
  {}

  lemma WakeSems(k: Kernel, j: nat, i: nat)
    requires i < |k.sems| && j < |k.sems|
    ensures |Wake(k, j).sems| == |k.sems|
    ensures Wake(k, j).sems[i] == if i == j then Synch.V(k.sems[i]).0 else k.sems[i]
  {}

  lemma {:induction false} WakeTimesSems(k: Kernel, j: nat, n: nat, i: nat)
    requires i < |k.sems| && j < |k.sems|
    ensures WakeTimes(k, j, n).sems[i] == if i == j then Apply(k.sems[i], Signals(n)) else k.sems[i]
  {
    if n == 0 {
    } else {
      WakeTimesSems(k, j, n - 1, i);
      WakeSems(WakeTimes(k, j, n - 1), j, i);
      if i == j { ApplyMore(k.sems[i], Signals(n - 1)); }
    }
  }

  lemma PSems(k: Kernel, j: nat, i: nat)
    requires Typed(k) && Possible(k, PCall(j)) && i < |k.sems|
    ensures |Perform(k, PCall(j)).sems| == |k.sems|
    ensures Perform(k, PCall(j)).sems[i] == if i == j then Synch.P(k.sems[i], k.running.value).0 else k.sems[i]
  {
    var t := k.running.value;
    var (s, goesOn) := Synch.P(k.sems[j], t);
    if !goesOn { YieldKeepsSems(k.(sems := k.sems[j := s], live := k.live[t := k.live[t].(status := Sleeping)])); }
  }

  lemma TickSems(k: Kernel, signals: nat, i: nat)
    requires Typed(k) && i < |k.sems|
    ensures |Perform(k, ClockTick(signals)).sems| == |k.sems|
    ensures Perform(k, ClockTick(signals)).sems[i] == if i == 1 then Apply(k.sems[i], Signals(signals)) else k.sems[i]
  {
    AdvanceOk(k.clock);
    var ticked := k.(clock := Advance(k.clock));
    WakeTimesSems(ticked, ALARM_SEMA, signals, i);
    var woken := WakeTimes(ticked, ALARM_SEMA, signals);
    if Expired(woken.clock) { YieldKeepsSems(woken); }
  }

  lemma SemaStep(k: Kernel, c: Call, i: nat)
    requires Typed(k) && Possible(k, c) && i < |k.sems|
    ensures |Perform(k, c).sems| == |k.sems| && Perform(k, c).sems[i] == Apply(k.sems[i], Ops(k, c, i))
  {
    match c
    case YieldCall => YieldKeepsSems(k);
    case PCall(j) => PSems(k, j, i); ApplyOne(k.sems[i], Synch.PCall(k.running.value));
    case VCall(j) => WakeSems(k, j, i); ApplyOne(k.sems[i], Synch.VCall);
    case ForkCall(child) =>
    case ExitCall =>
      WakeSems(Gone(k), REAPER_SEMA, i);
      RunNextKeepsSems(Wake(Gone(k), REAPER_SEMA));
      ApplyOne(k.sems[i], Synch.VCall);
    case ReapCall =>
    case ClockTick(signals) => TickSems(k, signals, i);
  }

  /** In every run of the system each semaphore is what synch.c makes of the calls on it: those of
      its threads, one V on the reaper's for each thread that ends, and one V on the alarm thread's
      for each signal of the clock handler. So Synch.FirstComeFirstServed holds of it. */
  lemma {:induction false} SemaphoresFollowCalls(run: seq<Kernel>, calls: seq<Call>, i: nat, n: nat)
    requires IsTrace(run, calls) && n < |run| && i < |run[0].sems|
    ensures run[0].sems[i].cnt >= 0 && |run[n].sems| == |run[0].sems|
    ensures run[n].sems[i] == Synch.After(run[0].sems[i].cnt, History(run, calls, i, n))
  {
    if n == 0 {
    } else {
      SemaphoresFollowCalls(run, calls, i, n - 1);
      assert CallAt(run, calls, n - 1);
      SemaStep(run[n - 1], calls[n - 1], i);
      AfterApply(run[0].sems[i].cnt, History(run, calls, i, n - 1), Ops(run[n - 1], calls[n - 1], i));
    }
  }

  // ---- Blocking, waking, starting -----------------------------------------------------------------

  /** P with no token left: the caller is put to sleep at the end of the queue and does not run on;
      with a token left it goes on, and nothing else changes. */
  lemma CallerBlocks(k: Kernel, i: nat)
    requires Inv(k) && Possible(k, PCall(i))
    ensures var k', t := Perform(k, PCall(i)), k.running.value;
            if k.sems[i].cnt <= 0 then
              && |k'.sems| == |k.sems| && k'.sems[i].queue == k.sems[i].queue + [t]
              && t in k'.live && k'.live[t].status == Sleeping && k'.running != Some(t)
            else k' == k.(sems := k.sems[i := k.sems[i].(cnt := k.sems[i].cnt - 1)])
  {
    PSems(k, i, i);
    if k.sems[i].cnt <= 0 {
      StepKeepsInv(k, PCall(i));
      var k', t := Perform(k, PCall(i)), k.running.value;
      assert SemaOk(k'.sems[i], k'.live) && t in k'.sems[i].queue;
    }
  }

  /** V with a thread waiting: the one that waits longest joins the ready queue, at the end of the
      level of its priority; nobody else moves. */
  lemma ReleasedIsReady(k: Kernel, i: nat)
    requires Inv(k) && i < |k.sems| && k.sems[i].queue != []
    ensures var k', t := Perform(k, VCall(i)), k.sems[i].queue[0];
            && t in k.live && 0 <= k.live[t].priority < |k.ready|
            && k'.ready == k.ready[k.live[t].priority := k.ready[k.live[t].priority] + [t]]
            && t in k'.live && k'.live[t] == Thread(k.live[t].priority, Ok)
            && k'.running == k.running && k'.size == k.size + 1
  {
    assert SemaOk(k.sems[i], k.live);
    Synch.OperationsKeepValid(k.sems[i]);
  }

  /** A forked thread starts with priority 0 at the end of level 0. */
  lemma ForkStarts(k: Kernel, child: Tid)
    requires Inv(k) && Possible(k, ForkCall(child))
    ensures var k' := Perform(k, ForkCall(child));
            && k'.live == k.live[child := Thread(0, Ok)] && k'.ready == k.ready[0 := k.ready[0] + [child]]
            && k'.size == k.size + 1 && k'.running == k.running && k'.sems == k.sems && k'.dead == k.dead
  {}

  // ---- The end of threads --------------------------------------------------------------------------

  /** The threads that have ended, in order. */
  function Ended(run: seq<Kernel>, calls: seq<Call>, n: nat): seq<Tid>
    requires n <= |calls| < |run|
  {
    if n == 0 then []
    else
      Ended(run, calls, n - 1)
      + if calls[n - 1].ExitCall? && run[n - 1].running.Some? then [run[n - 1].running.value] else []
  }

  function Reaped(calls: seq<Call>): nat {
    if calls == [] then 0 else Reaped(calls[..|calls| - 1]) + if calls[|calls| - 1].ReapCall? then 1 else 0
  }

  lemma DeadStep(k: Kernel, c: Call)
    requires Typed(k) && Possible(k, c)
    ensures Perform(k, c).dead == match c
            case ExitCall => k.dead + [k.running.value]
            case ReapCall => k.dead[1..]
            case _ => k.dead
  {
    match c
    case ClockTick(signals) =>
      AdvanceOk(k.clock);
      WakeTimesDead(k.(clock := Advance(k.clock)), ALARM_SEMA, signals);
    case _ =>
  }

  lemma {:induction false} WakeTimesDead(k: Kernel, i: nat, n: nat)
    requires i < |k.sems|
    ensures WakeTimes(k, i, n).dead == k.dead
  {
    if n == 0 {
    } else {
      WakeTimesDead(k, i, n - 1);
    }
  }

  /** The reaper frees the threads in the order in which they ended, each once: the delete queue
      holds those that have ended and are not yet reaped. */
  lemma {:induction false} ReapedInOrder(run: seq<Kernel>, calls: seq<Call>, n: nat)
    requires IsTrace(run, calls) && n < |run|
    ensures Reaped(calls[..n]) <= |Ended(run, calls, n)|
    ensures run[n].dead == Ended(run, calls, n)[Reaped(calls[..n])..]
  {
    if n == 0 {
    } else {
      ReapedInOrder(run, calls, n - 1);
      assert CallAt(run, calls, n - 1);
      DeadStep(run[n - 1], calls[n - 1]);
      assert calls[..n][..n - 1] == calls[..n - 1];
    }
  }
}

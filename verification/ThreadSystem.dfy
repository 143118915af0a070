/** Liveness of the thread system of minithread.c, and its routines as they update the
    system's globals in place. */
module ThreadSystem {
  import opened Options
  import opened MultilevelQueue
  import opened Scheduler
  import opened Minithread
  import Synch

  // ---- Every ready thread runs ----------------------------------------------------------

  predicate At(ready: seq<seq<Tid>>, l: nat, p: nat, t: Tid) {
    l < |ready| && p < |ready[l]| && ready[l][p] == t
  }

  /** t has moved one place forward, or runs if there was none in front. */
  predicate Advanced(k: Kernel, l: nat, p: nat, t: Tid) {
    if p > 0 then At(k.ready, l, p - 1, t) else k.running == Some(t)
  }

  lemma ScheduleStays(k: Kernel, u: Tid, l: nat, p: nat, t: Tid)
    requires u in k.live && At(k.ready, l, p, t)
    ensures At(Schedule(k, u).ready, l, p, t)
  {}

  lemma WakeStays(k: Kernel, i: nat, l: nat, p: nat, t: Tid)
    requires i < |k.sems| && At(k.ready, l, p, t)
    ensures At(Wake(k, i).ready, l, p, t)
  {
    var (s, woken) := Synch.V(k.sems[i]);
    if woken.Some? && woken.value in k.live {
      var k' := k.(sems := k.sems[i := s]);
      ScheduleStays(k'.(live := k'.live[woken.value := k'.live[woken.value].(status := Ok)]), woken.value, l, p, t);
    }
  }

  lemma RunNextAdvances(k: Kernel, l: nat, p: nat, t: Tid)
    requires |k.ready| == LEVELS && 0 <= k.clock.level < LEVELS && k.size == Total(k.ready)
    requires At(k.ready, l, p, t)
    ensures At(RunNext(k).ready, l, p, t) || Advanced(RunNext(k), l, p, t)
    ensures k.clock.level == l ==> Advanced(RunNext(k), l, p, t)
  {
    PickFinds(k.ready, k.clock.level);
    TotalZero(k.ready);
  }

  lemma YieldAdvances(k: Kernel, l: nat, p: nat, t: Tid)
    requires Typed(k) && k.size == Total(k.ready)
    requires k.running.Some? ==> 0 <= k.live[k.running.value].priority <= 3
    requires At(k.ready, l, p, t)
    ensures At(Yield(k).ready, l, p, t) || Advanced(Yield(k), l, p, t)
    ensures k.clock.level == l ==> Advanced(Yield(k), l, p, t)
  {
    if k.running.Some? {
      var u := k.running.value;
      var r := k.live[u].(priority := Adjust(k.live[u].priority, Expired(k.clock)));
      var k' := k.(live := k.live[u := r]);
      ScheduleStays(k', u, l, p, t);
      TotalUpdate(k'.ready, r.priority, k'.ready[r.priority] + [u]);
      RunNextAdvances(Schedule(k', u), l, p, t);
    } else {
      RunNextAdvances(k, l, p, t);
    }
  }

  /** Whatever is called, a ready thread keeps its place or moves forward; it moves forward
      at every clock tick on which the quota expires while its level is being served. */
  lemma CallAdvances(k: Kernel, c: Call, l: nat, p: nat, t: Tid)
    requires Inv(k) && Possible(k, c) && At(k.ready, l, p, t)
    ensures At(Perform(k, c).ready, l, p, t) || Advanced(Perform(k, c), l, p, t)
    ensures Perform(k, c).clock == if c.ClockTick? then Advance(k.clock) else k.clock
    ensures c.ClockTick? && Advance(k.clock).level == l && Expired(Advance(k.clock)) ==>
              Advanced(Perform(k, c), l, p, t)
  {
    match c
    case YieldCall => YieldAdvances(k, l, p, t);
    case PCall(i) =>
      var u := k.running.value;
      var (s, goesOn) := Synch.P(k.sems[i], u);
      if !goesOn {
        YieldAdvances(k.(sems := k.sems[i := s], live := k.live[u := k.live[u].(status := Sleeping)]), l, p, t);
      }
    case VCall(i) => WakeStays(k, i, l, p, t);
    case ForkCall(child) => ForkStays(k, child, l, p, t);
    case ExitCall => ExitAdvances(k, l, p, t);
    case ReapCall =>
    case ClockTick(signals) => TickAdvances(k, signals, l, p, t);
  }

  lemma {:induction false} WakeTimesStays(k: Kernel, i: nat, n: nat, l: nat, p: nat, t: Tid)
    requires i < |k.sems| && At(k.ready, l, p, t)
    ensures At(WakeTimes(k, i, n).ready, l, p, t)
  {
    if n == 0 {
    } else {
      WakeTimesStays(k, i, n - 1, l, p, t);
      WakeStays(WakeTimes(k, i, n - 1), i, l, p, t);
    }
  }

  lemma TickAdvances(k: Kernel, signals: nat, l: nat, p: nat, t: Tid)
    requires Inv(k) && At(k.ready, l, p, t)
    ensures var k' := Perform(k, ClockTick(signals));
            && (At(k'.ready, l, p, t) || Advanced(k', l, p, t))
            && k'.clock == Advance(k.clock)
            && (Advance(k.clock).level == l && Expired(Advance(k.clock)) ==> Advanced(k', l, p, t))
  {
    AdvanceOk(k.clock);
    var ticked := k.(clock := Advance(k.clock));
    WakeTimesKeeps(ticked, ALARM_SEMA, signals);
    WakeTimesStays(ticked, ALARM_SEMA, signals, l, p, t);
    if Expired(ticked.clock) { YieldAdvances(WakeTimes(ticked, ALARM_SEMA, signals), l, p, t); }
  }

  lemma ForkStays(k: Kernel, child: Tid, l: nat, p: nat, t: Tid)
    requires Inv(k) && Possible(k, ForkCall(child)) && At(k.ready, l, p, t)
    ensures At(Perform(k, ForkCall(child)).ready, l, p, t)
  {
    var k' := k.(live := k.live[child := Thread(0, Ok)]);
    ScheduleStays(k'.(live := k'.live[child := k'.live[child].(status := Ok)]), child, l, p, t);
  }

  lemma ExitAdvances(k: Kernel, l: nat, p: nat, t: Tid)
    requires Inv(k) && k.running.Some? && At(k.ready, l, p, t)
    ensures At(Perform(k, ExitCall).ready, l, p, t) || Advanced(Perform(k, ExitCall), l, p, t)
    ensures Perform(k, ExitCall).clock == k.clock
  {
    GoneKeeps(k);
    WakeKeeps(Gone(k), REAPER_SEMA);
    WakeStays(Gone(k), REAPER_SEMA, l, p, t);
    RunNextAdvances(Wake(Gone(k), REAPER_SEMA), l, p, t);
  }

  /** The calls can be made one after the other. */
  ghost predicate Feasible(k: Kernel, calls: seq<Call>)
    decreases |calls|
  {
    calls == [] || (Typed(k) && Possible(k, calls[0]) && Feasible(Perform(k, calls[0]), calls[1..]))
  }

  /** t is running after one of the calls. */
  ghost predicate RunsDuring(k: Kernel, calls: seq<Call>, t: Tid)
    requires Feasible(k, calls)
    decreases |calls|
  {
    calls != [] && (Perform(k, calls[0]).running == Some(t) || RunsDuring(Perform(k, calls[0]), calls[1..], t))
  }

  function ClockTicks(calls: seq<Call>): nat {
    if calls == [] then 0 else (if calls[0].ClockTick? then 1 else 0) + ClockTicks(calls[1..])
  }

  lemma {:induction false} RunsWithin(k: Kernel, calls: seq<Call>, l: nat, p: nat, t: Tid)
    requires Inv(k) && Feasible(k, calls) && At(k.ready, l, p, t)
    requires ClockTicks(calls) >= Budget(k.clock, l, p)
    ensures RunsDuring(k, calls, t)
    decreases |calls|
  {
    BudgetBounds(k.clock, l, p);
    var k' := Perform(k, calls[0]);
    CallAdvances(k, calls[0], l, p, t);
    StepKeepsInv(k, calls[0]);
    TickSpendsBudget(k.clock, l, p);
    if k'.running != Some(t) {
      if Advanced(k', l, p, t) {
        CloserCostsLess(k'.clock, l, p);
        RunsWithin(k', calls[1..], l, p - 1, t);
      } else {
        RunsWithin(k', calls[1..], l, p, t);
      }
    }
  }

  /** However the threads of the system yield, block, wake, fork and exit: a thread at
      position p of its level runs before (p + 2) * 164 runs of the clock handler. */
  lemma NoThreadStarves(k: Kernel, calls: seq<Call>, l: nat, p: nat)
    requires Inv(k) && Feasible(k, calls)
    requires l < |k.ready| && p < |k.ready[l]|
    requires ClockTicks(calls) >= (p + 2) * ROUND
    ensures RunsDuring(k, calls, k.ready[l][p])
  {
    BudgetBounds(k.clock, l, p);
    RunsWithin(k, calls, l, p, k.ready[l][p]);
  }

  // ---- Feedback ------------------------------------------------------------------------------

  /** The running thread t gives way in this call, and whether its quota is used up then. */
  predicate GivesWay(k: Kernel, c: Call, t: Tid)
    requires Possible(k, c)
  {
    && k.running == Some(t)
    && match c
       case YieldCall => true
       case PCall(i) => !Synch.P(k.sems[i], t).1
       case ClockTick(_) => Expired(Advance(k.clock))
       case _ => false
  }

  function QuotaUsed(k: Kernel, c: Call): bool {
    Expired(if c.ClockTick? then Advance(k.clock) else k.clock)
  }

  lemma ScheduleAndRun(k: Kernel, t: Tid)
    requires t in k.live
    ensures Schedule(k, t).live == k.live
    ensures 0 <= k.clock.level < |k.ready| ==> RunNext(k).live == k.live
  {}

  lemma WakePriorities(k: Kernel, i: nat, t: Tid)
    requires i < |k.sems| && t in k.live
    ensures t in Wake(k, i).live && Wake(k, i).live[t].priority == k.live[t].priority
  {}

  lemma {:induction false} WakeTimesPriorities(k: Kernel, i: nat, n: nat, t: Tid)
    requires i < |k.sems| && t in k.live
    ensures t in WakeTimes(k, i, n).live && WakeTimes(k, i, n).live[t].priority == k.live[t].priority
  {
    if n == 0 {
    } else {
      WakeTimesPriorities(k, i, n - 1, t);
      WakePriorities(WakeTimes(k, i, n - 1), i, t);
    }
  }

  lemma YieldPriority(k: Kernel, t: Tid)
    requires Typed(k) && t in k.live
    ensures t in Yield(k).live
    ensures Yield(k).live[t].priority ==
            if k.running == Some(t) then Adjust(k.live[t].priority, Expired(k.clock)) else k.live[t].priority
  {
    if k.running.Some? {
      var u := k.running.value;
      var k' := k.(live := k.live[u := k.live[u].(priority := Adjust(k.live[u].priority, Expired(k.clock)))]);
      ScheduleAndRun(k', u);
      ScheduleAndRun(Schedule(k', u), u);
    }
  }

  /** A thread's priority changes only when it gives way. */
  lemma CallPriority(k: Kernel, c: Call, t: Tid)
    requires Inv(k) && Possible(k, c) && t in k.live && t in Perform(k, c).live
    ensures Perform(k, c).live[t].priority ==
            if GivesWay(k, c, t) then Adjust(k.live[t].priority, QuotaUsed(k, c)) else k.live[t].priority
  {
    match c
    case YieldCall => YieldPriority(k, t);
    case PCall(i) =>
      var u := k.running.value;
      var (s, goesOn) := Synch.P(k.sems[i], u);
      if !goesOn { YieldPriority(k.(sems := k.sems[i := s], live := k.live[u := k.live[u].(status := Sleeping)]), t); }
    case VCall(i) => WakePriorities(k, i, t);
    case ForkCall(child) =>
    case ExitCall =>
      if t != k.running.value { WakePriorities(Gone(k), REAPER_SEMA, t); }
    case ReapCall =>
    case ClockTick(signals) =>
      AdvanceOk(k.clock);
      var ticked := k.(clock := Advance(k.clock));
      WakeTimesPriorities(ticked, ALARM_SEMA, signals, t);
      if Expired(ticked.clock) { YieldPriority(WakeTimes(ticked, ALARM_SEMA, signals), t); }
  }

  /** For each time t gives way during the calls: whether its quota was used up. */
  ghost function GivenWay(k: Kernel, calls: seq<Call>, t: Tid): seq<bool>
    requires Feasible(k, calls)
    decreases |calls|
  {
    if calls == [] then []
    else (if GivesWay(k, calls[0], t) then [QuotaUsed(k, calls[0])] else [])
         + GivenWay(Perform(k, calls[0]), calls[1..], t)
  }

  ghost function After(k: Kernel, calls: seq<Call>): Kernel
    requires Feasible(k, calls)
    decreases |calls|
  {
    if calls == [] then k else After(Perform(k, calls[0]), calls[1..])
  }

  /** t does not end during the calls. */
  ghost predicate LivesOn(k: Kernel, calls: seq<Call>, t: Tid)
    requires Feasible(k, calls)
    decreases |calls|
  {
    t in k.live && (calls != [] ==> LivesOn(Perform(k, calls[0]), calls[1..], t))
  }

  lemma {:induction false} PriorityFollows(k: Kernel, calls: seq<Call>, t: Tid)
    requires Inv(k) && Feasible(k, calls) && LivesOn(k, calls, t)
    ensures t in After(k, calls).live
    ensures After(k, calls).live[t].priority == AfterYields(k.live[t].priority, GivenWay(k, calls, t))
    decreases |calls|
  {
    if calls == [] {
    } else {
      var k' := Perform(k, calls[0]);
      CallPriority(k, calls[0], t);
      StepKeepsInv(k, calls[0]);
      PriorityFollows(k', calls[1..], t);
      var rest := GivenWay(k', calls[1..], t);
      assert ([QuotaUsed(k, calls[0])] + rest)[1..] == rest && [] + rest == rest;
    }
  }

  /** Multilevel feedback, whatever else the system does: as long as a thread always uses up its
      quota it sinks one level for each time it gives way, down to level 3; as long as it always
      gives way before, it rises one level each time, up to level 0. */
  lemma PrioritiesFollowUse(k: Kernel, calls: seq<Call>, t: Tid)
    requires Inv(k) && Feasible(k, calls) && LivesOn(k, calls, t)
    ensures t in After(k, calls).live
    ensures var p, q := k.live[t].priority, After(k, calls).live[t].priority;
            var used := GivenWay(k, calls, t);
            && ((forall i :: 0 <= i < |used| ==> used[i]) ==> q == if p + |used| > 3 then 3 else p + |used|)
            && ((forall i :: 0 <= i < |used| ==> !used[i]) ==> q == if p - |used| < 0 then 0 else p - |used|)
  {
    PriorityFollows(k, calls, t);
    Feedback(k.live[t].priority, GivenWay(k, calls, t));
  }

  // ---- The routines ----------------------------------------------------------------------

  class System {
    var clock: Clock
    var live: map<Tid, Thread>
    var running: Option<Tid>
    var ready: seq<seq<Tid>>
    var size: int
    var sems: seq<Synch.Sema<Tid>>
    var dead: seq<Tid>

    function Current(): Kernel
      reads this
    {
      Kernel(clock, live, running, ready, size, sems, dead)
    }

    /** scheduler_schedule */
    method Enqueue(t: Tid)
      requires t in live
      modifies this`ready, this`size
      ensures Current() == Schedule(old(Current()), t)
    {
      if live[t].status == Ok {
        var level := live[t].priority;
        if 0 <= level < |ready| {
          ready := ready[level := ready[level] + [t]];
          size := size + 1;
        }
      }
    }

    /** scheduler_next_thread and the switch */
    method SwitchToNext()
      requires 0 <= clock.level < |ready| && size == Total(ready)
      modifies this`running, this`ready, this`size
      ensures Current() == RunNext(old(Current()))
    {
      PickFinds(ready, clock.level);
      if size == 0 {
        running := None;
        return;
      }
      var l: nat := clock.level;
      ghost var tries: nat, found := |ready|, Pick(ready, clock.level, |ready|);
      while ready[l] == []
        invariant ready == old(ready) && size == old(size) && running == old(running)
        invariant l < |ready| && found.Some? && Pick(ready, l, tries) == found
        decreases tries
      {
        PickGoesOn(ready, l, tries);
        l := (l + 1) % |ready|;
        tries := tries - 1;
      }
      PickHere(ready, l, tries);
      running := Some(ready[l][0]);
      ready := ready[l := ready[l][1..]];
      size := size - 1;
    }

    method StartThread(t: Tid)
      requires t in live
      modifies this`live, this`ready, this`size
      ensures Current() == Start(old(Current()), t)
    {
      if live[t].status == Sleeping {
        live := live[t := live[t].(status := Ok)];
      }
      assert live == old(live)[t := old(live)[t].(status := Ok)];
      Enqueue(t);
    }

    method YieldThread()
      requires Typed(Current()) && LiveOk(live) && size == Total(ready)
      modifies this
      ensures Current() == Yield(old(Current()))
    {
      if running.Some? {
        var t := running.value;
        var priority := live[t].priority;
        if clock.threadTicks == 0 {
          priority := if priority + 1 > 3 then 3 else priority + 1;
        } else {
          priority := if priority - 1 > 0 then priority - 1 else 0;
        }
        live := live[t := live[t].(priority := priority)];
        TotalUpdate(ready, priority, ready[priority] + [t]);
        Enqueue(t);
      }
      SwitchToNext();
    }

    method SemaphoreP(i: nat)
      requires Inv(Current()) && Possible(Current(), PCall(i))
      modifies this
      ensures Current() == Perform(old(Current()), PCall(i)) && Inv(Current())
    {
      ghost var before := Current();
      var s := sems[i];
      if s.cnt - 1 < 0 {
        sems := sems[i := Synch.Sema(s.cnt - 1, s.queue + [running.value])];
        live := live[running.value := live[running.value].(status := Sleeping)];
        YieldThread();
      } else {
        sems := sems[i := Synch.Sema(s.cnt - 1, s.queue)];
      }
      StepKeepsInv(before, PCall(i));
    }

    method SemaphoreV(i: nat)
      requires Inv(Current()) && i < |sems|
      modifies this`sems, this`live, this`ready, this`size
      ensures Current() == Wake(old(Current()), i) && Inv(Current())
    {
      ghost var before := Current();
      WakeKeeps(before, i);
      assert SemaOk(sems[i], live);
      var s := sems[i];
      if s.cnt + 1 <= 0 {
        sems := sems[i := Synch.Sema(s.cnt + 1, s.queue[1..])];
        assert s.queue[0] in s.queue;
        StartThread(s.queue[0]);
      } else {
        sems := sems[i := Synch.Sema(s.cnt + 1, s.queue)];
      }
    }

    method Fork(child: Tid)
      requires Inv(Current()) && Possible(Current(), ForkCall(child))
      modifies this`live, this`ready, this`size
      ensures Current() == Perform(old(Current()), ForkCall(child)) && Inv(Current())
    {
      ghost var before := Current();
      live := live[child := Thread(0, Ok)];
      StartThread(child);
      StepKeepsInv(before, ForkCall(child));
    }

    /** The thread's last routine: it goes to the delete queue and wakes the reaper. */
    method FinalProc()
      requires Inv(Current()) && running.Some?
      modifies this
      ensures Current() == Perform(old(Current()), ExitCall) && Inv(Current())
    {
      ghost var before := Current();
      GoneKeeps(before);
      ExitKeeps(before);
      var t := running.value;
      live := live - {t};
      running := None;
      dead := dead + [t];
      assert Current() == Gone(before);
      SemaphoreV(REAPER_SEMA);
      SwitchToNext();
    }

    /** The signals of the iteration over the alarms. */
    method SignalAlarms(signals: nat)
      requires Inv(Current())
      modifies this`sems, this`live, this`ready, this`size
      ensures Current() == WakeTimes(old(Current()), ALARM_SEMA, signals) && Inv(Current())
    {
      for i := 0 to signals
        invariant Current() == WakeTimes(old(Current()), ALARM_SEMA, i) && Inv(Current())
      {
        SemaphoreV(ALARM_SEMA);
      }
    }

    /** `signals` is the number of alarms that are due. */
    method ClockHandler(signals: nat)
      requires Inv(Current())
      modifies this
      ensures Current() == Perform(old(Current()), ClockTick(signals)) && Inv(Current())
    {
      ghost var before := Current();
      StepKeepsInv(before, ClockTick(signals));
      AdvanceOk(clock);
      clock := Advance(clock);
      SignalAlarms(signals);
      if clock.threadTicks == 0 {
        YieldThread();
      }
    }
  }
}

/** Thread states and transfers of control as in minithread.c: yield, fork, exit,
    blocking on and waking from semaphores, the clock handler and the reaper. */
module Minithread {
  import opened Options
  import opened MultilevelQueue
  import opened Scheduler
  import Synch

  type Tid = nat

  datatype Thread = Thread(priority: int, status: Status)

  /** `live` holds the threads that have not ended; `running` is None while the idle thread
      runs; sems[0] and sems[1] are the semaphores of the reaper and of the alarm thread; `dead`
      is the delete queue. */
  datatype Kernel = Kernel(clock: Clock, live: map<Tid, Thread>, running: Option<Tid>,
                           ready: seq<seq<Tid>>, size: int, sems: seq<Synch.Sema<Tid>>, dead: seq<Tid>)

  const REAPER_SEMA := 0
  const ALARM_SEMA := 1

  // ---- Primitives ---------------------------------------------------------------

  /** scheduler_schedule: only threads whose status is OK join the ready queue. */
  function Schedule(k: Kernel, t: Tid): Kernel
    requires t in k.live
  {
    var l := k.live[t].priority;
    if k.live[t].status == Ok && 0 <= l < |k.ready| then
      k.(ready := Append(k.ready, l, t), size := k.size + 1)
    else k
  }

  /** minithread_start */
  function Start(k: Kernel, t: Tid): Kernel
    requires t in k.live
  {
    Schedule(k.(live := k.live[t := k.live[t].(status := Ok)]), t)
  }

  /** scheduler_next_thread and the switch to it. */
  function RunNext(k: Kernel): Kernel
    requires 0 <= k.clock.level < |k.ready|
  {
    if k.size == 0 then k.(running := None)
    else
      match Pick(k.ready, k.clock.level, |k.ready|)
      case None => k.(running := None)
      case Some(l) =>
        if l < |k.ready| && k.ready[l] != [] then
          k.(running := Some(k.ready[l][0]), ready := Pop(k.ready, l), size := k.size - 1)
        else k.(running := None)
  }

  /** Demotion when the quota is used up, promotion otherwise. */
  function Adjust(p: int, expired: bool): int {
    if expired then (if p + 1 > 3 then 3 else p + 1) else (if p - 1 > 0 then p - 1 else 0)
  }

  /** The priority after a series of yields, given for each whether the quota was used up. */
  function AfterYields(p: int, expired: seq<bool>): int
    decreases |expired|
  {
    if expired == [] then p else AfterYields(Adjust(p, expired[0]), expired[1..])
  }

  lemma {:induction false} Feedback(p: int, expired: seq<bool>)
    requires 0 <= p <= 3
    ensures 0 <= AfterYields(p, expired) <= 3
    ensures (forall i :: 0 <= i < |expired| ==> expired[i]) ==>
              AfterYields(p, expired) == if p + |expired| > 3 then 3 else p + |expired|
    ensures (forall i :: 0 <= i < |expired| ==> !expired[i]) ==>
              AfterYields(p, expired) == if p - |expired| < 0 then 0 else p - |expired|
    decreases |expired|
  {
    if expired == [] {
    } else {
      Feedback(Adjust(p, expired[0]), expired[1..]);
    }
  }

  /** minithread_yield; the idle thread is never queued. */
  function Yield(k: Kernel): Kernel
    requires 0 <= k.clock.level < |k.ready|
    requires k.running.Some? ==> k.running.value in k.live
  {
    match k.running
    case None => RunNext(k)
    case Some(t) =>
      var adjusted := k.live[t].(priority := Adjust(k.live[t].priority, Expired(k.clock)));
      RunNext(Schedule(k.(live := k.live[t := adjusted]), t))
  }

  function Wake(k: Kernel, i: nat): Kernel
    requires i < |k.sems|
  {
    var (s, woken) := Synch.V(k.sems[i]);
    var k' := k.(sems := k.sems[i := s]);
    if woken.Some? && woken.value in k'.live then Start(k', woken.value) else k'
  }

  /** The signals of an iteration over the alarms. */
  function WakeTimes(k: Kernel, i: nat, n: nat): (k': Kernel)
    requires i < |k.sems|
    ensures |k'.sems| == |k.sems| && |k'.ready| == |k.ready| && k'.clock == k.clock
    ensures k'.running == k.running && k'.live.Keys == k.live.Keys
  {
    if n == 0 then k else Wake(WakeTimes(k, i, n - 1), i)
  }

  // ---- Calls -----------------------------------------------------------------------

  /** What the running thread, or an interrupt while it runs, can do. The clock handler signals
      the alarm thread once for each alarm that is due. */
  datatype Call =
    | YieldCall
    | PCall(sem: nat)
    | VCall(sem: nat)
    | ForkCall(child: Tid)
    | ExitCall
    | ReapCall
    | ClockTick(signals: nat)

  predicate Possible(k: Kernel, c: Call) {
    match c
    case PCall(i) => i < |k.sems| && k.running.Some?
    case VCall(i) => i < |k.sems|
    case ForkCall(child) => child !in k.live && child !in k.dead
    case ExitCall => k.running.Some?
    case ReapCall => k.running.Some? && k.dead != []
    case _ => true
  }

  ghost predicate Typed(k: Kernel) {
    && ClockOk(k.clock) && |k.ready| == LEVELS
    && |k.sems| > ALARM_SEMA
    && (k.running.Some? ==> k.running.value in k.live)
  }

  function Perform(k: Kernel, c: Call): Kernel
    requires Typed(k) && Possible(k, c)
  {
    match c
    case YieldCall => Yield(k)
    case PCall(i) =>
      var t := k.running.value;
      var (s, goesOn) := Synch.P(k.sems[i], t);
      var k' := k.(sems := k.sems[i := s]);
      if goesOn then k' else Yield(k'.(live := k'.live[t := k'.live[t].(status := Sleeping)]))
    case VCall(i) => Wake(k, i)
    case ForkCall(child) => Start(k.(live := k.live[child := Thread(0, Ok)]), child)
    case ExitCall =>
      var t := k.running.value;
      RunNext(Wake(k.(live := k.live - {t}, dead := k.dead + [t], running := None), REAPER_SEMA))
    case ReapCall => k.(dead := k.dead[1..])
    case ClockTick(signals) =>
      AdvanceOk(k.clock);
      var k' := WakeTimes(k.(clock := Advance(k.clock)), ALARM_SEMA, signals);
      if Expired(k'.clock) then Yield(k') else k'
  }

  // ---- Conservation -----------------------------------------------------------------

  function Bag(queues: seq<seq<Tid>>): multiset<Tid> {
    if queues == [] then multiset{} else Bag(queues[..|queues|-1]) + multiset(queues[|queues|-1])
  }

  function Waiting(sems: seq<Synch.Sema<Tid>>): multiset<Tid> {
    if sems == [] then multiset{} else Waiting(sems[..|sems|-1]) + multiset(sems[|sems|-1].queue)
  }

  function Running(running: Option<Tid>): multiset<Tid> {
    match running case None => multiset{} case Some(t) => multiset{t}
  }

  /** Where the threads are: running, on a level of the ready queue, waiting on a semaphore. */
  function Places(k: Kernel): multiset<Tid> {
    Running(k.running) + Bag(k.ready) + Waiting(k.sems)
  }

  ghost predicate LevelOk(queue: seq<Tid>, live: map<Tid, Thread>, l: nat) {
    forall t :: t in queue ==> t in live && live[t].status == Ok && live[t].priority == l
  }

  ghost predicate ReadyOk(ready: seq<seq<Tid>>, live: map<Tid, Thread>) {
    |ready| == LEVELS && forall l: nat :: l < |ready| ==> LevelOk(ready[l], live, l)
  }

  ghost predicate SemaOk(s: Synch.Sema<Tid>, live: map<Tid, Thread>) {
    Synch.Valid(s) && forall t :: t in s.queue ==> t in live && live[t].status == Sleeping
  }

  ghost predicate SemasOk(sems: seq<Synch.Sema<Tid>>, live: map<Tid, Thread>) {
    |sems| > ALARM_SEMA && forall i: nat :: i < |sems| ==> SemaOk(sems[i], live)
  }

  ghost predicate LiveOk(live: map<Tid, Thread>) {
    forall t :: t in live ==> 0 <= live[t].priority < LEVELS
  }

  ghost predicate RunningOk(running: Option<Tid>, live: map<Tid, Thread>) {
    running.Some? ==> running.value in live && live[running.value].status == Ok
  }

  /** The invariant but for one thing: the threads in `loose` are in no place. */
  ghost predicate Loose(k: Kernel, loose: multiset<Tid>) {
    && ClockOk(k.clock)
    && ReadyOk(k.ready, k.live) && SemasOk(k.sems, k.live) && LiveOk(k.live) && RunningOk(k.running, k.live)
    && k.size == Total(k.ready)
    && Places(k) + loose == multiset(k.live.Keys)
  }

  ghost predicate Inv(k: Kernel) {
    Loose(k, multiset{})
  }

  // ---- Counting -----------------------------------------------------------------------

  lemma {:induction false} BagUpdate(queues: seq<seq<Tid>>, i: nat, q: seq<Tid>)
    requires i < |queues|
    ensures multiset(queues[i]) <= Bag(queues)
    ensures Bag(queues[i := q]) == Bag(queues) - multiset(queues[i]) + multiset(q)
  {
    var n := |queues| - 1;
    if i == n {
      assert queues[i := q][..n] == queues[..n];
    } else {
      BagUpdate(queues[..n], i, q);
      assert queues[i := q][..n] == queues[..n][i := q];
    }
  }

  function Queues(sems: seq<Synch.Sema<Tid>>): (qs: seq<seq<Tid>>)
    ensures |qs| == |sems| && forall i :: 0 <= i < |qs| ==> qs[i] == sems[i].queue
  {
    seq(|sems|, i requires 0 <= i < |sems| => sems[i].queue)
  }

  lemma {:induction false} WaitingIsBag(sems: seq<Synch.Sema<Tid>>)
    ensures Waiting(sems) == Bag(Queues(sems))
  {
    if sems == [] {
    } else {
      WaitingIsBag(sems[..|sems|-1]);
      assert Queues(sems)[..|sems|-1] == Queues(sems[..|sems|-1]);
    }
  }

  lemma BagPush(queues: seq<seq<Tid>>, i: nat, t: Tid)
    requires i < |queues|
    ensures Bag(queues[i := queues[i] + [t]]) == Bag(queues) + multiset{t}
  {
    BagUpdate(queues, i, queues[i] + [t]);
    Exchange(Bag(queues), multiset(queues[i]), multiset{t});
  }

  lemma Exchange(b: multiset<Tid>, m: multiset<Tid>, t: multiset<Tid>)
    requires m <= b
    ensures b - m + (m + t) == b + t
  {}

  lemma BagPop(queues: seq<seq<Tid>>, i: nat)
    requires i < |queues| && queues[i] != []
    ensures Bag(queues) == Bag(queues[i := queues[i][1..]]) + multiset{queues[i][0]}
  {
    var rest := queues[i := queues[i][1..]];
    assert [queues[i][0]] + rest[i] == queues[i] && rest[i := queues[i]] == queues;
    BagUnshift(rest, i, queues[i][0], queues);
  }

  lemma BagUnshift(queues: seq<seq<Tid>>, i: nat, t: Tid, queues': seq<seq<Tid>>)
    requires i < |queues| && queues' == queues[i := [t] + queues[i]]
    ensures Bag(queues') == Bag(queues) + multiset{t}
  {
    BagUpdate(queues, i, [t] + queues[i]);
    assert multiset([t] + queues[i]) == multiset(queues[i]) + multiset{t};
    Exchange(Bag(queues), multiset(queues[i]), multiset{t});
  }

  lemma NotInBag(queues: seq<seq<Tid>>, i: nat, t: Tid)
    requires i < |queues| && t !in Bag(queues)
    ensures t !in queues[i]
  {
    BagUpdate(queues, i, []);
    assert t !in multiset(queues[i]);
  }

  // ---- Each primitive ------------------------------------------------------------------

  lemma SemaPush(sems: seq<Synch.Sema<Tid>>, i: nat, s: Synch.Sema<Tid>, t: Tid)
    requires i < |sems| && s.queue == sems[i].queue + [t]
    ensures Waiting(sems[i := s]) == Waiting(sems) + multiset{t}
  {
    WaitingIsBag(sems);
    WaitingIsBag(sems[i := s]);
    assert Queues(sems[i := s]) == Queues(sems)[i := s.queue];
    BagPush(Queues(sems), i, t);
  }

  lemma SemaPop(sems: seq<Synch.Sema<Tid>>, i: nat, s: Synch.Sema<Tid>)
    requires i < |sems| && sems[i].queue != [] && s.queue == sems[i].queue[1..]
    ensures Waiting(sems) == Waiting(sems[i := s]) + multiset{sems[i].queue[0]}
  {
    WaitingIsBag(sems);
    WaitingIsBag(sems[i := s]);
    assert Queues(sems[i := s]) == Queues(sems)[i := s.queue];
    BagPop(Queues(sems), i);
  }

  lemma SemaSame(sems: seq<Synch.Sema<Tid>>, i: nat, s: Synch.Sema<Tid>)
    requires i < |sems| && s.queue == sems[i].queue
    ensures Waiting(sems[i := s]) == Waiting(sems)
  {
    WaitingIsBag(sems);
    WaitingIsBag(sems[i := s]);
    assert Queues(sems[i := s]) == Queues(sems);
  }

  /** A thread in no place is on no queue. */
  lemma Placeless(k: Kernel, t: Tid)
    requires Loose(k, multiset{t})
    ensures forall l: nat :: l < |k.ready| ==> t !in k.ready[l]
    ensures forall i: nat :: i < |k.sems| ==> t !in k.sems[i].queue
    ensures k.running != Some(t)
  {
    assert (Places(k) + multiset{t})[t] == Places(k)[t] + 1;
    assert multiset(k.live.Keys)[t] <= 1;
    assert Places(k)[t] == Running(k.running)[t] + Bag(k.ready)[t] + Waiting(k.sems)[t];
    forall l: nat | l < |k.ready| ensures t !in k.ready[l] { NotInBag(k.ready, l, t); }
    WaitingIsBag(k.sems);
    forall i: nat | i < |k.sems| ensures t !in k.sems[i].queue { NotInBag(Queues(k.sems), i, t); }
  }

  lemma ReadyPush(ready: seq<seq<Tid>>, live: map<Tid, Thread>, l: nat, t: Tid)
    requires ReadyOk(ready, live) && l < |ready|
    requires t in live && live[t].status == Ok && live[t].priority == l
    ensures ReadyOk(Append(ready, l, t), live)
  {
    var ready' := Append(ready, l, t);
    forall j: nat | j < |ready'| ensures LevelOk(ready'[j], live, j) { assert LevelOk(ready[j], live, j); }
  }

  lemma ScheduleKeeps(k: Kernel, t: Tid)
    requires Loose(k, multiset{t}) && t in k.live && k.live[t].status == Ok
    ensures Inv(Schedule(k, t)) && Schedule(k, t).running == k.running
  {
    var l := k.live[t].priority;
    ReadyPush(k.ready, k.live, l, t);
    BagPush(k.ready, l, t);
    TotalUpdate(k.ready, l, k.ready[l] + [t]);
    assert Bag(Append(k.ready, l, t)) == Bag(k.ready) + multiset{t};
  }

  lemma RunNextKeeps(k: Kernel)
    requires Inv(k) && k.running == None
    ensures Inv(RunNext(k))
    ensures RunNext(k).running.None? <==> Total(k.ready) == 0
  {
    PickFinds(k.ready, k.clock.level);
    if Total(k.ready) > 0 {
      var l := Pick(k.ready, k.clock.level, |k.ready|).value;
      var t := k.ready[l][0];
      BagPop(k.ready, l);
      TotalUpdate(k.ready, l, k.ready[l][1..]);
      assert LevelOk(k.ready[l], k.live, l) && t in k.ready[l];
      var ready := Pop(k.ready, l);
      assert ReadyOk(ready, k.live) by {
        forall j: nat | j < |ready| ensures LevelOk(ready[j], k.live, j) { assert LevelOk(k.ready[j], k.live, j); }
      }
    }
  }

  /** A thread that is in no place can change its record. */
  lemma RecordKeeps(k: Kernel, t: Tid, r: Thread)
    requires Loose(k, multiset{t}) && t in k.live && 0 <= r.priority < LEVELS
    ensures Loose(k.(live := k.live[t := r]), multiset{t})
  {
    var live := k.live[t := r];
    assert live.Keys == k.live.Keys;
    Placeless(k, t);
    assert ReadyOk(k.ready, live) by {
      forall j: nat | j < |k.ready| ensures LevelOk(k.ready[j], live, j) { assert LevelOk(k.ready[j], k.live, j); }
    }
    assert SemasOk(k.sems, live) by {
      forall i: nat | i < |k.sems| ensures SemaOk(k.sems[i], live) { assert SemaOk(k.sems[i], k.live); }
    }
  }

  /** The running thread steps aside. */
  lemma StepAside(k: Kernel, t: Tid)
    requires Inv(k) && k.running == Some(t)
    ensures Loose(k.(running := None), multiset{t})
  {
    assert Places(k) == Places(k.(running := None)) + multiset{t};
  }

  lemma SemasUpdate(sems: seq<Synch.Sema<Tid>>, live: map<Tid, Thread>, i: nat, s: Synch.Sema<Tid>)
    requires SemasOk(sems, live) && i < |sems| && SemaOk(s, live)
    ensures SemasOk(sems[i := s], live)
  {
    var sems' := sems[i := s];
    forall j: nat | j < |sems'| ensures SemaOk(sems'[j], live) { assert SemaOk(sems[j], live); }
  }

  lemma EnqueueSema(k: Kernel, i: nat, t: Tid)
    requires Loose(k, multiset{t}) && i < |k.sems| && t in k.live && k.live[t].status == Sleeping
    requires !Synch.P(k.sems[i], t).1
    ensures Inv(k.(sems := k.sems[i := Synch.P(k.sems[i], t).0]))
  {
    var s := Synch.P(k.sems[i], t).0;
    assert SemaOk(k.sems[i], k.live);
    SemasUpdate(k.sems, k.live, i, s);
    SemaPush(k.sems, i, s, t);
  }

  lemma CountSema(k: Kernel, i: nat, s: Synch.Sema<Tid>)
    requires Inv(k) && i < |k.sems| && s.queue == k.sems[i].queue && Synch.Valid(s)
    ensures Inv(k.(sems := k.sems[i := s]))
  {
    assert SemaOk(k.sems[i], k.live);
    SemasUpdate(k.sems, k.live, i, s);
    SemaSame(k.sems, i, s);
  }

  lemma DequeueSema(k: Kernel, i: nat)
    requires Inv(k) && i < |k.sems| && k.sems[i].queue != []
    ensures var (s, woken) := Synch.V(k.sems[i]);
            && woken == Some(k.sems[i].queue[0]) && woken.value in k.live
            && Loose(k.(sems := k.sems[i := s]), multiset{woken.value})
  {
    assert SemaOk(k.sems[i], k.live) && k.sems[i].queue[0] in k.sems[i].queue;
    var s := Synch.V(k.sems[i]).0;
    SemasUpdate(k.sems, k.live, i, s);
    SemaPop(k.sems, i, s);
  }

  /** V keeps all threads placed: the one it takes off the wait queue becomes ready. */
  lemma WakeKeeps(k: Kernel, i: nat)
    requires Inv(k) && i < |k.sems|
    ensures Inv(Wake(k, i)) && Wake(k, i).running == k.running
  {
    assert SemaOk(k.sems[i], k.live);
    var (s, woken) := Synch.V(k.sems[i]);
    if k.sems[i].queue == [] {
      CountSema(k, i, s);
    } else {
      DequeueSema(k, i);
      StartKeeps(k.(sems := k.sems[i := s]), k.sems[i].queue[0]);
    }
  }

  lemma {:induction false} WakeTimesKeeps(k: Kernel, i: nat, n: nat)
    requires Inv(k) && i < |k.sems|
    ensures Inv(WakeTimes(k, i, n))
  {
    if n == 0 {
    } else {
      WakeTimesKeeps(k, i, n - 1);
      WakeKeeps(WakeTimes(k, i, n - 1), i);
    }
  }

  lemma StartKeeps(k: Kernel, t: Tid)
    requires Loose(k, multiset{t}) && t in k.live
    ensures Inv(Start(k, t)) && Start(k, t).running == k.running
  {
    RecordKeeps(k, t, k.live[t].(status := Ok));
    ScheduleKeeps(k.(live := k.live[t := k.live[t].(status := Ok)]), t);
  }

  /** A yield whose thread is in no other place; it is queued again unless it sleeps. */
  lemma QueuedAgain(k: Kernel, t: Tid, r: Thread)
    requires Loose(k, multiset{t}) && k.running == None && t in k.live && 0 <= r.priority < LEVELS && r.status == Ok
    ensures Inv(RunNext(Schedule(k.(live := k.live[t := r]), t)))
  {
    RecordKeeps(k, t, r);
    ScheduleKeeps(k.(live := k.live[t := r]), t);
    RunNextKeeps(Schedule(k.(live := k.live[t := r]), t));
  }

  lemma RunningIsOverwritten(k: Kernel, t: Tid, running: Option<Tid>)
    requires t in k.live && 0 <= k.clock.level < |k.ready|
    ensures RunNext(Schedule(k.(running := running), t)) == RunNext(Schedule(k, t))
  {}

  lemma YieldKeeps(k: Kernel)
    requires Inv(k)
    ensures Inv(Yield(k))
  {
    if k.running.None? {
      RunNextKeeps(k);
    } else {
      var t := k.running.value;
      var r := k.live[t].(priority := Adjust(k.live[t].priority, Expired(k.clock)));
      StepAside(k, t);
      QueuedAgain(k.(running := None), t, r);
      RunningIsOverwritten(k.(live := k.live[t := r]), t, None);
    }
  }

  lemma SleepKeeps(k: Kernel, t: Tid, r: Thread, i: nat)
    requires Loose(k, multiset{t}) && k.running == None && t in k.live && i < |k.sems|
    requires !Synch.P(k.sems[i], t).1 && 0 <= r.priority < LEVELS && r.status == Sleeping
    ensures Inv(RunNext(k.(live := k.live[t := r], sems := k.sems[i := Synch.P(k.sems[i], t).0])))
  {
    RecordKeeps(k, t, r);
    EnqueueSema(k.(live := k.live[t := r]), i, t);
    RunNextKeeps(k.(live := k.live[t := r], sems := k.sems[i := Synch.P(k.sems[i], t).0]));
  }

  lemma BlockShape(k: Kernel, i: nat)
    requires Inv(k) && k.running.Some? && i < |k.sems| && !Synch.P(k.sems[i], k.running.value).1
    ensures var t := k.running.value;
            var r := Thread(Adjust(k.live[t].priority, Expired(k.clock)), Sleeping);
            Perform(k, PCall(i)) ==
            RunNext(k.(running := None, live := k.live[t := r], sems := k.sems[i := Synch.P(k.sems[i], t).0]))
  {
    var t := k.running.value;
    var r := Thread(Adjust(k.live[t].priority, Expired(k.clock)), Sleeping);
    assert k.live[t := k.live[t].(status := Sleeping)][t := r] == k.live[t := r];
  }

  lemma PKeeps(k: Kernel, i: nat)
    requires Inv(k) && k.running.Some? && i < |k.sems|
    ensures Inv(Perform(k, PCall(i)))
  {
    assert SemaOk(k.sems[i], k.live);
    var t := k.running.value;
    var (s, goesOn) := Synch.P(k.sems[i], t);
    if goesOn {
      CountSema(k, i, s);
    } else {
      StepAside(k, t);
      SleepKeeps(k.(running := None), t, Thread(Adjust(k.live[t].priority, Expired(k.clock)), Sleeping), i);
      BlockShape(k, i);
    }
  }

  /** A new record for a thread that is not live makes that thread a loose one. */
  lemma BornLoose(k: Kernel, child: Tid)
    requires Inv(k) && child !in k.live
    ensures Loose(k.(live := k.live[child := Thread(0, Ok)]), multiset{child})
  {
    var live := k.live[child := Thread(0, Ok)];
    assert live.Keys == k.live.Keys + {child};
    assert multiset(live.Keys) == multiset(k.live.Keys) + multiset{child};
    assert ReadyOk(k.ready, live) by {
      forall j: nat | j < |k.ready| ensures LevelOk(k.ready[j], live, j) { assert LevelOk(k.ready[j], k.live, j); }
    }
    assert SemasOk(k.sems, live) by {
      forall i: nat | i < |k.sems| ensures SemaOk(k.sems[i], live) { assert SemaOk(k.sems[i], k.live); }
    }
  }

  lemma ForkKeeps(k: Kernel, child: Tid)
    requires Inv(k) && child !in k.live
    ensures Inv(Start(k.(live := k.live[child := Thread(0, Ok)]), child))
  {
    BornLoose(k, child);
    StartKeeps(k.(live := k.live[child := Thread(0, Ok)]), child);
  }

  lemma Cancel(a: multiset<Tid>, t: Tid, b: multiset<Tid>)
    requires a + multiset{t} == b + multiset{t}
    ensures a == b
  {
    assert a == a + multiset{t} - multiset{t};
    assert b == b + multiset{t} - multiset{t};
  }

  /** Without its record, a loose thread is gone. */
  lemma LooseDies(k: Kernel, t: Tid, dead: seq<Tid>)
    requires Loose(k, multiset{t}) && t in k.live
    ensures Inv(k.(live := k.live - {t}, dead := dead))
  {
    var live := k.live - {t};
    Placeless(k, t);
    assert live.Keys == k.live.Keys - {t};
    assert multiset(k.live.Keys) == multiset(live.Keys) + multiset{t};
    Cancel(Places(k), t, multiset(live.Keys));
    assert Places(k.(live := live, dead := dead)) == Places(k);
    assert ReadyOk(k.ready, live) by {
      forall j: nat | j < |k.ready| ensures LevelOk(k.ready[j], live, j) { assert LevelOk(k.ready[j], k.live, j); }
    }
    assert SemasOk(k.sems, live) by {
      forall i: nat | i < |k.sems| ensures SemaOk(k.sems[i], live) { assert SemaOk(k.sems[i], k.live); }
    }
  }

  /** The system without its running thread. */
  function Gone(k: Kernel): Kernel
    requires k.running.Some?
  {
    k.(live := k.live - {k.running.value}, dead := k.dead + [k.running.value], running := None)
  }

  lemma GoneKeeps(k: Kernel)
    requires Inv(k) && k.running.Some?
    ensures Inv(Gone(k)) && Perform(k, ExitCall) == RunNext(Wake(Gone(k), REAPER_SEMA))
  {
    StepAside(k, k.running.value);
    LooseDies(k.(running := None), k.running.value, k.dead + [k.running.value]);
  }

  lemma ExitKeeps(k: Kernel)
    requires Inv(k) && k.running.Some?
    ensures Inv(Perform(k, ExitCall))
  {
    GoneKeeps(k);
    WakeKeeps(Gone(k), REAPER_SEMA);
    RunNextKeeps(Wake(Gone(k), REAPER_SEMA));
  }

  lemma StepKeepsInv(k: Kernel, c: Call)
    requires Inv(k) && Possible(k, c)
    ensures Inv(Perform(k, c))
  {
    match c
    case YieldCall => YieldKeeps(k);
    case PCall(i) => PKeeps(k, i);
    case VCall(i) => WakeKeeps(k, i);
    case ForkCall(child) => ForkKeeps(k, child);
    case ExitCall => ExitKeeps(k);
    case ReapCall =>
    case ClockTick(signals) =>
      AdvanceOk(k.clock);
      var ticked := k.(clock := Advance(k.clock));
      WakeTimesKeeps(ticked, ALARM_SEMA, signals);
      if Expired(ticked.clock) { YieldKeeps(WakeTimes(ticked, ALARM_SEMA, signals)); }
  }

  // ---- Every run -----------------------------------------------------------------------

  ghost predicate Initial(k: Kernel) {
    && k.clock == START
    && (exists t :: k.running == Some(t) && k.live == map[t := Thread(0, Ok)])
    && k.ready == [[], [], [], []] && k.size == 0
    && |k.sems| > ALARM_SEMA
    && (forall i :: 0 <= i < |k.sems| ==> k.sems[i].queue == [] && k.sems[i].cnt >= 0)
    && k.dead == []
  }

  ghost predicate Next(k: Kernel, k': Kernel) {
    Typed(k) && exists c :: Possible(k, c) && k' == Perform(k, c)
  }

  ghost predicate IsRun(run: seq<Kernel>) {
    && run != [] && Initial(run[0])
    && (forall n :: 0 <= n < |run| - 1 ==> Next(run[n], run[n + 1]))
  }

  lemma {:induction false} NobodyWaits(sems: seq<Synch.Sema<Tid>>)
    requires forall i :: 0 <= i < |sems| ==> sems[i].queue == []
    ensures Waiting(sems) == multiset{}
  {
    if sems == [] {
    } else {
      NobodyWaits(sems[..|sems|-1]);
    }
  }

  lemma {:induction false} NobodyReady(queues: seq<seq<Tid>>)
    requires forall i :: 0 <= i < |queues| ==> queues[i] == []
    ensures Bag(queues) == multiset{}
  {
    if queues == [] {
    } else {
      NobodyReady(queues[..|queues|-1]);
    }
  }

  lemma InitialInv(k: Kernel)
    requires Initial(k)
    ensures Inv(k)
  {
    NobodyReady(k.ready);
    NobodyWaits(k.sems);
    TotalZero(k.ready);
    var t :| k.running == Some(t) && k.live == map[t := Thread(0, Ok)];
    assert k.live.Keys == {t};
    assert ReadyOk(k.ready, k.live);
    assert SemasOk(k.sems, k.live);
  }

  lemma {:induction false} RunInv(run: seq<Kernel>, n: nat)
    requires IsRun(run) && n < |run|
    ensures Inv(run[n])
  {
    if n == 0 {
      InitialInv(run[0]);
    } else {
      RunInv(run, n - 1);
      assert Next(run[n - 1], run[n]);
      var c :| Possible(run[n - 1], c) && run[n] == Perform(run[n - 1], c);
      StepKeepsInv(run[n - 1], c);
    }
  }

  /** In every reachable state each live thread is in exactly one place: running, once on the
      level of the ready queue that equals its priority, or once on one semaphore's queue. */
  lemma ThreadsAreConserved(run: seq<Kernel>, n: nat, t: Tid)
    requires IsRun(run) && n < |run|
    ensures Places(run[n])[t] == if t in run[n].live then 1 else 0
    ensures forall l, j :: 0 <= l < |run[n].ready| && 0 <= j < |run[n].ready[l]| ==>
              run[n].ready[l][j] in run[n].live && run[n].live[run[n].ready[l][j]].priority == l
    ensures forall u :: u in run[n].live ==> 0 <= run[n].live[u].priority <= 3
    ensures run[n].size == Total(run[n].ready)
    ensures forall i :: 0 <= i < |run[n].sems| ==>
              |run[n].sems[i].queue| == if run[n].sems[i].cnt < 0 then -run[n].sems[i].cnt else 0
  {
    RunInv(run, n);
    var k := run[n];
    assert Places(k) == Places(k) + multiset{};
    forall l: nat, j: nat | l < |k.ready| && j < |k.ready[l]|
      ensures k.ready[l][j] in k.live && k.live[k.ready[l][j]].priority == l
    {
      assert LevelOk(k.ready[l], k.live, l) && k.ready[l][j] in k.ready[l];
    }
    forall i: nat | i < |k.sems| ensures |k.sems[i].queue| == if k.sems[i].cnt < 0 then -k.sems[i].cnt else 0 {
      assert SemaOk(k.sems[i], k.live);
    }
  }
}

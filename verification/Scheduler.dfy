/** The feedback scheduler of scheduler.c: four levels served in turn for a number
    of clock ticks, with a quota for the running thread. */
module Scheduler {
  import opened Options
  import opened MultilevelQueue

  const LEVELS := 4

  /** `level` is being served, for levelTicks more ticks; threadTicks is the rest of the
      running thread's quota. */
  datatype Clock = Clock(level: int, levelTicks: int, threadTicks: int)

  const START := Clock(0, 80, 1)

  // The levels are served in rounds of 81 + 41 + 25 + 17 ticks.
  const ROUND := 164

  datatype Status = Ok | Sleeping

  function LevelTicks(level: int): int {
    if level == 0 then 80 else if level == 1 then 40 else if level == 2 then 24 else 16
  }

  /** 1 << level */
  function Quota(level: int): int {
    if level == 0 then 1 else if level == 1 then 2 else if level == 2 then 4 else 8
  }

  function AdvanceLevel(c: Clock): Clock {
    if c.levelTicks - 1 < 0 then
      var l := (c.level + 1) % LEVELS;
      c.(level := l, levelTicks := LevelTicks(l))
    else c.(levelTicks := c.levelTicks - 1)
  }

  /** scheduler_advance: one clock tick. */
  function Advance(c: Clock): Clock {
    var d := AdvanceLevel(c);
    d.(threadTicks := if d.threadTicks - 1 < 0 then Quota(d.level) else d.threadTicks - 1)
  }

  predicate Expired(c: Clock) { c.threadTicks == 0 }

  ghost predicate ClockOk(c: Clock) {
    && 0 <= c.level < LEVELS
    && 0 <= c.levelTicks <= LevelTicks(c.level)
    && 0 <= c.threadTicks <= 8
  }

  function AfterTicks(c: Clock, n: nat): Clock {
    if n == 0 then c else Advance(AfterTicks(c, n - 1))
  }

  /** The levels take turns of 81, 41, 25 and 17 ticks. */
  lemma {:induction false} Phases(c: Clock, n: nat)
    requires c.level == 0 && c.levelTicks == LevelTicks(0) && n <= ROUND
    ensures var d := AfterTicks(c, n);
            if n < 81 then d.level == 0 && d.levelTicks == 80 - n
            else if n < 81 + 41 then d.level == 1 && d.levelTicks == 40 - (n - 81)
            else if n < 81 + 41 + 25 then d.level == 2 && d.levelTicks == 24 - (n - 122)
            else if n < ROUND then d.level == 3 && d.levelTicks == 16 - (n - 147)
            else d.level == 0 && d.levelTicks == 80
  {
    if n == 0 {
    } else {
      Phases(c, n - 1);
    }
  }

  /** After the expiry that begins it, a quota of q ticks is used up one tick at a time. */
  lemma {:induction false} QuotaRunsDown(c: Clock, q: int, n: nat)
    requires Advance(c).threadTicks == q && 1 <= n <= q + 1
    ensures AfterTicks(c, n).threadTicks == q - (n - 1)
  {
    if n == 1 {
      assert AfterTicks(c, 0) == c;
    } else {
      QuotaRunsDown(c, q, n - 1);
    }
  }

  /** When a quota has expired, the next expiry comes 2, 3, 5 or 9 ticks later, according to the
      level that is served at the next tick, and none before. */
  lemma QuotaLasts(c: Clock, n: nat)
    requires ClockOk(c) && Expired(c)
    ensures var l := Advance(c).level;
            var last := if l == 0 then 2 else if l == 1 then 3 else if l == 2 then 5 else 9;
            && (n == last ==> Expired(AfterTicks(c, n)))
            && (0 < n < last ==> !Expired(AfterTicks(c, n)))
  {
    var l := Advance(c).level;
    var q := if l == 0 then 1 else if l == 1 then 2 else if l == 2 then 4 else 8;
    assert Advance(c).threadTicks == q;
    if 1 <= n <= q + 1 { QuotaRunsDown(c, q, n); }
  }

  // ---- The scheduler as a state machine -----------------------------------------

  datatype State<T> = State(clock: Clock, levels: seq<seq<T>>)

  ghost predicate StateOk<T>(s: State<T>) {
    ClockOk(s.clock) && |s.levels| == LEVELS
  }

  /** What happens to the ready queue. Ready appends a thread to the level of its priority;
      Dispatch hands out the next thread because the running one blocked, ended or yielded;
      Tick is the clock handler, which also re-queues the running thread (if it is not idle
      and not going to sleep) and dispatches when the quota has expired. */
  datatype Event<T> =
    | Ready(level: nat, thread: T)
    | Dispatch
    | Tick(running: Option<(nat, T)>)

  predicate EventOk<T>(ev: Event<T>) {
    && (ev.Ready? ==> ev.level < LEVELS)
    && (ev.Tick? && ev.running.Some? ==> ev.running.value.0 < LEVELS)
  }

  /** The level scheduler_next_thread takes a thread from, if there is one. */
  function Source<T>(s: State<T>): Option<nat>
    requires 0 <= s.clock.level < |s.levels|
  {
    Pick(s.levels, s.clock.level, |s.levels|)
  }

  function Hand<T>(s: State<T>): State<T>
    requires 0 <= s.clock.level < |s.levels|
  {
    match Source(s)
    case None => s
    case Some(l) => if l < |s.levels| && s.levels[l] != [] then s.(levels := Pop(s.levels, l)) else s
  }

  /** The state in which the event picks a thread, if it picks one. */
  function BeforePick<T>(s: State<T>, ev: Event<T>): State<T>
    requires StateOk(s) && EventOk(ev)
  {
    match ev
    case Ready(l, t) => s.(levels := Append(s.levels, l, t))
    case Dispatch => s
    case Tick(running) =>
      var c := Advance(s.clock);
      if Expired(c) && running.Some? then State(c, Append(s.levels, running.value.0, running.value.1))
      else s.(clock := c)
  }

  predicate Picks<T>(s: State<T>, ev: Event<T>) {
    ev.Dispatch? || (ev.Tick? && Expired(Advance(s.clock)))
  }

  lemma AdvanceOk(c: Clock)
    requires ClockOk(c)
    ensures ClockOk(Advance(c))
  {}

  function Step<T>(s: State<T>, ev: Event<T>): (s': State<T>)
    requires StateOk(s) && EventOk(ev)
    ensures StateOk(s')
  {
    AdvanceOk(s.clock);
    var m := BeforePick(s, ev);
    if Picks(s, ev) then Hand(m) else m
  }

  /** The thread an event dispatches, if any. */
  function Dispatched<T>(s: State<T>, ev: Event<T>): Option<T>
    requires StateOk(s) && EventOk(ev)
  {
    AdvanceOk(s.clock);
    var m := BeforePick(s, ev);
    if !Picks(s, ev) then None
    else
      match Source(m)
      case None => None
      case Some(l) => if l < |m.levels| && m.levels[l] != [] then Some(m.levels[l][0]) else None
  }

  // ---- No starvation ----------------------------------------------------------------

  /** Ticks until level l is next begun; between 1 and ROUND. */
  function Until(c: Clock, l: int): int {
    c.levelTicks + 1 + Between((c.level + 1) % LEVELS, l)
  }

  /** The length of the phases from `from` up to but excluding l, in the circle. */
  function Between(from: int, l: int): int {
    var d := (l - from) % LEVELS;
    if d == 0 then 0
    else if d == 1 then LevelTicks(from) + 1
    else if d == 2 then LevelTicks(from) + 1 + LevelTicks((from + 1) % LEVELS) + 1
    else LevelTicks(from) + 1 + LevelTicks((from + 1) % LEVELS) + 1 + LevelTicks((from + 2) % LEVELS) + 1
  }

  /** Ticks until the quota next expires. */
  function NextExpiry(c: Clock): int {
    if c.threadTicks == 0 then Quota(c.level) + 1 else c.threadTicks
  }

  /** Level l is being served and the quota expires once more before it is left. */
  predicate Owed(c: Clock, l: int) {
    c.level == l && NextExpiry(c) <= c.levelTicks
  }

  /** A bound on the ticks before position p of level l is dispatched. */
  function Budget(c: Clock, l: int, p: nat): int {
    ROUND * (p + if Owed(c, l) then 0 else 1) + Until(c, l)
  }

  /** Every tick either expires the quota while level l is served or uses up its budget;
      an expiry costs one position. */
  lemma TickSpendsBudget(c: Clock, l: int, p: nat)
    requires ClockOk(c) && 0 <= l < LEVELS
    ensures var d := Advance(c);
            && ClockOk(d)
            && (if d.level == l && Expired(d) then p > 0 ==> Budget(d, l, p - 1) < Budget(c, l, p)
                else Budget(d, l, p) < Budget(c, l, p))
  {
    assert ROUND * (p + 1) == ROUND * p + ROUND;
  }

  lemma BudgetBounds(c: Clock, l: int, p: nat)
    requires ClockOk(c) && 0 <= l < LEVELS
    ensures 1 <= Budget(c, l, p) <= ROUND * (p + 2)
  {
    assert ROUND * (p + 2) == ROUND * p + 2 * ROUND;
  }

  /** A waiting thread keeps its place or moves forward; it leaves only by being dispatched. */
  lemma PlaceAfter<T>(s: State<T>, ev: Event<T>, l: nat, p: nat)
    requires StateOk(s) && EventOk(ev) && l < LEVELS && p < |s.levels[l]|
    ensures var t, s' := s.levels[l][p], Step(s, ev);
            || (p < |s'.levels[l]| && s'.levels[l][p] == t)
            || (p > 0 && p - 1 < |s'.levels[l]| && s'.levels[l][p - 1] == t)
            || (p == 0 && Dispatched(s, ev) == Some(t))
    ensures var t, s' := s.levels[l][p], Step(s, ev);
            ev.Tick? && s'.clock.level == l && Expired(s'.clock) ==>
            || (p > 0 && p - 1 < |s'.levels[l]| && s'.levels[l][p - 1] == t)
            || (p == 0 && Dispatched(s, ev) == Some(t))
  {
    AdvanceOk(s.clock);
    var m := BeforePick(s, ev);
    assert p < |m.levels[l]| && m.levels[l][p] == s.levels[l][p];
    if Picks(s, ev) {
      PickFinds(m.levels, m.clock.level);
      TotalZero(m.levels);
    }
  }

  function Ticks<T>(evs: seq<Event<T>>): nat {
    if evs == [] then 0 else (if evs[0].Tick? then 1 else 0) + Ticks(evs[1..])
  }

  /** Some event of the list dispatches t. */
  ghost predicate Reaches<T>(s: State<T>, evs: seq<Event<T>>, t: T)
    requires StateOk(s) && forall i :: 0 <= i < |evs| ==> EventOk(evs[i])
    decreases |evs|
  {
    evs != [] && (Dispatched(s, evs[0]) == Some(t) || Reaches(Step(s, evs[0]), evs[1..], t))
  }

  lemma StepClock<T>(s: State<T>, ev: Event<T>)
    requires StateOk(s) && EventOk(ev)
    ensures Step(s, ev).clock == if ev.Tick? then Advance(s.clock) else s.clock
  {}

  lemma {:induction false} Within<T>(s: State<T>, evs: seq<Event<T>>, l: nat, p: nat)
    requires StateOk(s) && forall i :: 0 <= i < |evs| ==> EventOk(evs[i])
    requires l < LEVELS && p < |s.levels[l]|
    requires Ticks(evs) >= Budget(s.clock, l, p)
    ensures Reaches(s, evs, s.levels[l][p])
    decreases |evs|
  {
    BudgetBounds(s.clock, l, p);
    var ev, t := evs[0], s.levels[l][p];
    var s' := Step(s, ev);
    StepClock(s, ev);
    PlaceAfter(s, ev, l, p);
    TickSpendsBudget(s.clock, l, p);
    if Dispatched(s, ev) != Some(t) {
      if p < |s'.levels[l]| && s'.levels[l][p] == t && !(ev.Tick? && s'.clock.level == l && Expired(s'.clock)) {
        Within(s', evs[1..], l, p);
      } else {
        CloserCostsLess(s'.clock, l, p);
        Within(s', evs[1..], l, p - 1);
      }
    }
  }

  lemma CloserCostsLess(c: Clock, l: int, p: nat)
    requires p > 0
    ensures Budget(c, l, p - 1) < Budget(c, l, p)
  {
    assert ROUND * (p - 1) == ROUND * p - ROUND;
  }

  /** Whatever else becomes ready, blocks or yields, and at whatever levels: the thread at
      position p of its level is dispatched before (p + 2) * 164 clock ticks have passed. */
  lemma NoStarvation<T>(s: State<T>, evs: seq<Event<T>>, l: nat, p: nat)
    requires StateOk(s) && forall i :: 0 <= i < |evs| ==> EventOk(evs[i])
    requires l < LEVELS && p < |s.levels[l]|
    requires Ticks(evs) >= (p + 2) * ROUND
    ensures Reaches(s, evs, s.levels[l][p])
  {
    BudgetBounds(s.clock, l, p);
    Within(s, evs, l, p);
  }

  // ---- The scheduler -----------------------------------------------------------------

  class Scheduler<T> {
    const queue: Queue<T>
    const idle: T
    var size: int
    var level: int
    var levelTicks: int
    var threadTicks: int

    function Now(): Clock
      reads this
    {
      Clock(level, levelTicks, threadTicks)
    }

    ghost function Current(): State<T>
      reads this, queue
    {
      State(Now(), queue.levels)
    }

    ghost predicate Valid()
      reads this, queue
    {
      queue.Valid() && StateOk(Current()) && size == queue.size
    }

    constructor (idle: T)
      ensures Valid() && fresh(queue) && this.idle == idle
      ensures Now() == START && Total(queue.levels) == 0
      ensures level == 0 && levelTicks == 80 && threadTicks == 1
    {
      var q := new Queue<T>(LEVELS);
      queue := q;
      this.idle := idle;
      size := 0;
      level, levelTicks, threadTicks := 0, 80, 1;
    }

    /** A thread whose status is OK joins the level of its priority; any other is left alone. */
    method Schedule(thread: T, status: Status, priority: int) returns (ok: Option<bool>)
      requires Valid()
      modifies this, queue
      ensures Valid()
      ensures ok == if status != Ok then Some(true)
                    else if priority == LEVELS then None
                    else Some(0 <= priority < LEVELS)
      ensures Current() == if status == Ok && 0 <= priority < LEVELS then Step(old(Current()), Ready(priority, thread))
                           else old(Current())
    {
      ok := Some(true);
      if status == Ok {
        ok := queue.Enqueue(priority, thread);
        if ok == Some(true) { size := size + 1; }
      }
    }

    /** The front of the level being served or of the next nonempty one; idle if all are empty. */
    method NextThread() returns (thread: T)
      requires Valid()
      modifies this, queue
      ensures Valid()
      ensures Current() == Step(old(Current()), Dispatch)
      ensures match Dispatched(old(Current()), Dispatch)
              case None => thread == idle && old(size) == 0
              case Some(t) => thread == t && size == old(size) - 1
    {
      PickFinds(queue.levels, level);
      if size == 0 {
        thread := idle;
      } else {
        var from, item := queue.Dequeue(level);
        size := size - 1;
        thread := item.value;
      }
    }

    method AdvanceClock()
      requires Valid()
      modifies this
      ensures Valid() && Now() == Advance(old(Now())) && size == old(size)
      ensures old(levelTicks) > 0 ==> level == old(level) && levelTicks == old(levelTicks) - 1
      ensures old(levelTicks) == 0 ==> level == if old(level) == 3 then 0 else old(level) + 1
      ensures old(levelTicks) == 0 ==>
                levelTicks == if level == 0 then 80 else if level == 1 then 40 else if level == 2 then 24 else 16
      ensures old(threadTicks) > 0 ==> threadTicks == old(threadTicks) - 1
      ensures old(threadTicks) == 0 ==>
                threadTicks == if level == 0 then 1 else if level == 1 then 2 else if level == 2 then 4 else 8
    {
      AdvanceOk(Now());
      levelTicks := levelTicks - 1;
      if levelTicks < 0 {
        level := (level + 1) % LEVELS;
        match level {
          case 0 => levelTicks := 80;
          case 1 => levelTicks := 40;
          case 2 => levelTicks := 24;
          case _ => levelTicks := 16;
        }
      }
      threadTicks := threadTicks - 1;
      if threadTicks < 0 {
        threadTicks := Quota(level);
      }
    }
  }
}

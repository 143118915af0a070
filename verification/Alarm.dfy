/** The alarm list of alarm.c with the clock handler and the alarm thread of minithread.c
    that serve it. */
module Alarms {
  import opened Options
  import opened LinkedQueue

  /** `expiry` is the field `delay` of the source once it has been converted to a tick;
      `action` stands for the function and its argument. */
  datatype Alarm = Alarm(id: int, expiry: int, action: int)

  /** `tokens` is the alarm thread's semaphore. */
  datatype Core = Core(ticks: int, list: seq<Alarm>, tokens: nat, nextId: nat)

  /** The program's variables and what has happened so far: every alarm registered, those
      whose action ran with the tick at which it did, and those deregistered in time. */
  datatype State = State(core: Core, registered: seq<Alarm>, fired: seq<Alarm>, at: seq<int>, cancelled: seq<Alarm>)

  datatype Event =
    | Register(delay: nat, action: int)
    | Deregister(id: int)
    | Tick
    | Serve

  // ---- Steps ----------------------------------------------------------------------------

  function Compare(a: Alarm, b: Alarm): int {
    if a.expiry < b.expiry then -1 else if a.expiry == b.expiry then 0 else 1
  }

  function HasId(id: int): Alarm -> bool { (a: Alarm) => a.id == id }

  function Others(id: int): Alarm -> bool { (a: Alarm) => a.id != id }

  /** trigger_alarm: a due alarm signals the alarm thread; any other ends the iteration. */
  function Trigger(ticks: int): (nat, Alarm) -> (nat, int) {
    (tokens: nat, a: Alarm) => if ticks == a.expiry then (tokens + 1, 0) else (tokens, -1)
  }

  /** A delay in milliseconds as a tick; at least the next one. `period` is the tick length. */
  function Expiry(delay: nat, period: nat, ticks: int): int
    requires period > 0
  {
    if delay / period + ticks == ticks then ticks + 1 else delay / period + ticks
  }

  /** How often the iteration of the clock handler signals the alarm thread. */
  function Signals(list: seq<Alarm>, ticks: int): nat {
    if list == [] || list[0].expiry != ticks then 0 else 1 + Signals(list[1..], ticks)
  }

  /** The alarm thread takes an alarm off the list only if there is one. */
  predicate Possible(c: Core, ev: Event) {
    ev.Serve? ==> c.tokens > 0 && c.list != []
  }

  function CoreStep(c: Core, ev: Event, period: nat): Core
    requires period > 0 && Possible(c, ev)
  {
    match ev
    case Register(delay, action) =>
      var a := Alarm(c.nextId, Expiry(delay, period, c.ticks), action);
      c.(list := Inserted(c.list, Compare, a), nextId := c.nextId + 1)
    case Deregister(id) => c.(list := Kept(c.list, HasId(id)))
    case Tick => c.(ticks := c.ticks + 1, tokens := c.tokens + Signals(c.list, c.ticks + 1))
    case Serve => c.(list := c.list[1..], tokens := c.tokens - 1)
  }

  function Step(s: State, ev: Event, period: nat): State
    requires period > 0 && Possible(s.core, ev)
  {
    var s' := s.(core := CoreStep(s.core, ev, period));
    match ev
    case Register(delay, action) =>
      s'.(registered := s.registered + [Alarm(s.core.nextId, Expiry(delay, period, s.core.ticks), action)])
    case Deregister(id) => s'.(cancelled := s.cancelled + Kept(s.core.list, Others(id)))
    case Tick => s'
    case Serve => s'.(fired := s.fired + [s.core.list[0]], at := s.at + [s.core.ticks])
  }

  /** An alarm is due at the next tick if its delay is less than a tick; otherwise after as many
      whole ticks as the delay has. */
  lemma ExpiryBounds(delay: nat, period: nat, ticks: int)
    requires period > 0
    ensures var e := Expiry(delay, period, ticks);
            if delay < period then e == ticks + 1
            else (e - ticks) * period <= delay < (e - ticks + 1) * period
  {
    var q := delay / period;
    assert q * period <= delay < q * period + period;
    assert (q + 1) * period == q * period + period;
    if q == 0 {
    } else {
      WholeTicks(q, period);
    }
  }

  lemma WholeTicks(q: nat, period: nat)
    requires q >= 1
    ensures q * period >= period
  {
    assert q * period == (q - 1) * period + period;
  }

  const START := State(Core(0, [], 0, 0), [], [], [], [])

  // ---- The invariant ------------------------------------------------------------------------

  /** The alarm thread keeps up: it is done before the next tick, and nobody deregisters an
      alarm between its signal and its service. */
  predicate Prompt(c: Core, ev: Event) {
    match ev
    case Tick => c.tokens == 0
    case Deregister(id) => forall i :: 0 <= i < |c.list| && c.list[i].id == id ==> c.list[i].expiry > c.ticks
    case _ => true
  }

  /** The first `tokens` alarms are due now; all others are due later. */
  ghost predicate ListOk(c: Core) {
    && c.tokens <= |c.list|
    && (forall i :: 0 <= i < c.tokens ==> c.list[i].expiry == c.ticks)
    && (forall i :: c.tokens <= i < |c.list| ==> c.list[i].expiry > c.ticks)
    && Sorted(c.list, Compare)
  }

  ghost predicate HistoryOk(s: State) {
    && |s.registered| == s.core.nextId
    && (forall i :: 0 <= i < |s.registered| ==> s.registered[i].id == i)
    && multiset(s.core.list) + multiset(s.fired) + multiset(s.cancelled) == multiset(s.registered)
    && |s.at| == |s.fired|
    && (forall k :: 0 <= k < |s.at| ==> s.at[k] == s.fired[k].expiry <= s.core.ticks)
  }

  ghost predicate Inv(s: State) {
    ListOk(s.core) && HistoryOk(s)
  }

  lemma CompareOrders()
    ensures Ordering(Compare)
  {}

  lemma PlaceBehindDue(c: Core, a: Alarm)
    requires ListOk(c) && a.expiry > c.ticks
    ensures c.tokens <= Place(c.list, Compare, a)
  {
    var k := Place(c.list, Compare, a);
    CompareOrders();
    SortedPlace(c.list, Compare, a);
    assert k < |c.list| ==> Compare(c.list[k], a) >= 0;
  }

  lemma InsertedDue(c: Core, a: Alarm, i: nat)
    requires ListOk(c) && a.expiry > c.ticks && i <= |c.list|
    ensures |Inserted(c.list, Compare, a)| == |c.list| + 1
    ensures if i < c.tokens then Inserted(c.list, Compare, a)[i].expiry == c.ticks
            else Inserted(c.list, Compare, a)[i].expiry > c.ticks
  {
    PlaceBehindDue(c, a);
    InsertedAt(c.list, Compare, a, i);
  }

  /** A new alarm joins the alarms that are due later. */
  lemma RegisterKeeps(c: Core, a: Alarm)
    requires ListOk(c) && a.expiry > c.ticks
    ensures ListOk(c.(list := Inserted(c.list, Compare, a), nextId := c.nextId + 1))
  {
    CompareOrders();
    InsertSorts(c.list, Compare, a);
    InsertedDue(c, a, 0);
    var list := Inserted(c.list, Compare, a);
    forall i: nat | i < c.tokens ensures list[i].expiry == c.ticks { InsertedDue(c, a, i); }
    forall i: nat | c.tokens <= i < |list| ensures list[i].expiry > c.ticks { InsertedDue(c, a, i); }
  }

  lemma {:induction false} SignalsDue(list: seq<Alarm>, ticks: int)
    requires Sorted(list, Compare) && forall i :: 0 <= i < |list| ==> list[i].expiry >= ticks
    ensures Signals(list, ticks) <= |list|
    ensures forall i :: 0 <= i < Signals(list, ticks) ==> list[i].expiry == ticks
    ensures forall i :: Signals(list, ticks) <= i < |list| ==> list[i].expiry > ticks
  {
    if list == [] {
    } else {
      if list[0].expiry == ticks {
        SignalsDue(list[1..], ticks);
      } else {
        forall i | 0 <= i < |list| ensures list[i].expiry > ticks { assert i > 0 ==> Compare(list[0], list[i]) <= 0; }
      }
    }
  }

  /** The early end of the iteration loses nothing: exactly the due front is signalled. */
  lemma TickKeeps(c: Core)
    requires ListOk(c) && c.tokens == 0
    ensures ListOk(c.(ticks := c.ticks + 1, tokens := Signals(c.list, c.ticks + 1)))
  {
    SignalsDue(c.list, c.ticks + 1);
  }

  lemma ServeKeeps(c: Core)
    requires ListOk(c) && c.tokens > 0
    ensures c.list != [] && c.list[0].expiry == c.ticks
    ensures ListOk(c.(list := c.list[1..], tokens := c.tokens - 1))
  {}

  // Deregistration: the due front is kept, the rest is thinned out.

  lemma {:induction false} KeptIs<T>(s: seq<T>, matches: T -> bool, p: T -> bool)
    requires forall i :: 0 <= i < |s| ==> p(s[i])
    ensures forall i :: 0 <= i < |Kept(s, matches)| ==> p(Kept(s, matches)[i])
  {
    if s == [] {
    } else {
      KeptIs(s[1..], matches, p);
    }
  }

  lemma {:induction false} KeptAll<T>(s: seq<T>, matches: T -> bool)
    requires forall i :: 0 <= i < |s| ==> !matches(s[i])
    ensures Kept(s, matches) == s
  {
    if s == [] {
    } else {
      KeptAll(s[1..], matches);
    }
  }

  lemma {:induction false} KeptSorted(s: seq<Alarm>, matches: Alarm -> bool)
    requires Sorted(s, Compare)
    ensures Sorted(Kept(s, matches), Compare)
  {
    if s == [] {
    } else {
      KeptSorted(s[1..], matches);
      var first := s[0].expiry;
      forall i | 0 <= i < |s[1..]| ensures s[1..][i].expiry >= first { assert Compare(s[0], s[i + 1]) <= 0; }
      KeptIs(s[1..], matches, (a: Alarm) => a.expiry >= first);
    }
  }

  lemma Halves<T>(s: seq<T>, k: nat)
    requires k <= |s|
    ensures s == s[..k] + s[k..]
  {}

  lemma KeptSplit(s: seq<Alarm>, k: nat, matches: Alarm -> bool)
    requires k <= |s|
    ensures Kept(s, matches) == Kept(s[..k], matches) + Kept(s[k..], matches)
  {
    Halves(s, k);
    KeptInOrder(s[..k], s[k..], matches);
  }

  /** What is due later, and kept, is due later. */
  lemma KeptLater(c: Core, matches: Alarm -> bool)
    requires ListOk(c)
    ensures forall i :: 0 <= i < |Kept(c.list[c.tokens..], matches)| ==>
              Kept(c.list[c.tokens..], matches)[i].expiry > c.ticks
  {
    var rest, now := c.list[c.tokens..], c.ticks;
    forall i | 0 <= i < |rest| ensures rest[i].expiry > now { assert rest[i] == c.list[c.tokens + i]; }
    KeptIs(rest, matches, (a: Alarm) => a.expiry > now);
  }

  lemma DueIsKept(c: Core, id: int)
    requires ListOk(c) && Prompt(c, Deregister(id))
    ensures Kept(c.list[..c.tokens], HasId(id)) == c.list[..c.tokens]
  {
    var due := c.list[..c.tokens];
    forall i | 0 <= i < |due| ensures !HasId(id)(due[i]) { assert due[i] == c.list[i]; }
    KeptAll(due, HasId(id));
  }

  lemma KeptBehindDue(c: Core, id: int) returns (later: seq<Alarm>)
    requires ListOk(c) && Prompt(c, Deregister(id))
    ensures Kept(c.list, HasId(id)) == c.list[..c.tokens] + later
    ensures forall i :: 0 <= i < |later| ==> later[i].expiry > c.ticks
  {
    KeptSplit(c.list, c.tokens, HasId(id));
    DueIsKept(c, id);
    KeptLater(c, HasId(id));
    later := Kept(c.list[c.tokens..], HasId(id));
  }

  lemma DeregisterKeeps(c: Core, id: int)
    requires ListOk(c) && Prompt(c, Deregister(id))
    ensures ListOk(c.(list := Kept(c.list, HasId(id))))
  {
    var later := KeptBehindDue(c, id);
    KeptSorted(c.list, HasId(id));
  }

  // ---- Nothing is lost or fired twice --------------------------------------------------------

  lemma {:induction false} KeptSplits(s: seq<Alarm>, id: int)
    ensures multiset(Kept(s, HasId(id))) + multiset(Kept(s, Others(id))) == multiset(s)
  {
    if s == [] {
    } else {
      KeptSplits(s[1..], id);
      assert s == [s[0]] + s[1..];
    }
  }

  lemma HistoryKept(s: State, ev: Event, period: nat)
    requires Inv(s) && period > 0 && Possible(s.core, ev)
    ensures HistoryOk(Step(s, ev, period))
  {
    match ev
    case Register(delay, action) =>
      RegisterCounts(s, Alarm(s.core.nextId, Expiry(delay, period, s.core.ticks), action));
    case Deregister(id) =>
      KeptSplits(s.core.list, id);
      DeregisterCounts(s.core.list, Kept(s.core.list, HasId(id)), Kept(s.core.list, Others(id)), s.cancelled, s.fired);
    case Tick =>
    case Serve => ServeCounts(s);
  }

  lemma RegisterCounts(s: State, a: Alarm)
    requires HistoryOk(s) && a.id == s.core.nextId
    ensures multiset(Inserted(s.core.list, Compare, a)) + multiset(s.fired) + multiset(s.cancelled) ==
            multiset(s.registered + [a])
  {
    InsertPermutes(s.core.list, Compare, a);
  }

  lemma DeregisterCounts(list: seq<Alarm>, kept: seq<Alarm>, gone: seq<Alarm>, cancelled: seq<Alarm>, fired: seq<Alarm>)
    requires multiset(kept) + multiset(gone) == multiset(list)
    ensures multiset(kept) + multiset(fired) + multiset(cancelled + gone) ==
            multiset(list) + multiset(fired) + multiset(cancelled)
  {}

  lemma ServeCounts(s: State)
    requires Inv(s) && s.core.tokens > 0
    ensures s.core.list != [] && s.core.list[0].expiry == s.core.ticks
    ensures multiset(s.core.list[1..]) + multiset(s.fired + [s.core.list[0]]) + multiset(s.cancelled) ==
            multiset(s.registered)
  {
    assert s.core.list == [s.core.list[0]] + s.core.list[1..];
  }

  lemma ListKept(c: Core, ev: Event, period: nat)
    requires ListOk(c) && period > 0 && Possible(c, ev) && Prompt(c, ev)
    ensures ListOk(CoreStep(c, ev, period))
  {
    match ev
    case Register(delay, action) => RegisterKeeps(c, Alarm(c.nextId, Expiry(delay, period, c.ticks), action));
    case Deregister(id) => DeregisterKeeps(c, id);
    case Tick => TickKeeps(c);
    case Serve => ServeKeeps(c);
  }

  // ---- Why the alarm thread must keep up --------------------------------------------------------

  /** An alarm whose tick has passed unserved hides every alarm behind it from the handler. */
  lemma LateFrontBlocks(c: Core, period: nat)
    requires ListOk(c) && c.tokens > 0 && period > 0
    ensures CoreStep(c, Tick, period).tokens == c.tokens
    ensures forall t :: t > c.ticks ==> Signals(c.list, t) == 0
    ensures !ListOk(CoreStep(c, Tick, period))
  {
    assert c.list[0].expiry == c.ticks;
  }

  lemma {:induction false} KeptShrinks<T>(s: seq<T>, matches: T -> bool, i: nat)
    requires i < |s| && matches(s[i])
    ensures |Kept(s, matches)| < |s|
  {
    if i == 0 {
      KeptExactly(s[1..], matches, s[0]);
    } else {
      KeptShrinks(s[1..], matches, i - 1);
    }
  }

  /** Deregistering an alarm that has been signalled leaves more signals than due alarms: the n
      due alarms that are left are served on time, and the signal behind them, which is pending
      too, finds no alarm or serves one whose tick has not come. */
  lemma ServedEarly(c: Core, id: int, i: nat, period: nat) returns (n: nat)
    requires ListOk(c) && period > 0 && i < |c.list| && c.list[i].id == id && c.list[i].expiry <= c.ticks
    ensures var late := CoreStep(c, Deregister(id), period);
            && n < late.tokens && n <= |late.list|
            && (forall j :: 0 <= j < n ==> late.list[j].expiry == late.ticks)
            && (n < |late.list| ==> late.list[n].expiry > late.ticks)
  {
    var due := c.list[..c.tokens];
    assert i < c.tokens && due[i] == c.list[i] && HasId(id)(due[i]);
    KeptSplit(c.list, c.tokens, HasId(id));
    KeptShrinks(due, HasId(id), i);
    KeptLater(c, HasId(id));
    DueStay(c, HasId(id));
    n := |Kept(due, HasId(id))|;
  }

  lemma DueStay(c: Core, matches: Alarm -> bool)
    requires ListOk(c)
    ensures forall j :: 0 <= j < |Kept(c.list[..c.tokens], matches)| ==>
              Kept(c.list[..c.tokens], matches)[j].expiry == c.ticks
  {
    var due, now := c.list[..c.tokens], c.ticks;
    forall j | 0 <= j < |due| ensures due[j].expiry == now { assert due[j] == c.list[j]; }
    KeptIs(due, matches, (a: Alarm) => a.expiry == now);
  }

  lemma LateDeregisterMiscounts(c: Core, id: int, i: nat, period: nat)
    requires ListOk(c) && period > 0 && i < |c.list| && c.list[i].id == id && c.list[i].expiry <= c.ticks
    ensures !ListOk(CoreStep(c, Deregister(id), period))
  {
    var n := ServedEarly(c, id, i, period);
  }

  /** Exactly the prompt events keep the list in step with the signals. */
  lemma PromptExactly(c: Core, ev: Event, period: nat)
    requires ListOk(c) && period > 0 && Possible(c, ev)
    ensures ListOk(CoreStep(c, ev, period)) <==> Prompt(c, ev)
  {
    if Prompt(c, ev) {
      ListKept(c, ev, period);
    } else if ev.Tick? {
      LateFrontBlocks(c, period);
    } else {
      var i :| 0 <= i < |c.list| && c.list[i].id == ev.id && c.list[i].expiry <= c.ticks;
      LateDeregisterMiscounts(c, ev.id, i, period);
    }
  }

  // ---- Runs ------------------------------------------------------------------------------------

  ghost predicate Next(s: State, s': State, period: nat)
    requires period > 0
  {
    exists ev :: Possible(s.core, ev) && Prompt(s.core, ev) && s' == Step(s, ev, period)
  }

  lemma StepKeepsInv(s: State, ev: Event, period: nat)
    requires Inv(s) && period > 0 && Possible(s.core, ev) && Prompt(s.core, ev)
    ensures Inv(Step(s, ev, period))
  {
    ListKept(s.core, ev, period);
    HistoryKept(s, ev, period);
  }

  ghost predicate IsRun(run: seq<State>, period: nat) {
    period > 0 && run != [] && run[0] == START && forall n :: 0 <= n < |run| - 1 ==> Next(run[n], run[n + 1], period)
  }

  lemma {:induction false} RunInv(run: seq<State>, period: nat, n: nat)
    requires IsRun(run, period) && n < |run|
    ensures Inv(run[n])
  {
    if n == 0 {
    } else {
      RunInv(run, period, n - 1);
      assert Next(run[n - 1], run[n], period);
      var ev :| Possible(run[n - 1].core, ev) && Prompt(run[n - 1].core, ev) && run[n] == Step(run[n - 1], ev, period);
      StepKeepsInv(run[n - 1], ev, period);
    }
  }

  lemma {:induction false} CountsOnce(s: seq<Alarm>, id: nat)
    requires (forall i :: 0 <= i < |s| ==> s[i].id == i) && id < |s|
    ensures multiset(s)[s[id]] == 1
  {
    var n := |s| - 1;
    assert s == s[..n] + [s[n]];
    if id < n {
      CountsOnce(s[..n], id);
    } else {
      forall i | 0 <= i < n ensures s[..n][i] != s[n] {}
      assert s[n] !in s[..n];
    }
  }

  /** While the alarm thread keeps up: every alarm that is not deregistered in time fires
      exactly once, at its expiry tick; until then it is on the list. */
  lemma AlarmsFireOnTime(run: seq<State>, period: nat, n: nat, id: nat)
    requires IsRun(run, period) && n < |run| && id < |run[n].registered|
    ensures var s, a := run[n], run[n].registered[id];
            && multiset(s.core.list)[a] + multiset(s.fired)[a] + multiset(s.cancelled)[a] == 1
            && (forall k :: 0 <= k < |s.fired| && s.fired[k] == a ==> k < |s.at| && s.at[k] == a.expiry)
            && (a.expiry <= s.core.ticks && s.core.tokens == 0 && a !in s.cancelled ==> multiset(s.fired)[a] == 1)
            && (a.expiry > s.core.ticks ==> a !in s.fired)
  {
    var s, a := run[n], run[n].registered[id];
    RunInv(run, period, n);
    CountsOnce(s.registered, id);
    assert (multiset(s.core.list) + multiset(s.fired) + multiset(s.cancelled))[a] == 1;
    if a.expiry <= s.core.ticks && s.core.tokens == 0 {
      assert a !in s.core.list;
      assert multiset(s.core.list)[a] == 0;
    }
    if a !in s.cancelled { assert multiset(s.cancelled)[a] == 0; }
  }

  /** What is registered stays registered. */
  lemma {:induction false} RegisteredGrow(run: seq<State>, period: nat, n: nat, m: nat)
    requires IsRun(run, period) && n <= m < |run|
    ensures run[n].registered <= run[m].registered
  {
    if n == m {
    } else {
      RegisteredGrow(run, period, n, m - 1);
      assert Next(run[m - 1], run[m], period);
    }
  }

  /** An element counted once stands in one place. */
  lemma StandsOnce(s: seq<Alarm>, a: Alarm, j: nat, k: nat)
    requires multiset(s)[a] == 1 && j < k < |s|
    ensures s[j] != a || s[k] != a
  {
    assert s == s[..k] + s[k..];
    assert s[..k][j] == s[j] && s[k..][0] == s[k];
    assert multiset(s)[a] == multiset(s[..k])[a] + multiset(s[k..])[a];
  }

  lemma FiredOnce(fired: seq<Alarm>, a: Alarm) returns (k: nat)
    requires multiset(fired)[a] == 1
    ensures k < |fired| && fired[k] == a
    ensures forall i :: 0 <= i < |fired| && fired[i] == a ==> i == k
  {
    assert a in multiset(fired);
    k :| k < |fired| && fired[k] == a;
    forall i | 0 <= i < |fired| && i != k ensures fired[i] != a {
      if i < k { StandsOnce(fired, a, i, k); } else { StandsOnce(fired, a, k, i); }
    }
  }

  /** Deregistering takes off the list what has the id given, and nothing else does. */
  lemma CancelledExactly(s: State, ev: Event, a: Alarm, period: nat)
    requires period > 0 && Possible(s.core, ev)
    ensures a in Step(s, ev, period).cancelled <==> a in s.cancelled || (a in s.core.list && ev == Deregister(a.id))
    ensures a in s.core.list && ev == Deregister(a.id) ==> a !in Step(s, ev, period).core.list
  {
    if ev.Deregister? {
      KeptExactly(s.core.list, Others(ev.id), a);
      KeptExactly(s.core.list, HasId(ev.id), a);
      assert a in multiset(s.core.list) <==> a in s.core.list;
      assert a in multiset(Kept(s.core.list, Others(ev.id))) <==> a in Kept(s.core.list, Others(ev.id));
      assert a in multiset(Kept(s.core.list, HasId(ev.id))) <==> a in Kept(s.core.list, HasId(ev.id));
    }
  }

  /** A step of a run that is not a call of deregister_alarm with this id. */
  ghost predicate Spares(run: seq<State>, period: nat, id: int, n: nat)
    requires period > 0 && n + 1 < |run|
  {
    exists ev :: Possible(run[n].core, ev) && Prompt(run[n].core, ev) && ev != Deregister(id)
                 && run[n + 1] == Step(run[n], ev, period)
  }

  lemma {:induction false} SparedIsNotCancelled(run: seq<State>, period: nat, n: nat, m: nat, a: Alarm)
    requires IsRun(run, period) && n <= m < |run| && a !in run[n].cancelled
    requires forall j: nat :: n <= j < m ==> Spares(run, period, a.id, j)
    ensures a !in run[m].cancelled
  {
    if n == m {
    } else {
      SparedIsNotCancelled(run, period, n, m - 1, a);
      assert Spares(run, period, a.id, m - 1);
      var ev :| Possible(run[m - 1].core, ev) && Prompt(run[m - 1].core, ev) && ev != Deregister(a.id)
                && run[m] == Step(run[m - 1], ev, period);
      CancelledExactly(run[m - 1], ev, a, period);
    }
  }

  lemma NewAlarm(s: State, delay: nat, action: int, period: nat) returns (a: Alarm)
    requires HistoryOk(s) && period > 0
    ensures var s' := Step(s, Register(delay, action), period);
            && |s'.registered| == s.core.nextId + 1 && s'.registered[s.core.nextId] == a && a !in s'.cancelled
            && a.id == s.core.nextId && a.action == action
            && if delay < period then a.expiry == s.core.ticks + 1
               else (a.expiry - s.core.ticks) * period <= delay < (a.expiry - s.core.ticks + 1) * period
  {
    ExpiryBounds(delay, period, s.core.ticks);
    a := Alarm(s.core.nextId, Expiry(delay, period, s.core.ticks), action);
    assert a !in s.registered;
    assert multiset(s.registered)[a] == 0;
    assert (multiset(s.core.list) + multiset(s.fired) + multiset(s.cancelled))[a] == 0;
  }

  /** Whether the alarm has called its function by now, and when. */
  ghost predicate FiredAt(s: State, a: Alarm, k: nat) {
    && k < |s.fired| == |s.at| && s.fired[k] == a && s.at[k] == a.expiry
    && forall i :: 0 <= i < |s.fired| && s.fired[i] == a ==> i == k
  }

  lemma FiresOnTime(run: seq<State>, period: nat, m: nat, id: nat) returns (k: nat)
    requires IsRun(run, period) && m < |run| && id < |run[m].registered|
    requires run[m].registered[id] !in run[m].cancelled
    ensures var s, a := run[m], run[m].registered[id];
            && (s.core.ticks < a.expiry ==> a !in s.fired)
            && (s.core.ticks >= a.expiry && s.core.tokens == 0 ==> FiredAt(s, a, k))
  {
    var s, a := run[m], run[m].registered[id];
    k := 0;
    RunInv(run, period, m);
    AlarmsFireOnTime(run, period, m, id);
    if s.core.ticks >= a.expiry && s.core.tokens == 0 { k := FiredOnce(s.fired, a); }
  }

  /** The promise of register_alarm, while the alarm thread keeps up: an alarm registered with a
      delay in milliseconds, and not deregistered, calls its function exactly once: at the next
      tick if the delay is less than a tick, otherwise after the whole ticks of the delay. */
  lemma AlarmFiresAsAsked(run: seq<State>, period: nat, n: nat, m: nat, delay: nat, action: int)
    returns (a: Alarm, k: nat)
    requires IsRun(run, period) && n + 1 <= m < |run|
    requires run[n + 1] == Step(run[n], Register(delay, action), period)
    requires forall j: nat :: n + 1 <= j < m ==> Spares(run, period, run[n].core.nextId, j)
    ensures a.id == run[n].core.nextId && a.action == action
    ensures var t := run[n].core.ticks;
            if delay < period then a.expiry == t + 1
            else (a.expiry - t) * period <= delay < (a.expiry - t + 1) * period
    ensures run[m].core.ticks < a.expiry ==> a !in run[m].fired
    ensures run[m].core.ticks >= a.expiry && run[m].core.tokens == 0 ==> FiredAt(run[m], a, k)
  {
    RunInv(run, period, n);
    a := NewAlarm(run[n], delay, action, period);
    RegisteredGrow(run, period, n + 1, m);
    SparedIsNotCancelled(run, period, n + 1, m, a);
    k := FiresOnTime(run, period, m, a.id);
  }

  /** An alarm deregistered while it is on the list never calls its function. */
  lemma DeregisteredNeverFires(run: seq<State>, period: nat, n: nat, m: nat, id: nat)
    requires IsRun(run, period) && n + 1 <= m < |run| && id < |run[n].registered|
    requires run[n].registered[id] in run[n].core.list
    requires run[n + 1] == Step(run[n], Deregister(id), period)
    ensures run[n].registered[id] !in run[m].fired && run[n].registered[id] !in run[m].core.list
  {
    var a := run[n].registered[id];
    RunInv(run, period, n);
    CancelledExactly(run[n], Deregister(id), a, period);
    RegisteredGrow(run, period, n, m);
    CancelledGrow(run, period, n + 1, m);
    AlarmsFireOnTime(run, period, m, id);
    assert multiset(run[m].cancelled)[a] > 0;
  }

  lemma {:induction false} CancelledGrow(run: seq<State>, period: nat, n: nat, m: nat)
    requires IsRun(run, period) && n <= m < |run|
    ensures run[n].cancelled <= run[m].cancelled
  {
    if n == m {
    } else {
      CancelledGrow(run, period, n, m - 1);
      assert Next(run[m - 1], run[m], period);
    }
  }

  // ---- What happens when it does not keep up ---------------------------------------------------

  ghost predicate AnyStep(run: seq<State>, period: nat, n: nat)
    requires period > 0 && n + 1 < |run|
  {
    exists ev :: Possible(run[n].core, ev) && run[n + 1] == Step(run[n], ev, period)
  }

  /** A run from any state, with events prompt or not. */
  ghost predicate IsAnyRun(run: seq<State>, period: nat) {
    period > 0 && run != [] && forall n: nat :: n + 1 < |run| ==> AnyStep(run, period, n)
  }

  lemma AnyStepHistory(run: seq<State>, period: nat, n: nat)
    requires IsAnyRun(run, period) && n + 1 < |run| && |run[n].at| == |run[n].fired|
    ensures var s, s' := run[n], run[n + 1];
            && s.core.ticks <= s'.core.ticks && |s'.at| == |s'.fired|
            && s.fired <= s'.fired && s.at <= s'.at
            && (forall k :: |s.at| <= k < |s'.at| ==> s'.at[k] >= s.core.ticks)
  {
    assert AnyStep(run, period, n);
  }

  /** What fires later fires at a later tick. */
  lemma {:induction false} LaterFirings(run: seq<State>, period: nat, n: nat, m: nat)
    requires IsAnyRun(run, period) && n <= m < |run| && |run[n].at| == |run[n].fired|
    ensures var s, s' := run[n], run[m];
            && s.core.ticks <= s'.core.ticks && |s'.at| == |s'.fired|
            && s.fired <= s'.fired && s.at <= s'.at
            && (forall k :: |s.at| <= k < |s'.at| ==> s'.at[k] >= s.core.ticks)
  {
    if n == m {
    } else {
      LaterFirings(run, period, n, m - 1);
      AnyStepHistory(run, period, m - 1);
    }
  }

  lemma ListedHasNotFired(s: State, a: Alarm)
    requires Inv(s) && a in s.core.list
    ensures a !in s.fired
  {
    assert a in multiset(s.registered);
    var id: nat :| id < |s.registered| && s.registered[id] == a;
    CountsOnce(s.registered, id);
    assert (multiset(s.core.list) + multiset(s.fired) + multiset(s.cancelled))[a] == 1;
    assert multiset(s.core.list)[a] >= 1;
    assert multiset(s.fired)[a] == 0;
  }

  /** The other half of the condition on ticks: if a tick comes while a signal is pending, the
      front alarm never fires at its expiry, in whatever way the run goes on. */
  lemma LateAlarmsFireLate(run: seq<State>, period: nat, m: nat, k: nat)
    requires IsAnyRun(run, period) && 1 <= m < |run|
    requires Inv(run[0]) && run[0].core.tokens > 0 && run[1] == Step(run[0], Tick, period)
    requires k < |run[m].fired| && run[m].fired[k] == run[0].core.list[0]
    ensures k < |run[m].at| && run[m].at[k] > run[0].core.list[0].expiry
  {
    ListedHasNotFired(run[0], run[0].core.list[0]);
    LaterFirings(run, period, 1, m);
  }

  // ---- The alarm list in place -------------------------------------------------------------------

  lemma {:induction false} IterationSignals(list: seq<Alarm>, ticks: int, tokens: nat)
    ensures Iterated(list, Trigger(ticks), tokens).0 == tokens + Signals(list, ticks)
  {
    if list != [] && list[0].expiry == ticks { IterationSignals(list[1..], ticks, tokens + 1); }
  }

  lemma Served(c: Core, x: Alarm, rest: seq<Alarm>, period: nat)
    requires c.list == [x] + rest && c.tokens > 0 && period > 0
    ensures c.list != [] && c.list[0] == x
    ensures CoreStep(c, Serve, period) == c.(list := rest, tokens := c.tokens - 1)
  {}

  class AlarmList {
    const period: nat
    const queue: Queue<Alarm>
    var ticks: int
    var tokens: nat
    var nextId: nat

    ghost predicate Valid()
      reads this, queue, Objects(queue.nodes)
    {
      period > 0 && queue.Valid()
    }

    ghost function Current(): Core
      reads this, queue
    {
      Core(ticks, queue.Contents(), tokens, nextId)
    }

    constructor (period: nat)
      requires period > 0
      ensures Valid() && Current() == START.core && this.period == period
      ensures fresh(queue) && fresh(Objects(queue.nodes))
    {
      var q := new Queue<Alarm>();
      this.period := period;
      queue := q;
      ticks, tokens, nextId := 0, 0, 0;
    }

    method ExpiryTick(delay: nat) returns (expiry: int)
      requires period > 0
      ensures expiry == Expiry(delay, period, ticks)
      ensures if delay < period then expiry == ticks + 1
              else (expiry - ticks) * period <= delay < (expiry - ticks + 1) * period
    {
      ExpiryBounds(delay, period, ticks);
      expiry := delay / period + ticks;
      if expiry == ticks {
        expiry := expiry + 1;
      }
    }

    /** Returns the alarm's id; -1 without a function or for a negative delay. */
    method RegisterAlarm(delay: int, action: Option<int>) returns (id: int)
      requires Valid()
      modifies this, queue, Objects(queue.nodes)
      ensures Valid() && fresh(Objects(queue.nodes) - old(Objects(queue.nodes)))
      ensures id == (if action.None? || delay < 0 then -1 else old(nextId))
      ensures Current() == if action.None? || delay < 0 then old(Current())
                           else CoreStep(old(Current()), Register(delay, action.value), period)
    {
      if action.None? || delay < 0 { return -1; }
      var expiry := ExpiryTick(delay);
      ghost var before := Current();
      var alarm := Alarm(nextId, expiry, action.value);
      assert alarm == Alarm(before.nextId, Expiry(delay, period, before.ticks), action.value);
      queue.InsertSorted(Compare, alarm);
      assert queue.Contents() == Inserted(before.list, Compare, alarm);
      id := nextId;
      nextId := nextId + 1;
    }

    method DeregisterAlarm(id: int)
      requires Valid()
      modifies queue, Objects(queue.nodes)
      ensures Valid() && Objects(queue.nodes) <= old(Objects(queue.nodes))
      ensures Current() == CoreStep(old(Current()), Deregister(id), period)
    {
      var removed := queue.DeleteByPredicate(HasId(id));
    }

    /** The part of clock_handler that concerns alarms. */
    method ClockTick()
      requires Valid()
      modifies this
      ensures Valid() && Current() == CoreStep(old(Current()), Tick, period)
    {
      ticks := ticks + 1;
      IterationSignals(queue.Contents(), ticks, tokens);
      var status;
      status, tokens := queue.Iterate(Trigger(ticks), tokens);
    }

    /** One round of alarm_proc behind its P; returns the alarm whose function it calls. None
        stands for the NULL it is left with, and follows, when the list is empty. */
    method Serve() returns (alarm: Option<Alarm>)
      requires Valid() && tokens > 0
      modifies this, queue, Objects(queue.nodes)
      ensures Valid() && Objects(queue.nodes) <= old(Objects(queue.nodes))
      ensures alarm.None? <==> old(queue.Contents()) == []
      ensures alarm.Some? ==> alarm.value == old(queue.Contents())[0]
      ensures Current() == if alarm.Some? then CoreStep(old(Current()), Event.Serve, period)
                           else old(Current()).(tokens := old(tokens) - 1)
    {
      ghost var before := Current();
      tokens := tokens - 1;
      alarm := queue.Dequeue();
      if alarm.Some? { Served(before, alarm.value, queue.Contents(), period); }
    }
  }
}

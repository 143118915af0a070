/** The threads that wait on one cache entry of miniroute.c. A thread that finds a
    search in progress counts itself in and blocks; whoever ends the search wakes
    one of them, and each released thread wakes the next. */
module RouteEntry {
  import opened Options

  datatype Flag = Searching | Found | GaveUp

  /** `waiting` is the entry's own count. `tokens`, `blocked` and `woken` are its semaphore:
      tokens left, threads blocked in P, and threads past P that have not run yet. `freed`
      tells that the entry was destroyed, `strayed` that this happened while a thread was
      still counted as waiting; `released` counts the threads that came out again. */
  datatype Entry = Entry(flag: Flag, waiting: int, tokens: nat, blocked: nat, woken: nat,
                         freed: bool, strayed: bool, released: nat)

  const NEW_ENTRY := Entry(Searching, 0, 0, 0, 0, false, false, 0)

  /** What happens to an entry. WaitFor is retrieve_route up to its P, Resume the part behind
      it (`creator` for the thread that made the entry and does not destroy it), ReplyArrives
      and SearchEnds the two ends of a search, LateCall a call that finds a failed entry. */
  datatype Event = WaitFor | Resume(creator: bool) | ReplyArrives | SearchEnds | LateCall

  function P(e: Entry): Entry {
    if e.tokens > 0 then e.(tokens := e.tokens - 1, woken := e.woken + 1)
    else e.(blocked := e.blocked + 1)
  }

  function V(e: Entry): Entry {
    if e.blocked > 0 then e.(blocked := e.blocked - 1, woken := e.woken + 1)
    else e.(tokens := e.tokens + 1)
  }

  function Destroy(e: Entry): Entry {
    e.(freed := true, strayed := e.waiting != 0 || e.blocked + e.woken != 0)
  }

  function Step(e: Entry, ev: Event): Option<Entry> {
    if e.freed then None
    else
      match ev
      case WaitFor => if e.flag != Searching then None else Some(P(e.(waiting := e.waiting + 1)))
      case Resume(creator) =>
        if e.woken == 0 then None
        else
          var f := e.(woken := e.woken - 1, waiting := e.waiting - 1, released := e.released + 1);
          var g := if f.waiting > 0 then V(f) else f;
          Some(if g.flag != Found && !creator && g.waiting == 0 then Destroy(g) else g)
      case ReplyArrives =>
        if e.flag != Searching then None
        else
          var f := e.(flag := Found);
          Some(if f.waiting > 0 then V(f) else f)
      case SearchEnds =>
        if e.flag != Searching then None
        else
          var f := e.(flag := GaveUp);
          Some(if f.waiting != 0 then V(f) else Destroy(f))
      case LateCall =>
        if e.flag != GaveUp then None
        else Some(if e.waiting > 0 then V(e) else Destroy(e))
  }

  /** No one is on the way out while the search is in progress; afterwards the baton exists
      as long as anybody waits. */
  ghost predicate Inv(e: Entry) {
    && e.waiting == e.blocked + e.woken
    && (e.blocked > 0 ==> e.tokens == 0)
    && (e.flag == Searching ==> e.tokens == 0 && e.woken == 0)
    && (e.flag != Searching && !e.freed && e.waiting > 0 ==> e.woken > 0)
    && (e.freed ==> e.waiting == 0)
    && !e.strayed
  }

  lemma StepKeepsInv(e: Entry, ev: Event)
    requires Inv(e) && Step(e, ev).Some?
    ensures Inv(Step(e, ev).value)
  {}

  ghost predicate Next(e: Entry, e': Entry) {
    exists ev :: Step(e, ev) == Some(e')
  }

  ghost predicate IsRun(run: seq<Entry>) {
    && run != [] && run[0] == NEW_ENTRY
    && (forall i :: 0 <= i < |run| - 1 ==> Next(run[i], run[i + 1]))
  }

  lemma {:induction false} RunInv(run: seq<Entry>, n: nat)
    requires IsRun(run) && n < |run|
    ensures Inv(run[n])
  {
    if n == 0 {
    } else {
      RunInv(run, n - 1);
      assert Next(run[n - 1], run[n]);
      var ev :| Step(run[n - 1], ev) == Some(run[n]);
      StepKeepsInv(run[n - 1], ev);
    }
  }

  /** Once the search has ended and threads still wait, one of them has been released; and an
      entry is destroyed only when nobody is counted as waiting, blocked or on the way out. */
  lemma BatonIsPassed(run: seq<Entry>, n: nat)
    requires IsRun(run) && n < |run|
    ensures var e := run[n];
            && (e.flag != Searching && !e.freed && e.waiting > 0 ==> e.woken >= 1)
            && (e.freed ==> e.waiting == 0 && e.blocked == 0 && e.woken == 0)
            && e.waiting == e.blocked + e.woken
  {
    RunInv(run, n);
  }

  // ---- Every waiter comes out ------------------------------------------------------

  /** A run with the events that make it up. */
  ghost predicate IsTrace(run: seq<Entry>, evs: seq<Event>) {
    && |run| == |evs| + 1 && run[0] == NEW_ENTRY
    && forall i :: 0 <= i < |evs| ==> Step(run[i], evs[i]) == Some(run[i + 1])
  }

  function Resumes(evs: seq<Event>): nat {
    if evs == [] then 0 else Resumes(evs[..|evs|-1]) + if evs[|evs|-1].Resume? then 1 else 0
  }

  lemma TraceIsRun(run: seq<Entry>, evs: seq<Event>)
    requires IsTrace(run, evs)
    ensures IsRun(run)
  {
    forall i | 0 <= i < |run| - 1 ensures Next(run[i], run[i + 1]) {
      assert Step(run[i], evs[i]) == Some(run[i + 1]);
    }
  }

  /** Behind the end of a search: nobody joins, and each Resume lets one thread out. */
  lemma FinishedStep(e: Entry, ev: Event, e': Entry)
    requires Inv(e) && e.flag != Searching && Step(e, ev) == Some(e')
    ensures e'.flag == e.flag
    ensures e'.waiting + e'.released == e.waiting + e.released
    ensures e'.released == e.released + if ev.Resume? then 1 else 0
  {}

  lemma TraceInv(run: seq<Entry>, evs: seq<Event>, n: nat)
    requires IsTrace(run, evs) && n < |run|
    ensures Inv(run[n])
  {
    TraceIsRun(run, evs);
    RunInv(run, n);
  }

  lemma ResumesStep(evs: seq<Event>, a: nat, b: nat)
    requires a <= b < |evs|
    ensures Resumes(evs[a..b + 1]) == Resumes(evs[a..b]) + if evs[b].Resume? then 1 else 0
  {
    assert evs[a..b + 1][..b - a] == evs[a..b];
  }

  lemma {:induction false} FinishedRun(run: seq<Entry>, evs: seq<Event>, a: nat, b: nat)
    requires IsTrace(run, evs) && a <= b < |run| && run[a].flag != Searching
    ensures run[b].flag == run[a].flag
    ensures run[b].waiting + run[b].released == run[a].waiting + run[a].released
    ensures run[b].released == run[a].released + Resumes(evs[a..b])
  {
    if a == b {
      assert evs[a..b] == [];
    } else {
      FinishedRun(run, evs, a, b - 1);
      TraceInv(run, evs, b - 1);
      FinishedStep(run[b - 1], evs[b - 1], run[b]);
      ResumesStep(evs, a, b - 1);
    }
  }

  /** Whatever happens behind the end of a search, in any order and with late calls between:
      the outcome of the search stays, every thread counted in is still waiting or has been let
      out, each by one Resume, and as long as one waits the next Resume is possible. So when no
      Resume is possible any more, or as many have happened as threads waited, all are out. */
  lemma AllAreReleased(run: seq<Entry>, evs: seq<Event>, a: nat, b: nat)
    requires IsTrace(run, evs) && a <= b < |run| && run[a].flag != Searching
    ensures run[b].flag == run[a].flag
    ensures run[b].waiting == run[a].waiting - Resumes(evs[a..b]) >= 0
    ensures run[b].released == run[a].released + Resumes(evs[a..b])
    ensures run[b].waiting > 0 <==> forall creator :: Step(run[b], Resume(creator)).Some?
    ensures run[b].waiting == 0 <==> forall creator :: Step(run[b], Resume(creator)).None?
    ensures run[b].waiting == 0 ==> run[b].blocked == 0 && run[b].woken == 0
  {
    FinishedRun(run, evs, a, b);
    TraceInv(run, evs, b);
    assert Step(run[b], Resume(true)).Some? <==> run[b].waiting > 0;
  }

  // ---- Outcomes --------------------------------------------------------------------

  function Joined(evs: seq<Event>): nat {
    if evs == [] then 0 else Joined(evs[..|evs|-1]) + if evs[|evs|-1].WaitFor? then 1 else 0
  }

  lemma OutcomeStep(e: Entry, ev: Event, e': Entry)
    requires Step(e, ev) == Some(e')
    ensures ev.ReplyArrives? ==> e.flag == Searching && e'.flag == Found
    ensures ev.SearchEnds? ==> e.flag == Searching && e'.flag == GaveUp
    ensures !ev.ReplyArrives? && !ev.SearchEnds? ==> e'.flag == e.flag
    ensures e'.waiting + e'.released == e.waiting + e.released + if ev.WaitFor? then 1 else 0
  {}

  /** A search succeeds exactly when a reply arrives and fails exactly when it ends without one,
      and of those two at most one happens; every thread that has joined is waiting or out again. */
  lemma {:induction false} OutcomeExactly(run: seq<Entry>, evs: seq<Event>, n: nat)
    requires IsTrace(run, evs) && n < |run|
    ensures run[n].flag == Found <==> ReplyArrives in evs[..n]
    ensures run[n].flag == GaveUp <==> SearchEnds in evs[..n]
    ensures run[n].waiting + run[n].released == Joined(evs[..n])
  {
    if n == 0 {
    } else {
      OutcomeExactly(run, evs, n - 1);
      OutcomeStep(run[n - 1], evs[n - 1], run[n]);
      assert evs[..n] == evs[..n - 1] + [evs[n - 1]];
      assert evs[..n][..n - 1] == evs[..n - 1];
    }
  }

  /** An entry is destroyed in exactly these steps: the end of a failed search with nobody waiting,
      a later call with nobody waiting, and the last waiter on its way out, unless it is the thread
      that made the entry. */
  lemma DestroyedExactly(run: seq<Entry>, evs: seq<Event>, n: nat)
    requires IsTrace(run, evs) && n < |evs|
    ensures run[n + 1].freed <==> run[n + 1].flag == GaveUp && run[n + 1].waiting == 0
                                  && (evs[n] == SearchEnds || evs[n] == LateCall || evs[n] == Resume(false))
  {
    TraceInv(run, evs, n);
    assert Step(run[n], evs[n]) == Some(run[n + 1]);
  }

  /** Whatever ends the search, a later call, and each waiter on its way out wakes one of those who
      are left: a blocked one if there is one, otherwise the next one to block. */
  lemma OneIsWoken(e: Entry, ev: Event, e': Entry)
    requires Inv(e) && Step(e, ev) == Some(e') && !ev.WaitFor? && e'.waiting > 0
    ensures var woken := if ev.Resume? then e.woken - 1 else e.woken;
            if e.blocked > 0 then e'.blocked == e.blocked - 1 && e'.woken == woken + 1 && e'.tokens == e.tokens
            else e'.blocked == 0 && e'.woken == woken && e'.tokens == e.tokens + 1
  {}
}

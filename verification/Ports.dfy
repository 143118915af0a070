/** The rotating allocator of bound ports in minimsg.c. */
module Ports {
  import opened Options
  import Modular
  import Ring

  /** `cursor` is next_bound. `swept` counts the places the cursor has passed since the start. */
  datatype State = State(inUse: seq<bool>, cursor: nat, swept: nat)

  /** nextBound and the store into bound_ports are separate steps: another thread can run
      between them. A reservation alone does not put the number in use. */
  datatype Event = Reserve | Publish(port: nat) | Destroy(port: nat)

  predicate Free(used: bool) { !used }

  ghost predicate Ok(s: State) {
    s.inUse != [] && s.cursor == s.swept % |s.inUse|
  }

  predicate Possible(s: State, ev: Event) {
    match ev
    case Reserve => true
    case Publish(p) => p < |s.inUse|
    case Destroy(p) => p < |s.inUse|
  }

  /** The number nextBound returns, less BOUND_MIN. */
  function Reserved(s: State): Option<nat>
    requires s.cursor < |s.inUse|
  {
    Ring.Search(s.inUse, s.cursor, |s.inUse|, Free)
  }

  function Step(s: State, ev: Event): (s': State)
    requires s.cursor < |s.inUse| && Possible(s, ev)
    ensures |s'.inUse| == |s.inUse| && s'.cursor < |s.inUse|
  {
    match ev
    case Reserve => (
      match Reserved(s)
      case None => s
      case Some(i) => s.(cursor := (i + 1) % |s.inUse|, swept := s.swept + (i - s.cursor) % |s.inUse| + 1))
    case Publish(p) => s.(inUse := s.inUse[p := true])
    case Destroy(p) => s.(inUse := s.inUse[p := false])
  }

  /** miniport_create_bound, undisturbed: a reservation that is published. */
  function AfterCreate(s: State, p: nat): State
    requires s.cursor < |s.inUse| && p < |s.inUse|
  {
    Step(Step(s, Reserve), Publish(p))
  }

  // ---- One reservation --------------------------------------------------------------------

  /** The first free number in cyclic order from the cursor; none exactly when all are in use. */
  lemma ReservesFirstFree(s: State) returns (k: nat)
    requires s.cursor < |s.inUse|
    ensures Reserved(s).None? <==> forall p :: 0 <= p < |s.inUse| ==> s.inUse[p]
    ensures match Reserved(s)
            case None => true
            case Some(i) =>
              && k < |s.inUse| && i == Ring.Slot(s.cursor, k, |s.inUse|) && !s.inUse[i]
              && forall j: nat :: j < k ==> s.inUse[Ring.Slot(s.cursor, j, |s.inUse|)]
  {
    k := Ring.SearchIsFirst(s.inUse, s.cursor, |s.inUse|, Free);
    Ring.SearchFinds(s.inUse, s.cursor, Free);
    assert Reserved(s).None? <==> forall p :: 0 <= p < |s.inUse| ==> !Free(s.inUse[p]);
    if Reserved(s).Some? {
      forall j: nat | j < k ensures s.inUse[Ring.Slot(s.cursor, j, |s.inUse|)] {
        assert !Free(s.inUse[Ring.Slot(s.cursor, j, |s.inUse|)]);
      }
    }
  }

  lemma Distance(cursor: nat, k: nat, n: nat)
    requires n > 0 && cursor < n && k < n
    ensures (Ring.Slot(cursor, k, n) - cursor) % n == k
  {
    var i := Ring.Slot(cursor, k, n);
    var q := (cursor + k) / n;
    Modular.Unique(i - cursor, -q, k, n);
  }

  /** A reservation moves the sweep past numbers that are in use and ends with the free number
      it returns, within one turn. */
  lemma ReserveSweeps(s: State)
    requires Ok(s) && s.cursor < |s.inUse| && Reserved(s).Some?
    ensures var s' := Step(s, Reserve); var n := |s.inUse|;
            && Ok(s') && s.swept < s'.swept <= s.swept + n
            && (s'.swept - 1) % n == Reserved(s).value
            && forall x :: s.swept <= x < s'.swept - 1 ==> s.inUse[x % n]
  {
    var n := |s.inUse|;
    var s' := Step(s, Reserve);
    var k := ReservesFirstFree(s);
    Distance(s.cursor, k, n);
    Ring.SlotAt(s.swept, k, n);
    Modular.Advance(s.swept + k, n);
    forall x | s.swept <= x < s'.swept - 1 ensures s.inUse[x % n] {
      Ring.SlotAt(s.swept, x - s.swept, n);
      assert s.inUse[Ring.Slot(s.cursor, x - s.swept, n)];
    }
  }

  // ---- Runs ------------------------------------------------------------------------------------

  ghost predicate Next(s: State, ev: Event, s': State) {
    s.cursor < |s.inUse| && Possible(s, ev) && s' == Step(s, ev)
  }

  ghost predicate IsRun(run: seq<State>, evs: seq<Event>) {
    && |run| == |evs| + 1
    && run[0].inUse != [] && run[0].cursor == run[0].swept == 0
    && forall t :: 0 <= t < |evs| ==> Next(run[t], evs[t], run[t + 1])
  }

  lemma {:induction false} RunOk(run: seq<State>, evs: seq<Event>, t: nat)
    requires IsRun(run, evs) && t < |run|
    ensures Ok(run[t]) && |run[t].inUse| == |run[0].inUse| && run[t].cursor < |run[t].inUse|
  {
    if t == 0 {
      Modular.Unique(0, 0, 0, |run[0].inUse|);
    } else {
      RunOk(run, evs, t - 1);
      assert Next(run[t - 1], evs[t - 1], run[t]);
      if evs[t - 1] == Reserve && Reserved(run[t - 1]).Some? { ReserveSweeps(run[t - 1]); }
    }
  }

  ghost predicate Allocates(s: State, ev: Event, p: nat) {
    s.cursor < |s.inUse| && ev == Reserve && Reserved(s) == Some(p)
  }

  /** The step in which the sweep passes position x. */
  lemma {:induction false} PassedIn(run: seq<State>, evs: seq<Event>, a: nat, b: nat, x: int) returns (t: nat)
    requires IsRun(run, evs) && a <= b < |run| && run[a].swept <= x < run[b].swept
    ensures a <= t < b && run[t].swept <= x < run[t + 1].swept
  {
    if run[b - 1].swept <= x {
      t := b - 1;
    } else {
      t := PassedIn(run, evs, a, b - 1, x);
    }
  }

  lemma SameNumberApart(x: int, y: int, n: int)
    requires n > 0 && x < y && x % n == y % n
    ensures x + n <= y
  {
    if y < x + n { Modular.Distinct(x, y, n); }
  }

  /** In whatever order threads reserve, publish and destroy ports: between two allocations of
      the same number every other number is allocated, or seen in use. */
  lemma EveryOtherNumberComesFirst(run: seq<State>, evs: seq<Event>, a: nat, b: nat, p: nat, q: nat) returns (t: nat)
    requires IsRun(run, evs) && a < b < |evs| && q < |run[0].inUse| && q != p
    requires Allocates(run[a], evs[a], p) && Allocates(run[b], evs[b], p)
    ensures a < t <= b && |run[t].inUse| == |run[0].inUse|
    ensures Allocates(run[t], evs[t], q) || (evs[t] == Reserve && run[t].inUse[q])
  {
    var n := |run[0].inUse|;
    RunOk(run, evs, a);
    RunOk(run, evs, b);
    assert Next(run[a], evs[a], run[a + 1]) && Next(run[b], evs[b], run[b + 1]);
    ReserveSweeps(run[a]);
    ReserveSweeps(run[b]);
    SweptGrows(run, evs, a + 1, b);
    var from, to := run[a + 1].swept, run[b + 1].swept;
    SameNumberApart(from - 1, to - 1, n);
    var i := Modular.Covered(from, q, n);
    t := PassedIn(run, evs, a + 1, b + 1, from + i);
    RunOk(run, evs, t);
    assert Next(run[t], evs[t], run[t + 1]);
    ReserveSweeps(run[t]);
  }

  lemma {:induction false} SweptGrows(run: seq<State>, evs: seq<Event>, a: nat, b: nat)
    requires IsRun(run, evs) && a <= b < |run|
    ensures run[a].swept <= run[b].swept
  {
    if a == b {
    } else {
      SweptGrows(run, evs, a, b - 1);
      RunOk(run, evs, b - 1);
      assert Next(run[b - 1], evs[b - 1], run[b]);
    }
  }

  /** The gap between reserving and publishing: two reservations in a row return the same
      number exactly when every other number is in use. */
  lemma ReservedTwice(s: State, p: nat)
    requires Ok(s) && s.cursor < |s.inUse| && Reserved(s) == Some(p)
    ensures Reserved(Step(s, Reserve)) == Some(p) <==>
            forall q :: 0 <= q < |s.inUse| && q != p ==> s.inUse[q]
  {
    var n, s' := |s.inUse|, Step(s, Reserve);
    ReserveSweeps(s);
    var k := ReservesFirstFree(s);
    if Reserved(s') == Some(p) {
      ReserveSweeps(s');
      var s'' := Step(s', Reserve);
      SameNumberApart(s'.swept - 1, s''.swept - 1, n);
      forall q: nat | q < n && q != p ensures s.inUse[q] {
        var i := Modular.Covered(s'.swept, q, n);
        assert s'.inUse[(s'.swept + i) % n];
      }
    } else {
      var j := ReservesFirstFree(s');
      assert !s'.inUse[p];
    }
  }

  // ---- The tables of ports ------------------------------------------------------------------------

  const BOUND_MIN := 32768
  const UNBOUND_MIN := 0
  const UNBOUND_MAX := 32767

  datatype Port<A> = Unbound(number: int) | Bound(number: int, remote: A, remotePort: int)

  /** Fewer bound numbers than in the source are allowed; the unbound numbers are all there. */
  class PortTables<A> {
    const bound: array<Option<Port<A>>>
    const unbound: array<Option<Port<A>>>
    var nextBound: nat

    ghost predicate Valid()
      reads this, bound, unbound
    {
      && bound != unbound && nextBound < bound.Length && unbound.Length == UNBOUND_MAX - UNBOUND_MIN + 1
      && (forall i :: 0 <= i < bound.Length && bound[i].Some? ==>
            bound[i].value.Bound? && bound[i].value.number == BOUND_MIN + i)
      && (forall i :: 0 <= i < unbound.Length && unbound[i].Some? ==> unbound[i].value == Unbound(UNBOUND_MIN + i))
    }

    /** The allocator's view; the position of the sweep is not part of the program. */
    ghost function Current(): (s: State)
      reads this, bound
      ensures |s.inUse| == bound.Length && s.cursor == nextBound
    {
      State(seq(bound.Length, i requires 0 <= i < bound.Length reads bound => bound[i].Some?), nextBound, nextBound)
    }

    constructor (size: nat)
      requires size > 0
      ensures Valid() && fresh(bound) && fresh(unbound) && bound.Length == size && nextBound == 0
      ensures forall i :: 0 <= i < size ==> bound[i] == None
      ensures forall i :: 0 <= i < unbound.Length ==> unbound[i] == None
    {
      bound := new Option<Port<A>>[size](i => None);
      unbound := new Option<Port<A>>[UNBOUND_MAX - UNBOUND_MIN + 1](i => None);
      nextBound := 0;
    }

    method NextBound() returns (number: int)
      requires Valid()
      modifies `nextBound
      ensures Valid()
      ensures match Reserved(old(Current()))
              case None => number == -1 && nextBound == old(nextBound)
              case Some(p) => number == BOUND_MIN + p && nextBound == Step(old(Current()), Reserve).cursor
    {
      var size := bound.Length;
      ghost var s := Current();
      Modular.Unique(nextBound, 0, nextBound, size);
      for i := 0 to size
        invariant nextBound == s.cursor
        invariant Reserved(s) == Ring.Search(s.inUse, (i + nextBound) % size, size - i, Free)
      {
        if bound[(i + nextBound) % size].None? {
          var next := i + nextBound;
          Modular.Advance(next, size);
          nextBound := (next + 1) % size;
          return next % size + BOUND_MIN;
        }
        Modular.Advance(i + nextBound, size);
      }
      number := -1;
    }

    /** None for a bad argument or when all numbers are in use. */
    method CreateBound(remote: Option<A>, remotePort: int) returns (port: Option<Port<A>>)
      requires Valid()
      modifies `nextBound, bound
      ensures Valid()
      ensures port.None? <==> (remote.None? || !(UNBOUND_MIN <= remotePort <= UNBOUND_MAX) ||
                               forall i :: 0 <= i < bound.Length ==> old(bound[i]).Some?)
      ensures port.None? ==> bound[..] == old(bound[..]) && nextBound == old(nextBound)
      ensures port.Some? ==>
                && Reserved(old(Current())) == Some(port.value.number - BOUND_MIN)
                && port.value == Bound(port.value.number, remote.value, remotePort)
                && bound[..] == old(bound[..])[port.value.number - BOUND_MIN := port]
                && nextBound == (port.value.number - BOUND_MIN + 1) % bound.Length
                && Current().inUse == AfterCreate(old(Current()), port.value.number - BOUND_MIN).inUse
                && Current().cursor == AfterCreate(old(Current()), port.value.number - BOUND_MIN).cursor
    {
      if remotePort < UNBOUND_MIN || remotePort > UNBOUND_MAX || remote.None? { return None; }
      ghost var k := ReservesFirstFree(Current());
      assert forall i :: 0 <= i < bound.Length ==> Current().inUse[i] == bound[i].Some?;
      var number := NextBound();
      if number == -1 { return None; }
      port := Some(Bound(number, remote.value, remotePort));
      bound[number - BOUND_MIN] := port;
      assert Current().inUse == old(Current()).inUse[number - BOUND_MIN := true];
    }

    /** The port of this number, made on the first request; None for a number out of range. */
    method CreateUnbound(number: int) returns (port: Option<Port<A>>)
      requires Valid()
      modifies unbound
      ensures Valid()
      ensures port == if UNBOUND_MIN <= number <= UNBOUND_MAX then Some(Unbound(number)) else None
      ensures unbound[..] == if port.Some? then old(unbound[..])[number - UNBOUND_MIN := port] else old(unbound[..])
    {
      if number < UNBOUND_MIN || number > UNBOUND_MAX { return None; }
      port := unbound[number - UNBOUND_MIN];
      if port.None? {
        port := Some(Unbound(number));
        unbound[number - UNBOUND_MIN] := port;
      }
    }

    /** Frees the number of a port, bound or unbound; None stands for NULL. The number of a port
        handed out is within its table. */
    method Destroy(port: Option<Port<A>>)
      requires Valid()
      requires port.Some? && port.value.Unbound? ==> UNBOUND_MIN <= port.value.number <= UNBOUND_MAX
      requires port.Some? && port.value.Bound? ==> BOUND_MIN <= port.value.number < BOUND_MIN + bound.Length
      modifies bound, unbound
      ensures Valid() && nextBound == old(nextBound)
      ensures bound[..] == if port.Some? && port.value.Bound? then old(bound[..])[port.value.number - BOUND_MIN := None]
                           else old(bound[..])
      ensures unbound[..] == if port.Some? && port.value.Unbound? then
                               old(unbound[..])[port.value.number - UNBOUND_MIN := None]
                             else old(unbound[..])
      ensures Current() == if port.Some? && port.value.Bound? then
                             Step(old(Current()), Event.Destroy(port.value.number - BOUND_MIN))
                           else old(Current())
    {
      if port.Some? {
        if port.value.Unbound? {
          unbound[port.value.number - UNBOUND_MIN] := None;
        } else {
          bound[port.value.number - BOUND_MIN] := None;
          assert Current().inUse == old(Current()).inUse[port.value.number - BOUND_MIN := false];
        }
      }
      assert port.None? || port.value.Unbound? ==> Current().inUse == old(Current()).inUse;
    }
  }
}

/** Searching the slots of a ring one after the other from a given position. */
module Ring {
  import opened Options
  import Modular

  /** The first wanted slot among the `tries` slots from pos on. */
  function Search<T>(items: seq<T>, pos: nat, tries: nat, want: T -> bool): (r: Option<nat>)
    requires pos < |items|
    ensures r.Some? ==> r.value < |items| && want(items[r.value])
    decreases tries
  {
    if tries == 0 then None
    else if want(items[pos]) then Some(pos)
    else Search(items, (pos + 1) % |items|, tries - 1, want)
  }

  /** The slot k places behind pos. */
  function Slot(pos: nat, k: nat, n: nat): (slot: nat)
    requires n > 0
    ensures slot < n
  {
    (pos + k) % n
  }

  /** Counting on from a position that is not reduced gives the same slots. */
  lemma SlotAt(from: int, k: nat, n: nat)
    requires n > 0
    ensures Slot(from % n, k, n) == (from + k) % n
  {
    var x := from % n + k;
    Modular.Unique(from + k, from / n + x / n, x % n, n);
  }

  /** The successor of a slot as hashtable.c computes it. */
  lemma Successor(slot: nat, n: nat)
    requires slot < n
    ensures (slot + 1) % n == if slot == n - 1 then 0 else slot + 1
  {
    Modular.Advance(slot, n);
    Modular.Unique(slot, 0, slot, n);
  }

  ghost predicate NoneBefore<T>(items: seq<T>, pos: nat, k: nat, want: T -> bool)
    requires pos < |items|
  {
    forall j: nat :: j < k ==> !want(items[Slot(pos, j, |items|)])
  }

  lemma Shift(pos: nat, k: nat, n: nat)
    requires n > 0
    ensures Slot(Slot(pos, 1, n), k, n) == Slot(pos, k + 1, n)
  {
    var q := (pos + 1) / n;
    var x := (pos + 1) % n + k;
    assert pos + (k + 1) == x + q * n;
    Modular.Unique(pos + (k + 1), x / n + q, x % n, n);
  }

  lemma NoneShift<T>(items: seq<T>, pos: nat, k: nat, want: T -> bool)
    requires pos < |items| && !want(items[pos])
    requires NoneBefore(items, Slot(pos, 1, |items|), k, want)
    ensures NoneBefore(items, pos, k + 1, want)
  {
    forall j: nat | j < k + 1 ensures !want(items[Slot(pos, j, |items|)]) {
      if j == 0 {
        Modular.Unique(pos, 0, pos, |items|);
      } else {
        Shift(pos, j - 1, |items|);
        assert !want(items[Slot(Slot(pos, 1, |items|), j - 1, |items|)]);
      }
    }
  }

  /** The search returns the slot k places behind pos that is wanted while none of those
      before it is; it returns None when no slot within `tries` places is wanted. */
  lemma {:induction false} SearchIsFirst<T>(items: seq<T>, pos: nat, tries: nat, want: T -> bool) returns (k: nat)
    requires pos < |items|
    ensures match Search(items, pos, tries, want)
            case None => NoneBefore(items, pos, tries, want)
            case Some(i) => k < tries && i == Slot(pos, k, |items|) && want(items[i]) && NoneBefore(items, pos, k, want)
    decreases tries
  {
    k := 0;
    if tries == 0 {
    } else {
      Modular.Unique(pos, 0, pos, |items|);
      if !want(items[pos]) {
        var next := Slot(pos, 1, |items|);
        k := SearchIsFirst(items, next, tries - 1, want);
        if Search(items, next, tries - 1, want).Some? {
          NoneShift(items, pos, k, want);
          Shift(pos, k, |items|);
          k := k + 1;
        } else {
          NoneShift(items, pos, tries - 1, want);
        }
      }
    }
  }

  /** A search of the whole ring misses nothing. */
  lemma SearchFinds<T>(items: seq<T>, pos: nat, want: T -> bool)
    requires pos < |items|
    ensures Search(items, pos, |items|, want).None? <==> forall i :: 0 <= i < |items| ==> !want(items[i])
  {
    var k := SearchIsFirst(items, pos, |items|, want);
    if Search(items, pos, |items|, want).None? {
      forall i | 0 <= i < |items| ensures !want(items[i]) {
        var j := Modular.Covered(pos, i, |items|);
        assert !want(items[Slot(pos, j, |items|)]);
      }
    }
  }

  /** Within one turn no slot is visited twice. */
  lemma VisitedOnce(pos: nat, j: nat, k: nat, n: nat)
    requires n > 0 && j < k < n
    ensures Slot(pos, j, n) != Slot(pos, k, n)
  {
    Modular.Distinct(pos + j, pos + k, n);
  }
}

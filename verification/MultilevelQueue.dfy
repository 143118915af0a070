/** The multilevel queue of multilevel_queue.c: FIFO levels searched in a circle. */
module MultilevelQueue {
  import opened Options
  import Ring

  function Total<T>(levels: seq<seq<T>>): nat {
    if levels == [] then 0 else Total(levels[..|levels|-1]) + |levels[|levels|-1]|
  }

  predicate Nonempty<T>(queue: seq<T>) { queue != [] }

  /** The first nonempty level at or behind `level`, in the circle, within `tries` levels. */
  function Pick<T>(levels: seq<seq<T>>, level: nat, tries: nat): Option<nat>
    requires level < |levels|
  {
    Ring.Search(levels, level, tries, Nonempty)
  }

  function Append<T>(levels: seq<seq<T>>, level: nat, item: T): seq<seq<T>>
    requires level < |levels|
  {
    levels[level := levels[level] + [item]]
  }

  function Pop<T>(levels: seq<seq<T>>, level: nat): seq<seq<T>>
    requires level < |levels| && levels[level] != []
  {
    levels[level := levels[level][1..]]
  }

  lemma {:induction false} TotalUpdate<T>(levels: seq<seq<T>>, i: nat, l: seq<T>)
    requires i < |levels|
    ensures Total(levels[i := l]) == Total(levels) - |levels[i]| + |l|
  {
    var n := |levels| - 1;
    if i == n {
      assert levels[i := l][..n] == levels[..n];
    } else {
      TotalUpdate(levels[..n], i, l);
      assert levels[i := l][..n] == levels[..n][i := l];
    }
  }

  lemma {:induction false} TotalZero<T>(levels: seq<seq<T>>)
    ensures Total(levels) == 0 <==> forall i :: 0 <= i < |levels| ==> levels[i] == []
  {
    if levels == [] {
    } else {
      TotalZero(levels[..|levels|-1]);
    }
  }

  /** Pick returns the first nonempty level of the circle, k places behind `level`. */
  lemma PickIsFirst<T>(levels: seq<seq<T>>, level: nat, tries: nat) returns (k: nat)
    requires level < |levels|
    ensures match Pick(levels, level, tries)
            case None => forall j: nat :: j < tries ==> levels[Ring.Slot(level, j, |levels|)] == []
            case Some(l) =>
              && k < tries && l == Ring.Slot(level, k, |levels|) && levels[l] != []
              && forall j: nat :: j < k ==> levels[Ring.Slot(level, j, |levels|)] == []
  {
    k := Ring.SearchIsFirst(levels, level, tries, Nonempty);
  }

  lemma PickGoesOn<T>(levels: seq<seq<T>>, level: nat, tries: nat)
    requires level < |levels| && levels[level] == [] && Pick(levels, level, tries).Some?
    ensures tries > 0 && Pick(levels, level, tries) == Pick(levels, (level + 1) % |levels|, tries - 1)
  {}

  lemma PickHere<T>(levels: seq<seq<T>>, level: nat, tries: nat)
    requires level < |levels| && levels[level] != [] && Pick(levels, level, tries).Some?
    ensures Pick(levels, level, tries) == Some(level)
  {}

  /** As long as anything is queued, searching all levels finds it. */
  lemma PickFinds<T>(levels: seq<seq<T>>, level: nat)
    requires level < |levels|
    ensures match Pick(levels, level, |levels|)
            case None => Total(levels) == 0
            case Some(l) => Total(levels) > 0 && l < |levels| && levels[l] != []
    ensures levels[level] != [] ==> Pick(levels, level, |levels|) == Some(level)
  {
    Ring.SearchFinds(levels, level, Nonempty);
    TotalZero(levels);
    if Pick(levels, level, |levels|).None? {
      forall i | 0 <= i < |levels| ensures levels[i] == [] { assert !Nonempty(levels[i]); }
    }
  }

  class Queue<T> {
    var levels: seq<seq<T>>
    var size: int

    ghost predicate Valid()
      reads this
    {
      |levels| > 0 && size == Total(levels)
    }

    constructor (n: nat)
      requires n > 0
      ensures Valid() && |levels| == n && Total(levels) == 0
      ensures forall i :: 0 <= i < n ==> levels[i] == []
    {
      levels := seq(n, i => []);
      size := 0;
      new;
      TotalZero(levels);
    }

    /** Whether the item was appended; false for a level out of range. The test as coded lets one
        level too many through: for that one the C code uses a queue outside its array (None). */
    method Enqueue(level: int, item: T) returns (ok: Option<bool>)
      requires Valid()
      modifies this
      ensures Valid()
      ensures ok == if level == |old(levels)| then None else Some(0 <= level < |old(levels)|)
      ensures levels == if ok == Some(true) then Append(old(levels), level, item) else old(levels)
      ensures size == old(size) + if ok == Some(true) then 1 else 0
    {
      if level < 0 || level > |levels| { return Some(false); }
      if level == |levels| { return None; }
      TotalUpdate(levels, level, levels[level] + [item]);
      levels := levels[level := levels[level] + [item]];
      size := size + 1;
      ok := Some(true);
    }

    /** Takes the front of the first nonempty level from `level` on. */
    method Dequeue(level: nat) returns (from: int, item: Option<T>)
      requires Valid() && level < |levels|
      modifies this
      ensures Valid()
      ensures match Pick(old(levels), level, |old(levels)|)
              case None => from == -1 && item == None && levels == old(levels) && size == old(size) == 0
              case Some(l) =>
                && l < |old(levels)| && old(levels)[l] != []
                && from == l && item == Some(old(levels)[l][0])
                && levels == Pop(old(levels), l) && size == old(size) - 1
    {
      PickFinds(levels, level);
      if size == 0 { return -1, None; }
      var l: nat := level;
      ghost var tries: nat, found := |levels|, Pick(levels, level, |levels|);
      while levels[l] == []
        invariant levels == old(levels) && size == old(size)
        invariant l < |levels| && found.Some? && Pick(levels, l, tries) == found
        decreases tries
      {
        PickGoesOn(levels, l, tries);
        l := (l + 1) % |levels|;
        tries := tries - 1;
      }
      PickHere(levels, l, tries);
      item := Some(levels[l][0]);
      TotalUpdate(levels, l, levels[l][1..]);
      levels := levels[l := levels[l][1..]];
      size := size - 1;
      from := l;
    }
  }
}

/** What the prime pipeline computes, that every run ends, and that it never
    ends early: the results about every interleaving. */
module SieveResults {
  import opened Options
  import opened Primes
  import opened Sieve

  // ---- Safety --------------------------------------------------------------

  /** The streams the channels stand for: channel k carries the numbers that no
      printed prime before position k divides. */
  function Carried(s: State, k: nat): seq<int>
    requires k <= |s.printed|
  {
    Sift(s.printed[..k], Stream(s.max))
  }

  lemma {:induction false} ChannelsCarry(s: State, k: nat)
    requires Inv(s) && k <= |s.filters|
    ensures s.chans[k].wrote <= Carried(s, k)
  {
    if k == 0 {
      assert s.chans[0].wrote <= Stream(s.max) by {
        NumbersPrefix(2, s.source.i, s.max);
        NumbersPrefix(2, s.source.i - 1, s.max);
      }
    } else {
      ChannelsCarry(s, k - 1);
      assert FilterAt(s, k - 1);
      var left, p := s.chans[k - 1], s.filters[k - 1].prime;
      FilterOutPrefix(p, left.wrote[..left.taken], Carried(s, k - 1));
      assert s.printed[..k][..k - 1] == s.printed[..k - 1];
      assert s.printed[..k][k - 1] == p;
    }
  }

  lemma NumbersPrefix(lo: int, hi: int, max: int)
    ensures hi <= max ==> Numbers(lo, hi) <= Numbers(lo, max)
  {}

  /** A printed value heads the stream of its channel. */
  lemma PrintedHeadsStream(s: State, k: nat)
    requires Inv(s) && k < |s.printed|
    ensures Carried(s, k) != [] && s.printed[k] == Carried(s, k)[0] != END
  {
    ChannelsCarry(s, k);
    if k < |s.filters| { assert FilterAt(s, k); } else { assert ChannelAt(s, k); }
  }

  /** The first k printed values are the first k primes. */
  lemma {:induction false} PrintedArePrimes(s: State, k: nat)
    requires Inv(s) && k <= |s.printed|
    ensures s.printed[..k] == PrimesUpTo(Largest(s, k))
    ensures 1 <= Largest(s, k) && (k > 0 ==> Largest(s, k) <= s.max)
  {
    if k == 0 {
    } else {
      PrintedArePrimes(s, k - 1);
      PrintedHeadsStream(s, k - 1);
      HeadIsNextPrime(Largest(s, k - 1), s.max);
      assert s.printed[..k] == s.printed[..k - 1] + [s.printed[k - 1]];
    }
  }

  function Largest(s: State, k: nat): int
    requires k <= |s.printed|
  {
    if k == 0 then 1 else s.printed[k - 1]
  }

  lemma {:induction false} PrimesUpToGrows(a: int, b: int)
    requires a <= b
    ensures PrimesUpTo(a) <= PrimesUpTo(b)
    decreases b - a
  {
    if a == b {
    } else {
      PrimesUpToGrows(a, b - 1);
    }
  }

  /** For every max and every interleaving: the output is a prefix of the ascending primes. */
  lemma OutputIsPrefixOfPrimes(max: int, run: seq<State>, n: nat)
    requires IsRun(max, run) && n < |run|
    ensures run[n].printed <= PrimesUpTo(max)
  {
    RunInv(max, run, n);
    InvOutput(run[n]);
  }

  lemma InvOutput(s: State)
    requires Inv(s)
    ensures s.printed <= PrimesUpTo(s.max)
  {
    var k := |s.printed|;
    PrintedArePrimes(s, k);
    assert s.printed[..k] == s.printed;
    if k == 0 { } else { PrimesUpToGrows(Largest(s, k), s.max); }
  }

  /** For every interleaving: channel k has carried a prefix of the numbers 2..max that
      none of the first k printed primes divides, followed by the end marker; the
      values read are a prefix of the values stored. */
  lemma ChannelContents(max: int, run: seq<State>, n: nat, k: nat, v: int)
    requires IsRun(max, run) && n < |run| && k < |run[n].chans|
    ensures var c := run[n].chans[k];
            && c.taken <= |c.wrote|
            && k <= |run[n].printed|
            && c.wrote <= Carried(run[n], k)
    ensures v in Carried(run[n], k) <==>
            v == END || (2 <= v <= max && forall j :: 0 <= j < k ==> !Divides(run[n].printed[j], v))
  {
    RunInv(max, run, n);
    var s := run[n];
    ChannelsCarry(s, k);
    assert ChannelAt(s, k);
    SiftMembers(s.printed[..k], max, v);
  }

  /** What a step may do to a channel: store behind what has been read, or read the next value. */
  ghost predicate Handled(c: Channel, c': Channel) {
    && c.wrote <= c'.wrote
    && (c'.wrote != c.wrote ==> c.taken == |c.wrote| && |c'.wrote| == |c.wrote| + 1)
    && (c'.value != c.value ==> c'.wrote != c.wrote)
    && (c'.taken != c.taken ==> c'.taken == c.taken + 1 <= |c.wrote| && c.value == c.wrote[c.taken])
  }

  /** No store hits an unread value, and what is read is the next value stored. */
  lemma NoOverwrite(max: int, run: seq<State>, n: nat, k: nat)
    requires IsRun(max, run) && n + 1 < |run| && k < |run[n].chans|
    ensures k < |run[n + 1].chans| && Handled(run[n].chans[k], run[n + 1].chans[k])
  {
    RunInv(max, run, n);
    assert NextAt(run, n);
    NextOnChannel(run[n], run[n + 1], k);
  }

  lemma SourceHandles(src: Source, c: Channel, max: int, reading: bool, holds: bool)
    requires ChannelOk(c, SourceStored(src), SourceGave(src), reading, holds) && SourceStep(src, c, max).Some?
    ensures Handled(c, SourceStep(src, c, max).value.1)
  {}

  lemma FilterHandles(f: Filter, left: Channel, right: Channel, stored: bool, gave: bool, reading: bool, holds: bool)
    requires ChannelOk(left, stored, gave, f.pc == FltRead, f.pc == FltRelease)
    requires ChannelOk(right, f.pc == FltSignal, f.pc == FltAwait, reading, holds)
    requires FilterStep(f, left, right).Some?
    ensures Handled(left, FilterStep(f, left, right).value.1) && Handled(right, FilterStep(f, left, right).value.2)
  {}

  lemma SinkHandles(snk: Sink, c: Channel, stored: bool, gave: bool)
    requires ChannelOk(c, stored, gave, snk.pc == SnkRead, snk.pc == SnkRelease) && SinkStep(snk, c).Some?
    ensures Handled(c, SinkStep(snk, c).value.1)
  {}

  lemma StepOnChannel(s: State, t: Thread, k: nat)
    requires Inv(s) && Step(s, t).Some? && k < |s.chans|
    ensures k < |Step(s, t).value.chans|
    ensures Handled(s.chans[k], Step(s, t).value.chans[k])
  {
    assert ChannelAt(s, k);
    match t
    case SourceThread =>
      if k == 0 { SourceHandles(s.source, s.chans[0], s.max, Reads(s, 0), Holds(s, 0)); }
    case FilterThread(j) => FilterOnChannel(s, j, k);
    case SinkThread =>
      if k == |s.filters| {
        SinkThreadHere(s);
        SinkHandles(s.sink, s.chans[k], Stored(s, k), Gave(s, k));
      }
  }

  lemma NextOnChannel(s: State, s': State, k: nat)
    requires Inv(s) && Next(s, s') && k < |s.chans|
    ensures k < |s'.chans| && Handled(s.chans[k], s'.chans[k])
  {
    var t :| Step(s, t) == Some(s');
    StepOnChannel(s, t, k);
  }

  lemma FilterOnChannel(s: State, j: nat, k: nat)
    requires Inv(s) && Step(s, FilterThread(j)).Some? && k < |s.chans|
    ensures k < |Step(s, FilterThread(j)).value.chans|
    ensures Handled(s.chans[k], Step(s, FilterThread(j)).value.chans[k])
  {
    FilterThreadShape(s, j);
    if k == j || k == j + 1 {
      assert ChannelAt(s, j) && ChannelAt(s, j + 1);
      FilterHandles(s.filters[j], s.chans[j], s.chans[j + 1],
                    Stored(s, j), Gave(s, j), Reads(s, j + 1), Holds(s, j + 1));
    }
  }

  // ---- Termination ------------------------------------------------------------

  function SourceRank(src: Source): nat {
    match src.pc
    case SrcStore => 0
    case SrcSignal => 2
    case SrcAwait => 1
    case SrcStoreEnd => 0
    case SrcSignalEnd => 1
    case SrcDone => 0
  }

  function FilterRank(f: Filter): nat {
    match f.pc
    case FltRelease => 7
    case FltStore => 5
    case FltSignal => 4
    case FltAwait => 3
    case FltWait => 2
    case FltRead => 1
    case FltDone => 0
  }

  function SinkRank(snk: Sink): nat {
    match snk.pc
    case SnkWait => 5
    case SnkRead => 4
    case SnkRelease => 3
    case SnkPrint => 2
    case SnkFork => 1
    case SnkDone => 0
  }

  /** Steps left for the first n filters when every stream has at most `all` values. */
  function FilterWork(s: State, n: nat, all: int): int
    requires WellFormed(s) && n <= |s.filters|
  {
    if n == 0 then 0
    else FilterWork(s, n - 1, all) + 7 * (all - s.chans[n - 1].taken) + FilterRank(s.filters[n - 1])
  }

  /** Undelivered values and thread positions, with a reserve for each filter still to be forked. */
  function Measure(s: State): int
    requires WellFormed(s)
  {
    var all := |Stream(s.max)|;
    3 * (all - |s.chans[0].wrote|) + SourceRank(s.source)
    + FilterWork(s, |s.filters|, all)
    + (all - |s.filters|) * (7 * all + 7) + SinkRank(s.sink)
  }

  lemma {:induction false} FilterWorkChange(s: State, s': State, n: nat, k: nat, all: int)
    requires WellFormed(s) && WellFormed(s') && n <= |s.filters| && n <= |s'.filters|
    requires forall j :: 0 <= j < n && j != k ==> s'.filters[j] == s.filters[j] && s'.chans[j].taken == s.chans[j].taken
    ensures FilterWork(s', n, all) - FilterWork(s, n, all) ==
            if k < n then
              7 * (s.chans[k].taken - s'.chans[k].taken) + FilterRank(s'.filters[k]) - FilterRank(s.filters[k])
            else 0
  {
    if n == 0 {
    } else {
      FilterWorkChange(s, s', n - 1, k, all);
    }
  }

  lemma {:induction false} FilterWorkNonNegative(s: State, n: nat, all: int)
    requires WellFormed(s) && n <= |s.filters|
    requires forall j :: 0 <= j < n ==> s.chans[j].taken <= all
    ensures FilterWork(s, n, all) >= 0
  {
    if n == 0 {
    } else {
      FilterWorkNonNegative(s, n - 1, all);
    }
  }

  lemma {:induction false} PrimesUpToSize(n: int)
    ensures |PrimesUpTo(n)| <= |Numbers(2, n)|
    decreases if n < 2 then 0 else n
  {
    if n >= 2 { PrimesUpToSize(n - 1); }
  }

  lemma ChannelBound(s: State, k: nat)
    requires Inv(s) && k <= |s.filters|
    ensures s.chans[k].taken <= |s.chans[k].wrote| <= |Stream(s.max)|
  {
    ChannelsCarry(s, k);
    SiftLength(s.printed[..k], s.max);
    assert ChannelAt(s, k);
  }

  lemma FilterBound(s: State)
    requires Inv(s)
    ensures |s.filters| < |Stream(s.max)|
  {
    InvOutput(s);
    PrimesUpToSize(s.max);
  }

  lemma NonNegativeProduct(a: int, b: int)
    requires a >= 0 && b >= 0
    ensures a * b >= 0
  {}

  lemma Bounds(s: State)
    requires Inv(s)
    ensures Measure(s) >= 0
  {
    var all := |Stream(s.max)|;
    FilterBound(s);
    forall k: nat | k <= |s.filters| ensures s.chans[k].taken <= |s.chans[k].wrote| <= all {
      ChannelBound(s, k);
    }
    FilterWorkNonNegative(s, |s.filters|, all);
    NonNegativeProduct(all - |s.filters|, 7 * all + 7);
  }

  lemma SourceStepLowers(s: State)
    requires Inv(s) && Step(s, SourceThread).Some?
    ensures Measure(Step(s, SourceThread).value) < Measure(s)
  {
    FilterWorkChange(s, Step(s, SourceThread).value, |s.filters|, |s.filters|, |Stream(s.max)|);
  }

  lemma FilterStepLowers(s: State, k: nat)
    requires Inv(s) && Step(s, FilterThread(k)).Some?
    ensures Measure(Step(s, FilterThread(k)).value) < Measure(s)
  {
    var s' := Step(s, FilterThread(k)).value;
    FilterThreadShape(s, k);
    FilterWorkChange(s, s', |s.filters|, k, |Stream(s.max)|);
  }

  /** The fork uses up the reserve of one filter. */
  lemma ForkLowers(s: State)
    requires Inv(s) && s.sink.pc == SnkFork
    ensures Step(s, SinkThread).Some? && Measure(Step(s, SinkThread).value) < Measure(s)
  {
    var s' := Step(s, SinkThread).value;
    var n, all := |s.filters|, |Stream(s.max)|;
    FilterWorkChange(s, s', n, n, all);
    assert s'.chans[n].taken == 1;
    assert FilterWork(s', n + 1, all) == FilterWork(s', n, all) + 7 * (all - 1) + 2;
    assert (all - n - 1) * (7 * all + 7) == (all - n) * (7 * all + 7) - (7 * all + 7);
  }

  lemma SinkStepLowers(s: State)
    requires Inv(s) && Step(s, SinkThread).Some?
    ensures Measure(Step(s, SinkThread).value) < Measure(s)
  {
    if s.sink.pc == SnkFork {
      ForkLowers(s);
    } else {
      FilterWorkChange(s, Step(s, SinkThread).value, |s.filters|, |s.filters|, |Stream(s.max)|);
    }
  }

  /** Every step of every thread lowers the measure. */
  lemma StepLowersMeasure(s: State, t: Thread)
    requires Inv(s) && Step(s, t).Some?
    ensures 0 <= Measure(Step(s, t).value) < Measure(s)
  {
    StepKeepsInv(s, t);
    Bounds(Step(s, t).value);
    match t
    case SourceThread => SourceStepLowers(s);
    case FilterThread(k) => FilterStepLowers(s, k);
    case SinkThread => SinkStepLowers(s);
  }

  lemma NextLowersMeasure(s: State, s': State)
    requires Inv(s) && Next(s, s')
    ensures WellFormed(s') && 0 <= Measure(s') < Measure(s)
  {
    var t :| Step(s, t) == Some(s');
    StepKeepsInv(s, t);
    StepLowersMeasure(s, t);
  }

  lemma {:induction false} RunLength(max: int, run: seq<State>, n: nat)
    requires IsRun(max, run) && n < |run|
    ensures WellFormed(run[n]) && Measure(run[n]) + n <= Measure(Init(max))
  {
    if n == 0 {
    } else {
      RunLength(max, run, n - 1);
      RunInv(max, run, n - 1);
      assert NextAt(run, n - 1);
      NextLowersMeasure(run[n - 1], run[n]);
    }
  }

  /** Every run is finite: its length is bounded by a number that depends on max alone. */
  lemma RunsAreFinite(max: int, run: seq<State>)
    requires IsRun(max, run)
    ensures |run| <= Measure(Init(max)) + 1
  {
    RunLength(max, run, |run| - 1);
    RunInv(max, run, |run| - 1);
    Bounds(run[|run| - 1]);
  }

  // ---- Freedom from deadlock ------------------------------------------------------

  lemma StuckThread(s: State, t: Thread)
    requires WellFormed(s) && Stuck(s)
    ensures Step(s, t) == None
  {
    assert !CanStep(s, t);
  }

  lemma StuckReader(s: State, k: nat)
    requires Inv(s) && Stuck(s) && k <= |s.filters|
    ensures !Reads(s, k) && !Holds(s, k)
  {
    StuckThread(s, if k < |s.filters| then FilterThread(k) else SinkThread);
  }

  /** A blocked filter whose right channel is not full waits for its left one, or has returned. */
  lemma StuckFilter(f: Filter, left: Channel, right: Channel)
    requires FilterStep(f, left, right).None? && right.consume == 0
    requires ChannelOk(right, f.pc == FltSignal, f.pc == FltAwait, false, false)
    ensures f.pc == FltDone || (f.pc == FltWait && left.consume == 0)
  {}

  /** After the end marker a channel is not full. */
  lemma EndedChannelNotFull(s: State, k: nat)
    requires Inv(s) && k <= |s.filters| && !Reads(s, k)
    requires if k < |s.filters| then s.filters[k].pc == FltDone else s.sink.pc == SnkDone
    ensures s.chans[k].consume == 0
  {
    if k < |s.filters| { assert FilterAt(s, k); }
    EndIsLast(s, k);
    assert ChannelAt(s, k);
  }

  lemma StuckFilterAt(s: State, k: nat)
    requires Inv(s) && Stuck(s) && k < |s.filters| && s.chans[k + 1].consume == 0
    ensures s.filters[k].pc == FltDone || (s.filters[k].pc == FltWait && s.chans[k].consume == 0)
  {
    StuckThread(s, FilterThread(k));
    StuckReader(s, k + 1);
    assert ChannelAt(s, k + 1);
    StuckFilter(s.filters[k], s.chans[k], s.chans[k + 1]);
  }

  /** When nothing can move, the reader of a full channel would have to be a filter
      waiting further down, so no channel is full. */
  lemma {:induction false} StuckChannelNotFull(s: State, k: nat)
    requires Inv(s) && Stuck(s) && k <= |s.filters|
    ensures s.chans[k].consume == 0
    decreases |s.filters| - k
  {
    if k == |s.filters| {
      StuckThread(s, SinkThread);
      if s.sink.pc == SnkDone { EndedChannelNotFull(s, k); }
    } else {
      StuckChannelNotFull(s, k + 1);
      StuckFilterAt(s, k);
      if s.filters[k].pc == FltDone { EndedChannelNotFull(s, k); }
    }
  }

  /** So nobody waits for a slot to be released, and everything stored has been read. */
  lemma StuckSlots(s: State, k: nat)
    requires Inv(s) && Stuck(s) && k <= |s.filters|
    ensures if k == 0 then s.source.pc == SrcDone else s.filters[k - 1].pc == FltWait || s.filters[k - 1].pc == FltDone
    ensures s.chans[k].taken == |s.chans[k].wrote|
  {
    StuckChannelNotFull(s, k);
    StuckReader(s, k);
    assert ChannelAt(s, k);
    StuckThread(s, if k == 0 then SourceThread else FilterThread(k - 1));
  }

  /** Nothing follows the end marker on a channel. */
  lemma EndIsLast(s: State, k: nat)
    requires Inv(s) && k <= |s.filters| && s.chans[k].taken > 0
    requires s.chans[k].taken <= |s.chans[k].wrote| && s.chans[k].wrote[s.chans[k].taken - 1] == END
    ensures s.chans[k].taken == |s.chans[k].wrote| && s.chans[k].wrote == Carried(s, k)
  {
    ChannelsCarry(s, k);
    SiftShape(s.printed[..k], s.max);
  }

  ghost predicate WriterReturned(s: State, k: nat)
    requires k <= |s.filters|
  {
    if k == 0 then s.source.pc == SrcDone else s.filters[k - 1].pc == FltDone
  }

  /** A filter that has read a whole stream has returned, and has passed on the stream filtered. */
  lemma WholeStreamFiltered(f: Filter, left: Channel, right: Channel)
    requires FilterOk(f, left, right) && (f.pc == FltWait || f.pc == FltDone)
    requires left.taken == |left.wrote| && left.wrote[left.taken - 1] == END
    ensures f.pc == FltDone && right.wrote == FilterOut(f.prime, left.wrote)
  {
    assert left.wrote[..left.taken] == left.wrote;
    assert right.wrote + Pending(f) == right.wrote;
    assert END in left.wrote[..left.taken];
  }

  lemma CarriedStep(s: State, k: nat)
    requires Inv(s) && k < |s.filters|
    ensures k + 1 <= |s.printed| && Carried(s, k + 1) == FilterOut(s.filters[k].prime, Carried(s, k))
  {
    assert s.printed[..k + 1][..k] == s.printed[..k] && s.printed[..k + 1][k] == s.printed[k];
  }

  lemma CarriedEnds(s: State, k: nat)
    requires k <= |s.printed|
    ensures Carried(s, k) != [] && Carried(s, k)[|Carried(s, k)| - 1] == END
  {
    SiftShape(s.printed[..k], s.max);
  }

  /** When nothing can move, the threads have returned one after the other. */
  lemma {:induction false} StuckWriterDone(s: State, k: nat)
    requires Inv(s) && Stuck(s) && k <= |s.filters|
    ensures WriterReturned(s, k)
    ensures s.chans[k].wrote == Carried(s, k)
  {
    StuckSlots(s, k);
    if k == 0 {
      assert s.printed[..0] == [];
    } else {
      StuckWriterDone(s, k - 1);
      StuckSlots(s, k - 1);
      assert FilterAt(s, k - 1);
      CarriedEnds(s, k - 1);
      WholeStreamFiltered(s.filters[k - 1], s.chans[k - 1], s.chans[k]);
      CarriedStep(s, k - 1);
    }
  }

  /** A state in which no thread can step is one where all have returned and the
      output is exactly the primes up to max. */
  lemma StuckIsFinished(max: int, run: seq<State>)
    requires IsRun(max, run)
    requires Stuck(run[|run| - 1])
    ensures AllReturned(run[|run| - 1])
    ensures run[|run| - 1].printed == PrimesUpTo(max)
  {
    RunInv(max, run, |run| - 1);
    StuckOutput(run[|run| - 1]);
  }

  lemma StuckOutput(s: State)
    requires Inv(s) && Stuck(s)
    ensures AllReturned(s) && s.printed == PrimesUpTo(s.max)
  {
    var n := |s.filters|;
    forall k: nat | k <= n ensures WriterReturned(s, k) {
      StuckWriterDone(s, k);
    }
    assert WriterReturned(s, 0);
    forall k | 0 <= k < n ensures s.filters[k].pc == FltDone { assert WriterReturned(s, k + 1); }
    StuckWriterDone(s, n);
    StuckSlots(s, n);
    StuckThread(s, SinkThread);
    SiftLength(s.printed[..n], s.max);
    PrintedArePrimes(s, n);
    assert s.printed[..n] == s.printed;
    NothingLeft(Largest(s, n), s.max);
  }

  // ---- The program ------------------------------------------------------------------

  /** The running program: the shared channels and every thread's position and locals. */
  class Pipeline {
    var max: int
    var chans: seq<Channel>
    var source: Source
    var filters: seq<Filter>
    var sink: Sink
    var printed: seq<int>

    function Current(): State
      reads this
    {
      State(max, chans, source, filters, sink, printed)
    }

    constructor (max: int)
      ensures Current() == Init(max)
    {
      this.max := max;
      chans := [NEW_CHANNEL];
      source := Source(if 2 <= max then SrcStore else SrcStoreEnd, 2);
      filters := [];
      sink := Sink(SnkWait, 0);
      printed := [];
    }

    method RunSource() returns (moved: bool)
      requires WellFormed(Current())
      modifies this
      ensures moved == Step(old(Current()), SourceThread).Some?
      ensures Current() == if moved then Step(old(Current()), SourceThread).value else old(Current())
    {
      var c := chans[0];
      moved := true;
      match source.pc {
        case SrcStore =>
          chans := chans[0 := c.(value := source.i, wrote := c.wrote + [source.i])];
          source := source.(pc := SrcSignal);
        case SrcSignal =>
          chans := chans[0 := c.(consume := c.consume + 1)];
          source := source.(pc := SrcAwait);
        case SrcAwait =>
          if c.produce == 0 { return false; }
          chans := chans[0 := c.(produce := c.produce - 1)];
          source := source.(i := source.i + 1);
          source := source.(pc := if source.i <= max then SrcStore else SrcStoreEnd);
        case SrcStoreEnd =>
          chans := chans[0 := c.(value := -1, wrote := c.wrote + [-1])];
          source := source.(pc := SrcSignalEnd);
        case SrcSignalEnd =>
          chans := chans[0 := c.(consume := c.consume + 1)];
          source := source.(pc := SrcDone);
        case SrcDone =>
          moved := false;
      }
    }

    method RunFilter(k: nat) returns (moved: bool)
      requires WellFormed(Current()) && k < |filters| && filters[k].prime != 0
      modifies this
      ensures moved == Step(old(Current()), FilterThread(k)).Some?
      ensures Current() == if moved then Step(old(Current()), FilterThread(k)).value else old(Current())
    {
      var f, left, right := filters[k], chans[k], chans[k + 1];
      moved := true;
      match f.pc {
        case FltWait =>
          if left.consume == 0 { return false; }
          left, f := left.(consume := left.consume - 1), f.(pc := FltRead);
        case FltRead =>
          f := f.(value := left.value, pc := FltRelease);
          left := left.(taken := left.taken + 1);
        case FltRelease =>
          left := left.(produce := left.produce + 1);
          f := f.(pc := if f.value == -1 || f.value % f.prime != 0 then FltStore else FltWait);
        case FltStore =>
          right := right.(value := f.value, wrote := right.wrote + [f.value]);
          f := f.(pc := FltSignal);
        case FltSignal =>
          right, f := right.(consume := right.consume + 1), f.(pc := FltAwait);
        case FltAwait =>
          if right.produce == 0 { return false; }
          right, f := right.(produce := right.produce - 1), f.(pc := if f.value == -1 then FltDone else FltWait);
        case FltDone =>
          return false;
      }
      filters, chans := filters[k := f], chans[k := left][k + 1 := right];
    }

    method RunSink() returns (moved: bool)
      requires WellFormed(Current())
      modifies this
      ensures moved == Step(old(Current()), SinkThread).Some?
      ensures Current() == if moved then Step(old(Current()), SinkThread).value else old(Current())
    {
      var p := |filters|;
      var c := chans[p];
      moved := true;
      match sink.pc {
        case SnkWait =>
          if c.consume == 0 { return false; }
          chans, sink := chans[p := c.(consume := c.consume - 1)], sink.(pc := SnkRead);
        case SnkRead =>
          chans, sink := chans[p := c.(taken := c.taken + 1)], Sink(SnkRelease, c.value);
        case SnkRelease =>
          chans := chans[p := c.(produce := c.produce + 1)];
          sink := sink.(pc := if sink.value == -1 then SnkDone else SnkPrint);
        case SnkPrint =>
          printed, sink := printed + [sink.value], sink.(pc := SnkFork);
        case SnkFork =>
          chans := chans + [NEW_CHANNEL];
          filters := filters + [Filter(FltWait, sink.value, 0)];
          sink := sink.(pc := SnkWait);
        case SnkDone =>
          moved := false;
      }
    }

    /** Runs thread number t: 0 is the source, 1 the sink, the others are filters. */
    method RunThread(t: nat) returns (moved: bool)
      requires WellFormed(Current())
      requires forall k :: 0 <= k < |filters| ==> filters[k].prime != 0
      modifies this
      ensures moved == Step(old(Current()), Numbered(t)).Some?
      ensures Current() == if moved then Step(old(Current()), Numbered(t)).value else old(Current())
    {
      if t == 0 {
        moved := RunSource();
      } else if t == 1 {
        moved := RunSink();
      } else if t - 2 < |filters| {
        moved := RunFilter(t - 2);
      } else {
        moved := false;
      }
    }

    /** Runs thread t or, if that one is blocked, the first thread that can move. */
    method RunSome(t: nat) returns (moved: bool)
      requires Inv(Current())
      modifies this
      ensures moved ==> exists v :: Step(old(Current()), v) == Some(Current())
      ensures !moved ==> Current() == old(Current()) && Stuck(Current())
    {
      ghost var before := Current();
      forall k: nat | k < |filters| ensures filters[k].prime != 0 { assert FilterAt(before, k); }
      moved := RunThread(t);
      var u := 0;
      while !moved && u < |filters| + 2
        invariant u <= |filters| + 2
        invariant !moved ==> Current() == before && forall v: nat :: v < u ==> Step(before, Numbered(v)) == None
        invariant moved ==> exists v :: Step(before, v) == Some(Current())
      {
        moved := RunThread(u);
        u := u + 1;
      }
      if !moved { AllNumbered(before); }
    }

    /** The whole program under an arbitrary scheduler, which names a thread in each round. */
    method Run(schedule: (nat, State) -> nat)
      requires Inv(Current())
      modifies this
      ensures max == old(max)
      ensures AllReturned(Current())
      ensures printed == PrimesUpTo(max)
    {
      var round := 0;
      var running := true;
      while running
        invariant Inv(Current()) && max == old(max)
        invariant !running ==> Stuck(Current())
        decreases running, Measure(Current())
      {
        Bounds(Current());
        ghost var before := Current();
        var t := schedule(round, Current());
        running := RunSome(t);
        if running {
          ghost var v :| Step(before, v) == Some(Current());
          StepKeepsInv(before, v);
          StepLowersMeasure(before, v);
        }
        round := round + 1;
      }
      StuckOutput(Current());
    }
  }

  function Numbered(t: nat): Thread {
    if t == 0 then SourceThread else if t == 1 then SinkThread else FilterThread(t - 2)
  }

  lemma AllNumbered(s: State)
    requires WellFormed(s)
    requires forall v: nat :: v < |s.filters| + 2 ==> Step(s, Numbered(v)) == None
    ensures Stuck(s)
  {
    forall t ensures !CanStep(s, t) {
      match t
      case SourceThread => assert Numbered(0) == t;
      case SinkThread => assert Numbered(1) == t;
      case FilterThread(k) => if k < |s.filters| { assert Numbered(k + 2) == t; }
    }
  }
}

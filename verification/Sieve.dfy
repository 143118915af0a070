/** The concurrent prime pipeline of sieve.c: a source, a growing chain of
    filters and a sink, joined by one-slot channels with two semaphores each.

    A step of a thread is one semaphore operation or one access to a shared
    field. A semaphore is its number of tokens: P takes one and is blocked while
    there is none (module Synch shows that the counter and wait queue of synch.c
    release exactly these calls). */
module Sieve {
  import opened Options
  import opened Primes

  /** A channel. `wrote` and `taken` record its history: every value stored so
      far, and how many of them have been read. */
  datatype Channel = Channel(value: int, consume: nat, produce: nat, wrote: seq<int>, taken: nat)

  const NEW_CHANNEL := Channel(0, 0, 0, [], 0)

  datatype SourcePc = SrcStore | SrcSignal | SrcAwait | SrcStoreEnd | SrcSignalEnd | SrcDone
  datatype FilterPc = FltWait | FltRead | FltRelease | FltStore | FltSignal | FltAwait | FltDone
  datatype SinkPc = SnkWait | SnkRead | SnkRelease | SnkPrint | SnkFork | SnkDone

  datatype Source = Source(pc: SourcePc, i: int)
  datatype Filter = Filter(pc: FilterPc, prime: int, value: int)
  datatype Sink = Sink(pc: SinkPc, value: int)

  /** Filter k reads channel k and writes channel k+1; the sink reads the last one. */
  datatype State = State(max: int, chans: seq<Channel>, source: Source, filters: seq<Filter>,
                         sink: Sink, printed: seq<int>)

  datatype Thread = SourceThread | FilterThread(k: nat) | SinkThread

  predicate WellFormed(s: State) {
    |s.chans| == |s.filters| + 1
  }

  // ---- Steps --------------------------------------------------------------

  function Store(c: Channel, v: int): Channel {
    c.(value := v, wrote := c.wrote + [v])
  }

  function LoopTest(i: int, max: int): SourcePc {
    if i <= max then SrcStore else SrcStoreEnd
  }

  function SourceStep(src: Source, c: Channel, max: int): Option<(Source, Channel)> {
    match src.pc
    case SrcStore => Some((src.(pc := SrcSignal), Store(c, src.i)))
    case SrcSignal => Some((src.(pc := SrcAwait), c.(consume := c.consume + 1)))
    case SrcAwait =>
      if c.produce == 0 then None
      else Some((Source(LoopTest(src.i + 1, max), src.i + 1), c.(produce := c.produce - 1)))
    case SrcStoreEnd => Some((src.(pc := SrcSignalEnd), Store(c, END)))
    case SrcSignalEnd => Some((src.(pc := SrcDone), c.(consume := c.consume + 1)))
    case SrcDone => None
  }

  function FilterStep(f: Filter, left: Channel, right: Channel): Option<(Filter, Channel, Channel)> {
    match f.pc
    case FltWait =>
      if left.consume == 0 then None
      else Some((f.(pc := FltRead), left.(consume := left.consume - 1), right))
    case FltRead => Some((f.(pc := FltRelease, value := left.value), left.(taken := left.taken + 1), right))
    case FltRelease =>
      Some((f.(pc := if Keeps(f.prime, f.value) then FltStore else FltWait),
            left.(produce := left.produce + 1), right))
    case FltStore => Some((f.(pc := FltSignal), left, Store(right, f.value)))
    case FltSignal => Some((f.(pc := FltAwait), left, right.(consume := right.consume + 1)))
    case FltAwait =>
      if right.produce == 0 then None
      else Some((f.(pc := if f.value == END then FltDone else FltWait), left,
                 right.(produce := right.produce - 1)))
    case FltDone => None
  }

  /** The sink's steps, except that the fork itself is in Step. */
  function SinkStep(snk: Sink, c: Channel): Option<(Sink, Channel)> {
    match snk.pc
    case SnkWait =>
      if c.consume == 0 then None else Some((snk.(pc := SnkRead), c.(consume := c.consume - 1)))
    case SnkRead => Some((Sink(SnkRelease, c.value), c.(taken := c.taken + 1)))
    case SnkRelease =>
      Some((snk.(pc := if snk.value == END then SnkDone else SnkPrint), c.(produce := c.produce + 1)))
    case SnkPrint => Some((snk.(pc := SnkFork), c))
    case SnkFork => Some((snk.(pc := SnkWait), c))
    case SnkDone => None
  }

  function Init(max: int): State {
    State(max, [NEW_CHANNEL], Source(LoopTest(2, max), 2), [], Sink(SnkWait, 0), [])
  }

  /** One step of thread t, or None when t is blocked, has returned or does not exist. */
  function Step(s: State, t: Thread): Option<State>
    requires WellFormed(s)
  {
    match t
    case SourceThread => (
      match SourceStep(s.source, s.chans[0], s.max)
      case None => None
      case Some((src, c)) => Some(s.(source := src, chans := s.chans[0 := c])))
    case FilterThread(k) => (
      if k >= |s.filters| then None
      else
        match FilterStep(s.filters[k], s.chans[k], s.chans[k + 1])
        case None => None
        case Some((f, l, r)) => Some(s.(filters := s.filters[k := f], chans := s.chans[k := l][k + 1 := r])))
    case SinkThread => (
      match SinkStep(s.sink, s.chans[|s.filters|])
      case None => None
      case Some((snk, c)) =>
        var chans := s.chans[|s.filters| := c];
        if s.sink.pc == SnkFork then
          Some(s.(sink := snk, chans := chans + [NEW_CHANNEL],
                  filters := s.filters + [Filter(FltWait, s.sink.value, 0)]))
        else
          Some(s.(sink := snk, chans := chans,
                  printed := if s.sink.pc == SnkPrint then s.printed + [s.sink.value] else s.printed)))
  }

  /** Some thread's step leads from s to s'. */
  ghost predicate Next(s: State, s': State) {
    WellFormed(s) && exists t :: Step(s, t) == Some(s')
  }

  ghost predicate NextAt(run: seq<State>, i: nat)
    requires i + 1 < |run|
  {
    Next(run[i], run[i + 1])
  }

  /** A run under an arbitrary interleaving. */
  ghost predicate IsRun(max: int, run: seq<State>) {
    && run != [] && run[0] == Init(max)
    && (forall i: nat :: i + 1 < |run| ==> NextAt(run, i))
  }

  predicate CanStep(s: State, t: Thread) {
    WellFormed(s) && Step(s, t).Some?
  }

  ghost predicate Stuck(s: State) {
    forall t :: !CanStep(s, t)
  }

  predicate AllReturned(s: State) {
    && s.source.pc == SrcDone
    && s.sink.pc == SnkDone
    && forall k :: 0 <= k < |s.filters| ==> s.filters[k].pc == FltDone
  }

  // ---- The invariant --------------------------------------------------------

  function B(b: bool): nat { if b then 1 else 0 }

  /** The handshake on one channel. `stored`: the writer has stored but not yet
      signalled; `gave`: the writer waits for, or never reclaims, the slot;
      `reading`: the reader was signalled but has not read; `holds`: the reader has
      read but not yet released. */
  ghost predicate ChannelOk(c: Channel, stored: bool, gave: bool, reading: bool, holds: bool) {
    && !(stored && gave)
    && c.consume + c.produce + B(reading) + B(holds) == B(gave)
    && |c.wrote| - c.taken == B(stored) + c.consume + B(reading)
    && (c.wrote != [] ==> c.value == c.wrote[|c.wrote|-1])
    && (forall i :: 0 <= i < |c.wrote| ==> c.wrote[i] == END || c.wrote[i] >= 2)
  }

  predicate SourceStored(src: Source) { src.pc == SrcSignal || src.pc == SrcSignalEnd }
  predicate SourceGave(src: Source) { src.pc == SrcAwait || src.pc == SrcDone }

  predicate Stored(s: State, k: nat)
    requires k <= |s.filters|
  {
    if k == 0 then SourceStored(s.source) else s.filters[k-1].pc == FltSignal
  }

  predicate Gave(s: State, k: nat)
    requires k <= |s.filters|
  {
    if k == 0 then SourceGave(s.source) else s.filters[k-1].pc == FltAwait
  }

  predicate Reads(s: State, k: nat)
    requires k <= |s.filters|
  {
    if k < |s.filters| then s.filters[k].pc == FltRead else s.sink.pc == SnkRead
  }

  predicate Holds(s: State, k: nat)
    requires k <= |s.filters|
  {
    if k < |s.filters| then s.filters[k].pc == FltRelease else s.sink.pc == SnkRelease
  }

  ghost predicate SourceOk(src: Source, c: Channel, max: int) {
    match src.pc
    case SrcStore => 2 <= src.i <= max && c.wrote == Numbers(2, src.i - 1)
    case SrcSignal => 2 <= src.i <= max && c.wrote == Numbers(2, src.i)
    case SrcAwait => 2 <= src.i <= max && c.wrote == Numbers(2, src.i)
    case SrcStoreEnd => c.wrote == Numbers(2, max)
    case SrcSignalEnd => c.wrote == Stream(max)
    case SrcDone => c.wrote == Stream(max)
  }

  function Pending(f: Filter): seq<int> {
    if (f.pc == FltRelease || f.pc == FltStore) && Keeps(f.prime, f.value) then [f.value] else []
  }

  /** What a filter has passed on is what it has read, filtered. */
  ghost predicate FilterOk(f: Filter, left: Channel, right: Channel) {
    && f.prime >= 2
    && 1 <= left.taken <= |left.wrote|
    && left.wrote[0] == f.prime
    && FilterOut(f.prime, left.wrote[..left.taken]) == right.wrote + Pending(f)
    && (f.pc != FltWait && f.pc != FltRead ==> f.value == left.wrote[left.taken - 1])
    && (f.pc == FltStore || f.pc == FltSignal || f.pc == FltAwait ==> Keeps(f.prime, f.value))
    && (f.pc == FltDone ==> f.value == END)
    && END !in left.wrote[..if f.pc == FltWait || f.pc == FltRead then left.taken else left.taken - 1]
  }

  ghost predicate SinkOk(snk: Sink, c: Channel) {
    match snk.pc
    case SnkWait => c.taken == 0
    case SnkRead => c.taken == 0
    case _ =>
      && c.taken == 1 <= |c.wrote|
      && snk.value == c.wrote[0]
      && (snk.pc != SnkRelease ==> (snk.pc == SnkDone <==> snk.value == END))
  }

  ghost predicate ChannelAt(s: State, k: nat)
    requires WellFormed(s) && k <= |s.filters|
  {
    ChannelOk(s.chans[k], Stored(s, k), Gave(s, k), Reads(s, k), Holds(s, k))
  }

  ghost predicate FilterAt(s: State, k: nat)
    requires WellFormed(s) && k < |s.filters|
  {
    FilterOk(s.filters[k], s.chans[k], s.chans[k + 1])
  }

  ghost predicate PrintedOk(s: State) {
    && |s.printed| == |s.filters| + B(s.sink.pc == SnkFork)
    && (forall k :: 0 <= k < |s.filters| ==> s.printed[k] == s.filters[k].prime)
    && (s.sink.pc == SnkFork ==> s.printed[|s.filters|] == s.sink.value)
  }

  ghost predicate Inv(s: State) {
    && WellFormed(s)
    && SourceOk(s.source, s.chans[0], s.max)
    && (forall k: nat :: k <= |s.filters| ==> ChannelAt(s, k))
    && (forall k: nat :: k < |s.filters| ==> FilterAt(s, k))
    && SinkOk(s.sink, s.chans[|s.filters|])
    && PrintedOk(s)
  }

  // ---- Every step keeps the invariant ---------------------------------------

  lemma InitInv(max: int)
    ensures Inv(Init(max))
  {}

  lemma SourceStores(src: Source, c: Channel, max: int)
    requires SourceOk(src, c, max) && SourceStep(src, c, max).Some?
    ensures var (src', c') := SourceStep(src, c, max).value;
            SourceOk(src', c', max) && c'.taken == c.taken && c.wrote <= c'.wrote
  {
    if src.pc == SrcStore { assert Numbers(2, src.i) == Numbers(2, src.i - 1) + [src.i]; }
  }

  lemma SourceHandshake(src: Source, c: Channel, max: int, reading: bool, holds: bool)
    requires SourceOk(src, c, max)
    requires ChannelOk(c, SourceStored(src), SourceGave(src), reading, holds)
    requires SourceStep(src, c, max).Some?
    ensures var (src', c') := SourceStep(src, c, max).value;
            ChannelOk(c', SourceStored(src'), SourceGave(src'), reading, holds)
  {}

  lemma SourceKeeps(src: Source, c: Channel, max: int, reading: bool, holds: bool)
    requires SourceOk(src, c, max)
    requires ChannelOk(c, SourceStored(src), SourceGave(src), reading, holds)
    requires SourceStep(src, c, max).Some?
    ensures var (src', c') := SourceStep(src, c, max).value;
            && SourceOk(src', c', max)
            && ChannelOk(c', SourceStored(src'), SourceGave(src'), reading, holds)
            && c'.taken == c.taken && c.wrote <= c'.wrote
  {
    SourceStores(src, c, max);
    SourceHandshake(src, c, max, reading, holds);
  }

  lemma ReaderHandshake(f: Filter, left: Channel, right: Channel, stored: bool, gave: bool)
    requires ChannelOk(left, stored, gave, f.pc == FltRead, f.pc == FltRelease)
    requires FilterStep(f, left, right).Some?
    ensures var (f', left', right') := FilterStep(f, left, right).value;
            && ChannelOk(left', stored, gave, f'.pc == FltRead, f'.pc == FltRelease)
            && left'.wrote == left.wrote && f'.prime == f.prime
  {}

  lemma WriterHandshake(f: Filter, left: Channel, right: Channel, reading: bool, holds: bool)
    requires f.pc == FltStore ==> f.value == END || f.value >= 2
    requires ChannelOk(right, f.pc == FltSignal, f.pc == FltAwait, reading, holds)
    requires FilterStep(f, left, right).Some?
    ensures var (f', left', right') := FilterStep(f, left, right).value;
            && ChannelOk(right', f'.pc == FltSignal, f'.pc == FltAwait, reading, holds)
            && right'.taken == right.taken && right.wrote <= right'.wrote
  {}

  /** A filter's step keeps the handshake on both of its channels. */
  lemma FilterHandshake(f: Filter, left: Channel, right: Channel, stored: bool, gave: bool, reading: bool, holds: bool)
    requires FilterOk(f, left, right)
    requires ChannelOk(left, stored, gave, f.pc == FltRead, f.pc == FltRelease)
    requires ChannelOk(right, f.pc == FltSignal, f.pc == FltAwait, reading, holds)
    requires FilterStep(f, left, right).Some?
    ensures var (f', left', right') := FilterStep(f, left, right).value;
            && ChannelOk(left', stored, gave, f'.pc == FltRead, f'.pc == FltRelease)
            && ChannelOk(right', f'.pc == FltSignal, f'.pc == FltAwait, reading, holds)
            && left'.wrote == left.wrote && right'.taken == right.taken && right.wrote <= right'.wrote
            && f'.prime == f.prime
  {
    ReaderHandshake(f, left, right, stored, gave);
    WriterHandshake(f, left, right, reading, holds);
  }

  /** Reading one more value filters one more value. */
  lemma ReadFilters(f: Filter, left: Channel, right: Channel)
    requires FilterOk(f, left, right) && f.pc == FltRead
    requires left.taken < |left.wrote| && left.value == left.wrote[left.taken]
    ensures var (f', left', right') := FilterStep(f, left, right).value; FilterOk(f', left', right')
  {
    var n := left.taken;
    assert left.wrote[..n + 1][..n] == left.wrote[..n];
  }

  /** A filter's step keeps what it has passed on equal to what it has read, filtered. */
  lemma FilterKeeps(f: Filter, left: Channel, right: Channel, stored: bool, gave: bool)
    requires FilterOk(f, left, right)
    requires ChannelOk(left, stored, gave, f.pc == FltRead, f.pc == FltRelease)
    requires FilterStep(f, left, right).Some?
    ensures var (f', left', right') := FilterStep(f, left, right).value; FilterOk(f', left', right')
  {
    if f.pc == FltRead { ReadFilters(f, left, right); }
  }

  lemma SourceThreadElsewhere(s: State, k: nat)
    requires Inv(s) && Step(s, SourceThread).Some? && 0 < k <= |s.filters|
    ensures var s' := Step(s, SourceThread).value;
            ChannelAt(s', k) && (k < |s.filters| ==> FilterAt(s', k))
  {
    assert ChannelAt(s, k);
    if k < |s.filters| { assert FilterAt(s, k); }
  }

  lemma SourceThreadFrame(s: State, k: nat)
    requires Inv(s) && Step(s, SourceThread).Some? && k <= |s.filters|
    ensures ChannelAt(Step(s, SourceThread).value, k)
    ensures k < |s.filters| ==> FilterAt(Step(s, SourceThread).value, k)
  {
    if k > 0 {
      SourceThreadElsewhere(s, k);
    } else {
      var s' := Step(s, SourceThread).value;
      assert ChannelAt(s, 0);
      SourceKeeps(s.source, s.chans[0], s.max, Reads(s, 0), Holds(s, 0));
      if |s.filters| > 0 {
        assert FilterAt(s, 0);
        FilterOkExtends(s.filters[0], s.chans[0], s'.chans[0], s.chans[1], s'.chans[1]);
      }
    }
  }

  lemma SourceThreadKeeps(s: State)
    requires Inv(s) && Step(s, SourceThread).Some?
    ensures Inv(Step(s, SourceThread).value)
  {
    var s' := Step(s, SourceThread).value;
    forall k: nat | k <= |s'.filters|
      ensures ChannelAt(s', k) && (k < |s'.filters| ==> FilterAt(s', k))
    {
      SourceThreadFrame(s, k);
    }
    assert ChannelAt(s, 0);
    SourceKeeps(s.source, s.chans[0], s.max, Reads(s, 0), Holds(s, 0));
    if |s.filters| == 0 { SinkOkExtends(s.sink, s.chans[0], s'.chans[0]); }
  }

  /** A new value on its left does not disturb a filter. */
  lemma FilterOkExtends(f: Filter, left: Channel, left': Channel, right: Channel, right': Channel)
    requires FilterOk(f, left, right) && left.wrote <= left'.wrote && left'.taken == left.taken
    requires right'.wrote == right.wrote
    ensures FilterOk(f, left', right')
  {
    assert left'.wrote[..left.taken] == left.wrote[..left.taken];
    assert left'.wrote[..left.taken - 1] == left.wrote[..left.taken - 1];
  }

  lemma SinkOkExtends(snk: Sink, c: Channel, c': Channel)
    requires SinkOk(snk, c) && c.wrote <= c'.wrote && c'.taken == c.taken
    ensures SinkOk(snk, c')
  {}

  lemma FilterThreadShape(s: State, k: nat)
    requires Inv(s) && Step(s, FilterThread(k)).Some?
    ensures k < |s.filters| && FilterStep(s.filters[k], s.chans[k], s.chans[k + 1]).Some?
    ensures var s' := Step(s, FilterThread(k)).value;
            var (f, l, r) := FilterStep(s.filters[k], s.chans[k], s.chans[k + 1]).value;
            && |s'.filters| == |s.filters| && |s'.chans| == |s.chans|
            && s'.filters[k] == f && s'.chans[k] == l && s'.chans[k + 1] == r
            && Stored(s', k) == Stored(s, k) && Gave(s', k) == Gave(s, k)
            && Reads(s', k + 1) == Reads(s, k + 1) && Holds(s', k + 1) == Holds(s, k + 1)
  {}

  lemma FilterThreadLocal(s: State, k: nat)
    requires Inv(s) && Step(s, FilterThread(k)).Some?
    ensures var s' := Step(s, FilterThread(k)).value;
            && k < |s.filters| == |s'.filters| && WellFormed(s')
            && FilterAt(s', k) && ChannelAt(s', k) && ChannelAt(s', k + 1)
            && s'.chans[k].wrote == s.chans[k].wrote
            && s'.chans[k + 1].taken == s.chans[k + 1].taken
            && s.chans[k + 1].wrote <= s'.chans[k + 1].wrote
            && s'.filters[k].prime == s.filters[k].prime
  {
    FilterThreadShape(s, k);
    assert FilterAt(s, k) && ChannelAt(s, k) && ChannelAt(s, k + 1);
    FilterKeeps(s.filters[k], s.chans[k], s.chans[k + 1], Stored(s, k), Gave(s, k));
    FilterHandshake(s.filters[k], s.chans[k], s.chans[k + 1],
                    Stored(s, k), Gave(s, k), Reads(s, k + 1), Holds(s, k + 1));
  }

  lemma FilterThreadElsewhere(s: State, k: nat, j: nat)
    requires Inv(s) && Step(s, FilterThread(k)).Some? && j <= |s.filters| && j != k
    ensures var s' := Step(s, FilterThread(k)).value;
            && k < |s.filters| == |s'.filters| && WellFormed(s')
            && (j < |s.filters| ==> s'.filters[j] == s.filters[j])
            && (j < |s.filters| && j + 1 != k ==> s'.chans[j + 1] == s.chans[j + 1])
            && (j != k + 1 ==>
                && s'.chans[j] == s.chans[j]
                && Stored(s', j) == Stored(s, j) && Gave(s', j) == Gave(s, j)
                && Reads(s', j) == Reads(s, j) && Holds(s', j) == Holds(s, j))
  {}

  /** The filter behind the one that steps, and all others. */
  lemma FilterThreadOthers(s: State, k: nat, j: nat)
    requires Inv(s) && Step(s, FilterThread(k)).Some? && j < |s.filters| && j != k
    ensures var s' := Step(s, FilterThread(k)).value;
            |s.filters| == |s'.filters| && WellFormed(s') && FilterAt(s', j)
  {
    var s' := Step(s, FilterThread(k)).value;
    FilterThreadLocal(s, k);
    FilterThreadElsewhere(s, k, j);
    assert FilterAt(s, j);
    FilterOkExtends(s.filters[j], s.chans[j], s'.chans[j], s.chans[j + 1], s'.chans[j + 1]);
  }

  lemma FilterThreadFrame(s: State, k: nat, j: nat)
    requires Inv(s) && Step(s, FilterThread(k)).Some? && j <= |s.filters|
    ensures var s' := Step(s, FilterThread(k)).value;
            && |s.filters| == |s'.filters| && WellFormed(s')
            && ChannelAt(s', j) && (j < |s.filters| ==> FilterAt(s', j))
  {
    FilterThreadLocal(s, k);
    if j != k {
      if j < |s.filters| { FilterThreadOthers(s, k, j); }
      FilterThreadElsewhere(s, k, j);
      assert ChannelAt(s, j);
    }
  }

  lemma FilterThreadKeeps(s: State, k: nat)
    requires Inv(s) && Step(s, FilterThread(k)).Some?
    ensures Inv(Step(s, FilterThread(k)).value)
  {
    var s' := Step(s, FilterThread(k)).value;
    FilterThreadLocal(s, k);
    forall j: nat | j <= |s'.filters|
      ensures ChannelAt(s', j) && (j < |s'.filters| ==> FilterAt(s', j))
    {
      FilterThreadFrame(s, k, j);
    }
    SinkOkExtends(s.sink, s.chans[|s.filters|], s'.chans[|s.filters|]);
  }

  lemma SinkKeeps(snk: Sink, c: Channel, stored: bool, gave: bool)
    requires SinkOk(snk, c) && ChannelOk(c, stored, gave, snk.pc == SnkRead, snk.pc == SnkRelease)
    requires SinkStep(snk, c).Some?
    ensures var (snk', c') := SinkStep(snk, c).value;
            && ChannelOk(c', stored, gave, snk'.pc == SnkRead, snk'.pc == SnkRelease)
            && (snk.pc != SnkFork ==> SinkOk(snk', c'))
            && c'.wrote == c.wrote && (snk.pc == SnkFork ==> c' == c && snk'.pc == SnkWait)
  {}

  lemma SinkThreadElsewhere(s: State, j: nat)
    requires Inv(s) && Step(s, SinkThread).Some? && j < |s.filters|
    ensures var s' := Step(s, SinkThread).value;
            && |s.filters| <= |s'.filters| && WellFormed(s')
            && s'.filters[j] == s.filters[j] && s'.chans[j] == s.chans[j]
            && s'.chans[j + 1].wrote == s.chans[j + 1].wrote
            && Stored(s', j) == Stored(s, j) && Gave(s', j) == Gave(s, j)
            && Reads(s', j) == Reads(s, j) && Holds(s', j) == Holds(s, j)
  {}

  lemma SinkThreadHere(s: State)
    requires Inv(s) && Step(s, SinkThread).Some?
    ensures SinkStep(s.sink, s.chans[|s.filters|]).Some?
    ensures var s' := Step(s, SinkThread).value;
            var (snk, c) := SinkStep(s.sink, s.chans[|s.filters|]).value;
            var n := |s.filters|;
            && n <= |s'.filters| && WellFormed(s') && s'.chans[n] == c
            && Stored(s', n) == Stored(s, n) && Gave(s', n) == Gave(s, n)
            && Reads(s', n) == (snk.pc == SnkRead) && Holds(s', n) == (snk.pc == SnkRelease)
  {}

  lemma SinkThreadFrame(s: State, j: nat)
    requires Inv(s) && Step(s, SinkThread).Some?
    requires j <= |s.filters|
    ensures ChannelAt(Step(s, SinkThread).value, j)
    ensures j < |s.filters| ==> FilterAt(Step(s, SinkThread).value, j)
  {
    assert ChannelAt(s, j);
    if j < |s.filters| {
      assert FilterAt(s, j);
      SinkThreadElsewhere(s, j);
    } else {
      SinkThreadHere(s);
      SinkKeeps(s.sink, s.chans[j], Stored(s, j), Gave(s, j));
    }
  }

  /** The forked filter starts on the channel whose first value the sink has printed. */
  lemma ForkedFilter(s: State)
    requires Inv(s) && s.sink.pc == SnkFork
    ensures var s' := Step(s, SinkThread).value;
            |s'.filters| == |s.filters| + 1 && FilterAt(s', |s.filters|) && ChannelAt(s', |s.filters| + 1)
  {
    var n := |s.filters|;
    var c := s.chans[n];
    assert ChannelAt(s, n);
    assert c.wrote[..1] == [c.wrote[0]] && c.wrote[..0] == [];
    SelfDivides(c.wrote[0]);
    assert FilterOut(c.wrote[0], c.wrote[..1][..0]) == [];
  }

  lemma SinkThreadEverywhere(s: State, j: nat)
    requires Inv(s) && Step(s, SinkThread).Some?
    requires j <= |Step(s, SinkThread).value.filters|
    ensures WellFormed(Step(s, SinkThread).value)
    ensures ChannelAt(Step(s, SinkThread).value, j)
    ensures j < |Step(s, SinkThread).value.filters| ==> FilterAt(Step(s, SinkThread).value, j)
  {
    if j <= |s.filters| { SinkThreadFrame(s, j); }
    if s.sink.pc == SnkFork { ForkedFilter(s); }
  }

  lemma SinkThreadKeeps(s: State)
    requires Inv(s) && Step(s, SinkThread).Some?
    ensures Inv(Step(s, SinkThread).value)
  {
    var s' := Step(s, SinkThread).value;
    forall j: nat | j <= |s'.filters|
      ensures ChannelAt(s', j) && (j < |s'.filters| ==> FilterAt(s', j))
    {
      SinkThreadEverywhere(s, j);
    }
    assert ChannelAt(s, |s.filters|);
    SinkKeeps(s.sink, s.chans[|s.filters|], Stored(s, |s.filters|), Gave(s, |s.filters|));
  }

  lemma StepKeepsInv(s: State, t: Thread)
    requires Inv(s) && Step(s, t).Some?
    ensures Inv(Step(s, t).value)
  {
    match t
    case SourceThread => SourceThreadKeeps(s);
    case FilterThread(k) => FilterThreadKeeps(s, k);
    case SinkThread => SinkThreadKeeps(s);
  }

  lemma NextKeepsInv(s: State, s': State)
    requires Inv(s) && Next(s, s')
    ensures Inv(s') && s'.max == s.max
  {
    var t :| Step(s, t) == Some(s');
    StepKeepsInv(s, t);
  }

  lemma {:induction false} RunInv(max: int, run: seq<State>, n: nat)
    requires IsRun(max, run) && n < |run|
    ensures Inv(run[n]) && run[n].max == max
  {
    if n == 0 {
      InitInv(max);
    } else {
      RunInv(max, run, n - 1);
      assert NextAt(run, n - 1);
      NextKeepsInv(run[n - 1], run[n]);
    }
  }
}

/** The bounded buffer of buffer.c: one producer and one consumer share a ring
    of slots and two counting semaphores. A step is one semaphore operation or
    one access to a shared variable; `size++` and `size--` are a load and a
    store. The batch sizes are arbitrary draws. */
module Buffer {
  import opened Options
  import Modular

  datatype ProducerPc = PFork | PBatch | PWait | PStore | PHead | PLoad | PWrite | PSignal | PDone
  datatype ConsumerPc = CUnborn | CBatch | CWait | CRead | CTail | CLoad | CWrite | CSignal | CDone

  /** `reg` holds the value of size between its load and its store. */
  datatype Producer = Producer(pc: ProducerPc, count: int, n: int, i: int, reg: int)
  datatype Consumer = Consumer(pc: ConsumerPc, out: int, n: int, i: int, reg: int)

  /** `arg` is the number of items; `taken` records what the consumer has read. */
  datatype State = State(arg: int, ring: seq<int>, head: int, tail: int, size: int,
                         empty: nat, full: nat, producer: Producer, consumer: Consumer, taken: seq<int>)

  /** A thread's turn, with the random draw it uses if it is about to pick a batch. */
  datatype Turn = ProducerTurn(draw: nat) | ConsumerTurn(draw: nat)

  function Min(a: int, b: int): int { if a <= b then a else b }

  /** Where a loop continues after its inner test and, when that fails, its outer test. */
  function ProducerNext(p: Producer, arg: int): Producer {
    p.(pc := if p.i < p.n then PWait else if p.count <= arg then PBatch else PDone)
  }

  function ConsumerNext(c: Consumer, arg: int): Consumer {
    c.(pc := if c.i < c.n then CWait else if c.out < arg then CBatch else CDone)
  }

  function Init(slots: nat, arg: int, ring: seq<int>): State
    requires |ring| == slots > 0
  {
    State(arg, ring, 0, 0, 0, 0, slots, Producer(PFork, 1, 0, 0, 0), Consumer(CUnborn, 0, 0, 0, 0), [])
  }

  ghost predicate InRange(s: State) {
    |s.ring| > 0 && 0 <= s.head < |s.ring| && 0 <= s.tail < |s.ring|
  }

  function ProducerStep(s: State, draw: nat): Option<State>
    requires InRange(s)
  {
    var p := s.producer;
    match p.pc
    case PFork => Some(s.(consumer := ConsumerNext(s.consumer, s.arg), producer := ProducerNext(p, s.arg)))
    case PBatch => Some(s.(producer := ProducerNext(p.(n := Min(draw, s.arg - p.count + 1), i := 0), s.arg)))
    case PWait => if s.full == 0 then None else Some(s.(full := s.full - 1, producer := p.(pc := PStore)))
    case PStore => Some(s.(ring := s.ring[s.head := p.count], producer := p.(pc := PHead, count := p.count + 1)))
    case PHead => Some(s.(head := (s.head + 1) % |s.ring|, producer := p.(pc := PLoad)))
    case PLoad => Some(s.(producer := p.(pc := PWrite, reg := s.size)))
    case PWrite => Some(s.(size := p.reg + 1, producer := p.(pc := PSignal)))
    case PSignal => Some(s.(empty := s.empty + 1, producer := ProducerNext(p.(i := p.i + 1), s.arg)))
    case PDone => None
  }

  function ConsumerStep(s: State, draw: nat): Option<State>
    requires InRange(s)
  {
    var c := s.consumer;
    match c.pc
    case CUnborn => None
    case CBatch => Some(s.(consumer := ConsumerNext(c.(n := Min(draw, s.arg - c.out), i := 0), s.arg)))
    case CWait => if s.empty == 0 then None else Some(s.(empty := s.empty - 1, consumer := c.(pc := CRead)))
    case CRead =>
      Some(s.(consumer := c.(pc := CTail, out := s.ring[s.tail]), taken := s.taken + [s.ring[s.tail]]))
    case CTail => Some(s.(tail := (s.tail + 1) % |s.ring|, consumer := c.(pc := CLoad)))
    case CLoad => Some(s.(consumer := c.(pc := CWrite, reg := s.size)))
    case CWrite => Some(s.(size := c.reg - 1, consumer := c.(pc := CSignal)))
    case CSignal => Some(s.(full := s.full + 1, consumer := ConsumerNext(c.(i := c.i + 1), s.arg)))
    case CDone => None
  }

  function Step(s: State, t: Turn): Option<State>
    requires InRange(s)
  {
    match t
    case ProducerTurn(draw) => ProducerStep(s, draw)
    case ConsumerTurn(draw) => ConsumerStep(s, draw)
  }

  /** Some thread's step leads from s to s'. */
  ghost predicate Next(s: State, s': State) {
    InRange(s) && exists t :: Step(s, t) == Some(s')
  }

  ghost predicate IsRun(slots: nat, arg: int, run: seq<State>) {
    && run != []
    && |run[0].ring| == slots > 0
    && run[0] == Init(slots, arg, run[0].ring)
    && (forall i :: 0 <= i < |run| - 1 ==> Next(run[i], run[i + 1]))
  }

  ghost predicate CanStep(s: State, t: Turn) {
    InRange(s) && Step(s, t).Some?
  }

  ghost predicate Stuck(s: State) {
    forall t :: !CanStep(s, t)
  }

  // ---- The invariant ----------------------------------------------------------

  function B(b: bool): int { if b then 1 else 0 }

  function Produced(s: State): int { s.producer.count - 1 }
  function Consumed(s: State): int { |s.taken| }

  predicate Stored(p: Producer) { p.pc == PHead || p.pc == PLoad || p.pc == PWrite || p.pc == PSignal }
  predicate Fetched(c: Consumer) { c.pc == CTail || c.pc == CLoad || c.pc == CWrite || c.pc == CSignal }

  /** Item j, the number j + 1, lies in slot j of the ring until it is read. */
  ghost predicate Holds(s: State, j: int)
    requires |s.ring| > 0
  {
    s.ring[j % |s.ring|] == j + 1
  }

  ghost predicate Counts(s: State) {
    && s.empty == Produced(s) - Consumed(s) - B(Stored(s.producer)) - B(s.consumer.pc == CRead)
    && s.full == |s.ring| - Produced(s) + Consumed(s) - B(s.producer.pc == PStore) - B(Fetched(s.consumer))
  }

  ghost predicate ProducerOk(s: State) {
    var p := s.producer;
    && 0 <= Produced(s)
    && (p.pc == PDone ==> p.count > s.arg)
    && (p.pc == PBatch ==> p.count <= s.arg)
    && (p.pc == PFork ==> p.count == 1 && s.consumer.pc == CUnborn && p.i == p.n)
    && (p.pc == PWait || p.pc == PStore ==> p.i < p.n)
    && (p.i < p.n ==> p.n - p.i - B(Stored(p)) <= s.arg - p.count + 1)
    && (Stored(p) ==> p.i < p.n)
    && p.count <= (if s.arg < 0 then 0 else s.arg) + 1
  }

  ghost predicate ConsumerOk(s: State) {
    var c := s.consumer;
    && c.out == Consumed(s)
    && (c.pc == CUnborn ==> s.producer.pc == PFork && c.i == c.n)
    && (c.pc == CDone ==> c.out >= s.arg)
    && (c.pc == CBatch ==> c.out < s.arg)
    && (c.pc == CWait || c.pc == CRead || Fetched(c) ==> c.i < c.n)
    && (c.i < c.n ==> c.n - c.i - B(Fetched(c)) <= s.arg - c.out)
  }

  ghost predicate Control(s: State) {
    Counts(s) && ProducerOk(s) && ConsumerOk(s)
  }

  ghost predicate Positions(s: State)
    requires |s.ring| > 0
  {
    && s.head == (Produced(s) - B(s.producer.pc == PHead)) % |s.ring|
    && s.tail == (Consumed(s) - B(s.consumer.pc == CTail)) % |s.ring|
  }

  ghost predicate Items(s: State)
    requires |s.ring| > 0
  {
    && (forall j :: Consumed(s) <= j < Produced(s) ==> Holds(s, j))
    && (forall j :: 0 <= j < |s.taken| ==> s.taken[j] == j + 1)
  }

  ghost predicate Inv(s: State) {
    InRange(s) && Control(s) && Positions(s) && Items(s)
  }

  lemma InitInv(slots: nat, arg: int, ring: seq<int>)
    requires |ring| == slots > 0
    ensures Inv(Init(slots, arg, ring))
  {
    Modular.Unique(0, 0, 0, slots);
  }

  lemma ProducerMovesHead(s: State, draw: nat)
    requires InRange(s) && Positions(s) && s.producer.pc == PHead
    ensures var s' := ProducerStep(s, draw).value; InRange(s') && Positions(s')
  {
    Modular.Advance(Produced(s) - 1, |s.ring|);
  }

  lemma ProducerPositions(s: State, draw: nat)
    requires InRange(s) && Positions(s) && ProducerOk(s) && ProducerStep(s, draw).Some?
    ensures var s' := ProducerStep(s, draw).value;
            |s'.ring| == |s.ring| && InRange(s') && Positions(s')
  {
    if s.producer.pc == PHead { ProducerMovesHead(s, draw); }
  }

  lemma ConsumerPositions(s: State, draw: nat)
    requires InRange(s) && Positions(s) && ConsumerStep(s, draw).Some?
    requires s.consumer.pc == CRead ==> s.ring[s.tail] == Consumed(s) + 1
    ensures var s' := ConsumerStep(s, draw).value;
            s'.ring == s.ring && InRange(s') && Positions(s')
  {
    Modular.Advance(Consumed(s) - 1, |s.ring|);
  }

  /** The slot the producer is about to fill is not one of the unread ones. */
  lemma StoreHitsFreeSlot(s: State, j: int)
    requires Inv(s) && s.producer.pc == PStore && Consumed(s) <= j < Produced(s)
    ensures j % |s.ring| != s.head
  {
    Modular.Distinct(j, Produced(s), |s.ring|);
  }

  lemma StoreKeepsItems(s: State, draw: nat)
    requires Inv(s) && s.producer.pc == PStore
    ensures Items(ProducerStep(s, draw).value)
  {
    var s' := ProducerStep(s, draw).value;
    forall j | Consumed(s') <= j < Produced(s') ensures Holds(s', j) {
      if j < Produced(s) {
        StoreHitsFreeSlot(s, j);
        assert Holds(s, j);
      }
    }
  }

  lemma ProducerItems(s: State, draw: nat)
    requires Inv(s) && ProducerStep(s, draw).Some?
    ensures var s' := ProducerStep(s, draw).value;
            |s'.ring| == |s.ring| && Items(s')
  {
    if s.producer.pc == PStore {
      StoreKeepsItems(s, draw);
    } else {
      var s' := ProducerStep(s, draw).value;
      forall j | Consumed(s') <= j < Produced(s') ensures Holds(s', j) { assert Holds(s, j); }
    }
  }

  lemma ConsumerItems(s: State, draw: nat)
    requires Inv(s) && ConsumerStep(s, draw).Some?
    ensures var s' := ConsumerStep(s, draw).value;
            s'.ring == s.ring && Items(s')
  {
    var s' := ConsumerStep(s, draw).value;
    if s.consumer.pc == CRead { assert Holds(s, Consumed(s)); }
    forall j | Consumed(s') <= j < Produced(s') ensures Holds(s', j) { assert Holds(s, j); }
  }

  lemma ProducerCounts(s: State, draw: nat)
    requires Counts(s) && ProducerOk(s) && InRange(s) && ProducerStep(s, draw).Some?
    ensures Counts(ProducerStep(s, draw).value)
  {}

  lemma ProducerKeepsConsumer(s: State, draw: nat)
    requires ProducerOk(s) && ConsumerOk(s) && InRange(s) && ProducerStep(s, draw).Some?
    ensures ConsumerOk(ProducerStep(s, draw).value)
  {}

  lemma ProducerControl(s: State, draw: nat)
    requires ProducerOk(s) && InRange(s) && ProducerStep(s, draw).Some?
    ensures ProducerOk(ProducerStep(s, draw).value)
  {}

  lemma ConsumerCounts(s: State, draw: nat)
    requires Counts(s) && InRange(s) && ConsumerStep(s, draw).Some?
    ensures Counts(ConsumerStep(s, draw).value)
  {}

  lemma ConsumerKeepsProducer(s: State, draw: nat)
    requires ProducerOk(s) && ConsumerOk(s) && InRange(s) && ConsumerStep(s, draw).Some?
    ensures ProducerOk(ConsumerStep(s, draw).value)
  {}

  lemma ConsumerControl(s: State, draw: nat)
    requires ConsumerOk(s) && InRange(s) && ConsumerStep(s, draw).Some?
    requires s.consumer.pc == CRead ==> s.ring[s.tail] == Consumed(s) + 1
    ensures ConsumerOk(ConsumerStep(s, draw).value)
  {}

  lemma ProducerKeepsInv(s: State, draw: nat)
    requires Inv(s) && ProducerStep(s, draw).Some?
    ensures Inv(ProducerStep(s, draw).value) && |ProducerStep(s, draw).value.ring| == |s.ring|
  {
    ProducerPositions(s, draw);
    ProducerItems(s, draw);
    ProducerCounts(s, draw);
    ProducerKeepsConsumer(s, draw);
    ProducerControl(s, draw);
  }

  lemma ConsumerKeepsInv(s: State, draw: nat)
    requires Inv(s) && ConsumerStep(s, draw).Some?
    ensures Inv(ConsumerStep(s, draw).value) && |ConsumerStep(s, draw).value.ring| == |s.ring|
  {
    if s.consumer.pc == CRead { assert Holds(s, Consumed(s)); }
    ConsumerPositions(s, draw);
    ConsumerItems(s, draw);
    ConsumerCounts(s, draw);
    ConsumerKeepsProducer(s, draw);
    ConsumerControl(s, draw);
  }

  lemma StepKeepsInv(s: State, t: Turn)
    requires Inv(s) && Step(s, t).Some?
    ensures Inv(Step(s, t).value) && |Step(s, t).value.ring| == |s.ring|
  {
    match t
    case ProducerTurn(draw) => ProducerKeepsInv(s, draw);
    case ConsumerTurn(draw) => ConsumerKeepsInv(s, draw);
  }

  lemma NextKeepsInv(s: State, s': State)
    requires Inv(s) && Next(s, s')
    ensures Inv(s') && s'.arg == s.arg && |s'.ring| == |s.ring|
  {
    var t :| Step(s, t) == Some(s');
    StepKeepsInv(s, t);
  }

  lemma {:induction false} RunInv(slots: nat, arg: int, run: seq<State>, n: nat)
    requires IsRun(slots, arg, run) && n < |run|
    ensures Inv(run[n]) && run[n].arg == arg && |run[n].ring| == slots
  {
    if n == 0 {
      InitInv(slots, arg, run[0].ring);
    } else {
      RunInv(slots, arg, run, n - 1);
      NextKeepsInv(run[n - 1], run[n]);
    }
  }

  // ---- Results -------------------------------------------------------------------

  /** For every ring size, item count and sequence of draws: the consumer takes 1, 2, 3, ...
      in order, never more than asked for, and `out` is the number taken. */
  lemma ConsumedInOrder(slots: nat, arg: int, run: seq<State>, n: nat)
    requires IsRun(slots, arg, run) && n < |run|
    ensures var s := run[n];
            && (forall j :: 0 <= j < |s.taken| ==> s.taken[j] == j + 1)
            && s.consumer.out == |s.taken|
            && |s.taken| <= if arg < 0 then 0 else arg
  {
    RunInv(slots, arg, run, n);
  }

  lemma StepKeepsUnread(s: State, t: Turn)
    requires InRange(s) && Step(s, t).Some?
    ensures var s' := Step(s, t).value;
            |s.taken| <= |s'.taken| && Produced(s) <= Produced(s')
  {}

  /** No slot is overwritten while unread: whatever step is taken, each item produced
      and not yet consumed stays in its slot, and at most `slots` items are unread. */
  lemma UnreadItemsSurvive(slots: nat, arg: int, run: seq<State>, n: nat, j: int)
    requires IsRun(slots, arg, run) && n + 1 < |run|
    requires |run[n + 1].taken| <= j < Produced(run[n])
    ensures |run[n].ring| == |run[n + 1].ring| == slots
    ensures run[n].ring[j % slots] == run[n + 1].ring[j % slots] == j + 1
    ensures Produced(run[n]) - |run[n].taken| <= slots
  {
    RunInv(slots, arg, run, n);
    RunInv(slots, arg, run, n + 1);
    assert Next(run[n], run[n + 1]);
    var t :| Step(run[n], t) == Some(run[n + 1]);
    StepKeepsUnread(run[n], t);
    assert Holds(run[n], j) && Holds(run[n + 1], j);
  }

  /** The only state in which neither thread can step is the one with every item consumed. */
  lemma StuckMeansAllConsumed(slots: nat, arg: int, run: seq<State>)
    requires IsRun(slots, arg, run)
    requires Stuck(run[|run| - 1])
    ensures var s := run[|run| - 1];
            && s.producer.pc == PDone && s.consumer.pc == CDone
            && |s.taken| == (if arg < 0 then 0 else arg) == s.producer.count - 1
            && s.empty == 0 && s.full == slots
  {
    var s := run[|run| - 1];
    RunInv(slots, arg, run, |run| - 1);
    assert !CanStep(s, ProducerTurn(0));
    assert !CanStep(s, ConsumerTurn(0));
  }

  // ---- The size variable ------------------------------------------------------------

  predicate Adding(p: Producer) { p.pc == PHead || p.pc == PLoad || p.pc == PWrite }
  predicate Removing(c: Consumer) { c.pc == CTail || c.pc == CLoad || c.pc == CWrite }

  /** The items whose increment is finished, less those whose decrement is. */
  function Counted(s: State): int {
    (Produced(s) - B(Adding(s.producer))) - (Consumed(s) - B(Removing(s.consumer)))
  }

  ghost predicate SizeIsRight(s: State) {
    s.size == Counted(s)
  }

  /** A thread stores size computed from a value that size no longer has. */
  predicate StaleStore(s: State, s': State) {
    || (s.producer.pc == PWrite && s'.producer.pc == PSignal && s.producer.reg != s.size)
    || (s.consumer.pc == CWrite && s'.consumer.pc == CSignal && s.consumer.reg != s.size)
  }

  lemma SizeStep(s: State, s': State)
    requires Inv(s) && Next(s, s') && SizeIsRight(s)
    ensures SizeIsRight(s') <==> !StaleStore(s, s')
  {
    var t :| Step(s, t) == Some(s');
    if t.ProducerTurn? { ProducerSizeStep(s, t.draw, s'); } else { ConsumerSizeStep(s, t.draw, s'); }
  }

  lemma ProducerSizeStep(s: State, draw: nat, s': State)
    requires InRange(s) && ProducerOk(s) && ProducerStep(s, draw) == Some(s') && SizeIsRight(s)
    ensures SizeIsRight(s') <==> !StaleStore(s, s')
  {}

  lemma ConsumerSizeStep(s: State, draw: nat, s': State)
    requires InRange(s) && ConsumerStep(s, draw) == Some(s') && SizeIsRight(s)
    ensures SizeIsRight(s') <==> !StaleStore(s, s')
  {}

  lemma SizeNext(slots: nat, arg: int, run: seq<State>, n: nat)
    requires IsRun(slots, arg, run) && n + 1 < |run|
    ensures SizeIsRight(run[n]) ==> (SizeIsRight(run[n + 1]) <==> !StaleStore(run[n], run[n + 1]))
  {
    RunInv(slots, arg, run, n);
    var s, s' := run[n], run[n + 1];
    assert Next(s, s');
    if SizeIsRight(s) { SizeStep(s, s'); }
  }

  lemma SizeStarts(slots: nat, arg: int, run: seq<State>)
    requires IsRun(slots, arg, run)
    ensures SizeIsRight(run[0])
  {}

  /** In any run, for every ring size and item count: size has counted the items correctly in
      all states so far exactly when no store so far was stale. */
  lemma {:induction false} SizeIsRightExactly(slots: nat, arg: int, run: seq<State>, n: nat)
    requires IsRun(slots, arg, run) && n < |run|
    ensures (forall i :: 0 <= i <= n ==> SizeIsRight(run[i])) <==>
            (forall i :: 0 <= i < n ==> !StaleStore(run[i], run[i + 1]))
  {
    if n == 0 {
      SizeStarts(slots, arg, run);
    } else {
      SizeIsRightExactly(slots, arg, run, n - 1);
      SizeNext(slots, arg, run, n - 1);
    }
  }

  lemma Extend(slots: nat, arg: int, run: seq<State>, t: Turn) returns (run': seq<State>, s': State)
    requires IsRun(slots, arg, run) && InRange(run[|run| - 1])
    requires Step(run[|run| - 1], t).Some?
    ensures IsRun(slots, arg, run') && s' == Step(run[|run| - 1], t).value
    ensures run'[|run'| - 1] == s'
  {
    s' := Step(run[|run| - 1], t).value;
    run' := run + [s'];
    assert Next(run[|run| - 1], s');
    assert run'[0] == run[0];
  }

  // The states on the way to a wrong `size`: two slots, two items.
  const DRIFT_0 := State(2, [0, 0], 0, 0, 0, 0, 1, Producer(PStore, 1, 2, 0, 0), Consumer(CBatch, 0, 0, 0, 0), [])
  const DRIFT_1 := State(2, [1, 0], 1, 0, 1, 1, 1, Producer(PWait, 2, 2, 1, 0), Consumer(CBatch, 0, 0, 0, 0), [])
  const DRIFT_2 := State(2, [1, 2], 0, 0, 1, 1, 0, Producer(PWrite, 3, 2, 1, 1), Consumer(CBatch, 0, 0, 0, 0), [])
  const DRIFT_3 := State(2, [1, 2], 0, 0, 1, 0, 0, Producer(PWrite, 3, 2, 1, 1), Consumer(CTail, 1, 1, 0, 0), [1])
  const DRIFT_4 := State(2, [1, 2], 0, 1, 0, 0, 1, Producer(PWrite, 3, 2, 1, 1), Consumer(CBatch, 1, 1, 1, 1), [1])

  lemma DriftStart(run: seq<State>) returns (r: seq<State>)
    requires IsRun(2, 2, run) && run[|run| - 1] == Init(2, 2, [0, 0])
    ensures IsRun(2, 2, r) && r[|r| - 1] == DRIFT_0
  {
    var s: State;
    r := run;
    r, s := Extend(2, 2, r, ProducerTurn(2));
    r, s := Extend(2, 2, r, ProducerTurn(2));
    r, s := Extend(2, 2, r, ProducerTurn(2));
  }

  lemma DriftFirstItem(run: seq<State>) returns (r: seq<State>)
    requires IsRun(2, 2, run) && run[|run| - 1] == DRIFT_0
    ensures IsRun(2, 2, r) && r[|r| - 1] == DRIFT_1
  {
    var s: State;
    r := run;
    r, s := Extend(2, 2, r, ProducerTurn(2));
    r, s := Extend(2, 2, r, ProducerTurn(2));
    r, s := Extend(2, 2, r, ProducerTurn(2));
    r, s := Extend(2, 2, r, ProducerTurn(2));
    r, s := Extend(2, 2, r, ProducerTurn(2));
  }

  lemma DriftLoad(run: seq<State>) returns (r: seq<State>)
    requires IsRun(2, 2, run) && run[|run| - 1] == DRIFT_1
    ensures IsRun(2, 2, r) && r[|r| - 1] == DRIFT_2
  {
    var s: State;
    r := run;
    r, s := Extend(2, 2, r, ProducerTurn(2));
    r, s := Extend(2, 2, r, ProducerTurn(2));
    r, s := Extend(2, 2, r, ProducerTurn(2));
    r, s := Extend(2, 2, r, ProducerTurn(2));
  }

  lemma DriftTake(run: seq<State>) returns (r: seq<State>)
    requires IsRun(2, 2, run) && run[|run| - 1] == DRIFT_2
    ensures IsRun(2, 2, r) && r[|r| - 1] == DRIFT_3
  {
    var s: State;
    r := run;
    r, s := Extend(2, 2, r, ConsumerTurn(1));
    r, s := Extend(2, 2, r, ConsumerTurn(1));
    r, s := Extend(2, 2, r, ConsumerTurn(1));
  }

  lemma DriftUpdate(run: seq<State>) returns (r: seq<State>)
    requires IsRun(2, 2, run) && run[|run| - 1] == DRIFT_3
    ensures IsRun(2, 2, r) && r[|r| - 1] == DRIFT_4
  {
    var s: State;
    r := run;
    r, s := Extend(2, 2, r, ConsumerTurn(1));
    r, s := Extend(2, 2, r, ConsumerTurn(1));
    r, s := Extend(2, 2, r, ConsumerTurn(1));
    r, s := Extend(2, 2, r, ConsumerTurn(1));
  }

  /** The update of `size` is not atomic: the threads can interleave so that size ends up 2
      while one item is in the ring and no update is under way. Nothing in the program reads it. */
  lemma SizeCanDrift() returns (run: seq<State>, s: State)
    ensures IsRun(2, 2, run) && s == run[|run| - 1]
    ensures s.producer.pc == PDone && s.consumer.pc == CBatch
    ensures s.size == 2 && Produced(s) - Consumed(s) == 1
  {
    run := DriftStart([Init(2, 2, [0, 0])]);
    run := DriftFirstItem(run);
    run := DriftLoad(run);
    run := DriftTake(run);
    run := DriftUpdate(run);
    run, s := Extend(2, 2, run, ProducerTurn(2));
    run, s := Extend(2, 2, run, ProducerTurn(2));
  }

  // ---- The program ------------------------------------------------------------------

  /** The shared variables and both threads' positions and locals. */
  class BoundedBuffer {
    const arg: int
    const ring: array<int>
    var head: int
    var tail: int
    var size: int
    var empty: nat
    var full: nat
    var producer: Producer
    var consumer: Consumer
    ghost var taken: seq<int>

    ghost function Current(): State
      reads this, ring
    {
      State(arg, ring[..], head, tail, size, empty, full, producer, consumer, taken)
    }

    constructor (slots: nat, arg: int)
      requires slots > 0
      ensures fresh(ring) && ring.Length == slots
      ensures Current() == Init(slots, arg, ring[..])
    {
      this.arg := arg;
      ring := new int[slots];
      head, tail, size := 0, 0, 0;
      empty, full := 0, slots;
      producer := Producer(PFork, 1, 0, 0, 0);
      consumer := Consumer(CUnborn, 0, 0, 0, 0);
      taken := [];
    }

    method RunProducer(draw: nat) returns (moved: bool)
      requires InRange(Current())
      modifies this, ring
      ensures moved == Step(old(Current()), ProducerTurn(draw)).Some?
      ensures Current() == if moved then Step(old(Current()), ProducerTurn(draw)).value else old(Current())
    {
      moved := true;
      match producer.pc {
        case PFork =>
          consumer := ConsumerNext(consumer, arg);
          producer := ProducerNext(producer, arg);
        case PBatch =>
          var rest := arg - producer.count + 1;
          producer := producer.(n := if draw <= rest then draw else rest, i := 0);
          producer := ProducerNext(producer, arg);
        case PWait =>
          if full == 0 { return false; }
          full := full - 1;
          producer := producer.(pc := PStore);
        case PStore =>
          ring[head] := producer.count;
          producer := producer.(count := producer.count + 1, pc := PHead);
        case PHead =>
          head := (head + 1) % ring.Length;
          producer := producer.(pc := PLoad);
        case PLoad =>
          producer := producer.(reg := size, pc := PWrite);
        case PWrite =>
          size := producer.reg + 1;
          producer := producer.(pc := PSignal);
        case PSignal =>
          empty := empty + 1;
          producer := ProducerNext(producer.(i := producer.i + 1), arg);
        case PDone =>
          moved := false;
      }
    }

    method RunConsumer(draw: nat) returns (moved: bool)
      requires InRange(Current())
      modifies this
      ensures moved == Step(old(Current()), ConsumerTurn(draw)).Some?
      ensures Current() == if moved then Step(old(Current()), ConsumerTurn(draw)).value else old(Current())
    {
      moved := true;
      match consumer.pc {
        case CUnborn =>
          moved := false;
        case CBatch =>
          var rest := arg - consumer.out;
          consumer := consumer.(n := if draw <= rest then draw else rest, i := 0);
          consumer := ConsumerNext(consumer, arg);
        case CWait =>
          if empty == 0 { return false; }
          empty := empty - 1;
          consumer := consumer.(pc := CRead);
        case CRead =>
          consumer := consumer.(out := ring[tail], pc := CTail);
          taken := taken + [ring[tail]];
        case CTail =>
          tail := (tail + 1) % ring.Length;
          consumer := consumer.(pc := CLoad);
        case CLoad =>
          consumer := consumer.(reg := size, pc := CWrite);
        case CWrite =>
          size := consumer.reg - 1;
          consumer := consumer.(pc := CSignal);
        case CSignal =>
          full := full + 1;
          consumer := ConsumerNext(consumer.(i := consumer.i + 1), arg);
        case CDone =>
          moved := false;
      }
    }
  }
}

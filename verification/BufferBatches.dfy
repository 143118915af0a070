/** The batches of buffer.c and the end of its runs: how many items follow one draw, and that only
    empty draws can keep the program going for ever. */
module BufferBatches {
  import opened Options
  import opened Buffer
  import Modular

  /** A run with its turns. */
  ghost predicate TurnAt(run: seq<State>, turns: seq<Turn>, n: nat)
    requires n < |turns| < |run|
  {
    CanStep(run[n], turns[n]) && run[n + 1] == Step(run[n], turns[n]).value
  }

  ghost predicate IsTrace(slots: nat, arg: int, run: seq<State>, turns: seq<Turn>) {
    && |run| == |turns| + 1 && |run[0].ring| == slots > 0 && run[0] == Init(slots, arg, run[0].ring)
    && forall n: nat :: n < |turns| ==> TurnAt(run, turns, n)
  }

  lemma TraceInv(slots: nat, arg: int, run: seq<State>, turns: seq<Turn>, n: nat)
    requires IsTrace(slots, arg, run, turns) && n < |run|
    ensures Inv(run[n]) && run[n].arg == arg && |run[n].ring| == slots
  {
    forall i | 0 <= i < |run| - 1 ensures Next(run[i], run[i + 1]) { assert TurnAt(run, turns, i); }
    RunInv(slots, arg, run, n);
  }

  // ---- One batch ---------------------------------------------------------------------------

  /** The producer draws in this turn. */
  predicate ProducerDraws(s: State, t: Turn) { t.ProducerTurn? && s.producer.pc == PBatch }

  predicate ConsumerDraws(s: State, t: Turn) { t.ConsumerTurn? && s.consumer.pc == CBatch }

  /** Turn n as part of a trace. */
  lemma TurnOf(slots: nat, arg: int, run: seq<State>, turns: seq<Turn>, n: nat)
    requires IsTrace(slots, arg, run, turns) && n < |turns|
    ensures Inv(run[n]) && run[n].arg == arg && TurnAt(run, turns, n)
  {
    TraceInv(slots, arg, run, turns, n);
  }

  /** Within a batch of n items that began with `base` produced. */
  predicate InBatch(s: State, n: int, base: int) {
    s.producer.pc != PFork && s.producer.n == n && Produced(s) == base + s.producer.i + B(Stored(s.producer))
  }

  lemma BatchStep(slots: nat, arg: int, run: seq<State>, turns: seq<Turn>, k: nat, n: int, base: int)
    requires IsTrace(slots, arg, run, turns) && k < |turns|
    requires InBatch(run[k], n, base) && !ProducerDraws(run[k], turns[k])
    ensures InBatch(run[k + 1], n, base)
  {
    TurnOf(slots, arg, run, turns, k);
  }

  lemma BatchBegins(slots: nat, arg: int, run: seq<State>, turns: seq<Turn>, k: nat)
    requires IsTrace(slots, arg, run, turns) && k < |turns| && ProducerDraws(run[k], turns[k])
    ensures InBatch(run[k + 1], Min(turns[k].draw, arg - Produced(run[k])), Produced(run[k]))
  {
    TurnOf(slots, arg, run, turns, k);
  }

  /** No draw of the producer between the turns a and b. */
  ghost predicate OneBatch(run: seq<State>, turns: seq<Turn>, a: nat, b: nat)
    requires b <= |turns| < |run|
  {
    forall n: nat :: a < n < b ==> !ProducerDraws(run[n], turns[n])
  }

  lemma {:induction false} BatchGoesOn(slots: nat, arg: int, run: seq<State>, turns: seq<Turn>, a: nat, b: nat,
                                       n: int, base: int)
    requires IsTrace(slots, arg, run, turns) && a < b < |run| && OneBatch(run, turns, a, b)
    requires InBatch(run[a + 1], n, base)
    ensures InBatch(run[b], n, base)
  {
    if b == a + 1 {
    } else {
      BatchGoesOn(slots, arg, run, turns, a, b - 1, n, base);
      BatchStep(slots, arg, run, turns, b - 1, n, base);
    }
  }

  /** Within a batch of n items that began with `base` consumed. */
  predicate InTake(s: State, n: int, base: int) {
    s.consumer.pc != CUnborn && s.consumer.n == n && Consumed(s) == base + s.consumer.i + B(Fetched(s.consumer))
  }

  lemma TakeStep(slots: nat, arg: int, run: seq<State>, turns: seq<Turn>, k: nat, n: int, base: int)
    requires IsTrace(slots, arg, run, turns) && k < |turns|
    requires InTake(run[k], n, base) && !ConsumerDraws(run[k], turns[k])
    ensures InTake(run[k + 1], n, base)
  {
    TurnOf(slots, arg, run, turns, k);
  }

  lemma TakeBegins(slots: nat, arg: int, run: seq<State>, turns: seq<Turn>, k: nat)
    requires IsTrace(slots, arg, run, turns) && k < |turns| && ConsumerDraws(run[k], turns[k])
    ensures InTake(run[k + 1], Min(turns[k].draw, arg - Consumed(run[k])), Consumed(run[k]))
  {
    TurnOf(slots, arg, run, turns, k);
  }

  /** No draw of the consumer between the turns a and b. */
  ghost predicate OneTake(run: seq<State>, turns: seq<Turn>, a: nat, b: nat)
    requires b <= |turns| < |run|
  {
    forall n: nat :: a < n < b ==> !ConsumerDraws(run[n], turns[n])
  }

  lemma {:induction false} TakeGoesOn(slots: nat, arg: int, run: seq<State>, turns: seq<Turn>, a: nat, b: nat,
                                       n: int, base: int)
    requires IsTrace(slots, arg, run, turns) && a < b < |run| && OneTake(run, turns, a, b)
    requires InTake(run[a + 1], n, base)
    ensures InTake(run[b], n, base)
  {
    if b == a + 1 {
    } else {
      TakeGoesOn(slots, arg, run, turns, a, b - 1, n, base);
      TakeStep(slots, arg, run, turns, b - 1, n, base);
    }
  }

  /** However the threads interleave: by the time the producer draws again or ends, it has put as
      many items as it drew, or all that were left. */
  lemma BatchIsProduced(slots: nat, arg: int, run: seq<State>, turns: seq<Turn>, a: nat, b: nat)
    requires IsTrace(slots, arg, run, turns) && a < b < |run| && ProducerDraws(run[a], turns[a])
    requires OneBatch(run, turns, a, b)
    requires run[b].producer.pc == PBatch || run[b].producer.pc == PDone
    ensures var rest := arg - Produced(run[a]);
            Produced(run[b]) == Produced(run[a]) + if turns[a].draw <= rest then turns[a].draw else rest
  {
    var n := Min(turns[a].draw, arg - Produced(run[a]));
    BatchBegins(slots, arg, run, turns, a);
    BatchGoesOn(slots, arg, run, turns, a, b, n, Produced(run[a]));
    TraceInv(slots, arg, run, turns, a);
    BatchEnds(slots, arg, run, turns, b);
  }

  lemma TakenIsDrawn(slots: nat, arg: int, run: seq<State>, turns: seq<Turn>, a: nat, b: nat)
    requires IsTrace(slots, arg, run, turns) && a < b < |run| && ConsumerDraws(run[a], turns[a])
    requires OneTake(run, turns, a, b)
    requires run[b].consumer.pc == CBatch || run[b].consumer.pc == CDone
    ensures var rest := arg - Consumed(run[a]);
            Consumed(run[b]) == Consumed(run[a]) + if turns[a].draw <= rest then turns[a].draw else rest
  {
    var n := Min(turns[a].draw, arg - Consumed(run[a]));
    TakeBegins(slots, arg, run, turns, a);
    TakeGoesOn(slots, arg, run, turns, a, b, n, Consumed(run[a]));
    TraceInv(slots, arg, run, turns, a);
    BatchEnds(slots, arg, run, turns, b);
  }

  /** A loop that has ended has gone through its whole batch. */
  ghost predicate WholeBatches(s: State) {
    && (s.producer.pc == PBatch || s.producer.pc == PDone ==> s.producer.i == s.producer.n)
    && (s.consumer.pc == CBatch || s.consumer.pc == CDone ==> s.consumer.i == s.consumer.n)
    && s.producer.i <= s.producer.n && s.consumer.i <= s.consumer.n
  }

  lemma WholeStep(s: State, t: Turn)
    requires Inv(s) && WholeBatches(s) && CanStep(s, t)
    ensures WholeBatches(Step(s, t).value)
  {}

  lemma {:induction false} BatchEnds(slots: nat, arg: int, run: seq<State>, turns: seq<Turn>, n: nat)
    requires IsTrace(slots, arg, run, turns) && n < |run|
    ensures WholeBatches(run[n])
  {
    if n == 0 {
    } else {
      BatchEnds(slots, arg, run, turns, n - 1);
      TraceInv(slots, arg, run, turns, n - 1);
      assert TurnAt(run, turns, n - 1);
      WholeStep(run[n - 1], turns[n - 1]);
    }
  }

  // ---- The end of a run ---------------------------------------------------------------------

  function Positive(n: int): nat { if n < 0 then 0 else n }

  function ProducerRank(p: Producer): nat {
    match p.pc
    case PFork => 3
    case PBatch => 2
    case PWait => 1
    case PStore => 0
    case PHead => 9
    case PLoad => 8
    case PWrite => 7
    case PSignal => 6
    case PDone => 0
  }

  function ConsumerRank(c: Consumer): nat {
    match c.pc
    case CUnborn => 3
    case CBatch => 2
    case CWait => 1
    case CRead => 0
    case CTail => 9
    case CLoad => 8
    case CWrite => 7
    case CSignal => 6
    case CDone => 0
  }

  /** Ten for each item still to be put or taken, and the way to the next one. */
  function Work(s: State): nat {
    10 * Positive(s.arg - Produced(s)) + ProducerRank(s.producer)
    + 10 * Positive(s.arg - Consumed(s)) + ConsumerRank(s.consumer)
  }

  /** A thread draws nothing. */
  predicate EmptyDraw(s: State, t: Turn) {
    t.draw == 0 && (ProducerDraws(s, t) || ConsumerDraws(s, t))
  }

  lemma ProducerWorks(s: State, draw: nat)
    requires Inv(s) && ProducerStep(s, draw).Some?
    ensures var s' := ProducerStep(s, draw).value;
            if EmptyDraw(s, ProducerTurn(draw)) then Work(s') == Work(s) else Work(s') < Work(s)
  {}

  lemma ConsumerWorks(s: State, draw: nat)
    requires Inv(s) && ConsumerStep(s, draw).Some?
    ensures var s' := ConsumerStep(s, draw).value;
            if EmptyDraw(s, ConsumerTurn(draw)) then Work(s') == Work(s) else Work(s') < Work(s)
  {
    if s.consumer.pc == CRead { assert Holds(s, Consumed(s)); }
  }

  /** The turns in which something is done. */
  function Working(run: seq<State>, turns: seq<Turn>, n: nat): nat
    requires n <= |turns| < |run|
  {
    if n == 0 then 0
    else Working(run, turns, n - 1) + if EmptyDraw(run[n - 1], turns[n - 1]) then 0 else 1
  }

  lemma {:induction false} WorkIsDone(slots: nat, arg: int, run: seq<State>, turns: seq<Turn>, n: nat)
    requires IsTrace(slots, arg, run, turns) && n < |run|
    ensures Working(run, turns, n) + Work(run[n]) <= Work(run[0])
  {
    if n == 0 {
    } else {
      WorkIsDone(slots, arg, run, turns, n - 1);
      TraceInv(slots, arg, run, turns, n - 1);
      assert TurnAt(run, turns, n - 1);
      if turns[n - 1].ProducerTurn? {
        ProducerWorks(run[n - 1], turns[n - 1].draw);
      } else {
        ConsumerWorks(run[n - 1], turns[n - 1].draw);
      }
    }
  }

  /** For every ring size, item count and interleaving: but for empty draws a run has at most
      20 * arg + 6 steps. So if no draw is empty, every run ends, and by StuckMeansAllConsumed it
      ends with all items consumed. */
  lemma RunsEndButForEmptyDraws(slots: nat, arg: int, run: seq<State>, turns: seq<Turn>)
    requires IsTrace(slots, arg, run, turns)
    ensures Working(run, turns, |turns|) <= 20 * (if arg < 0 then 0 else arg) + 6
    ensures (forall n :: 0 <= n < |turns| ==> turns[n].draw > 0) ==>
              |turns| <= 20 * (if arg < 0 then 0 else arg) + 6
  {
    WorkIsDone(slots, arg, run, turns, |turns|);
    if forall n :: 0 <= n < |turns| ==> turns[n].draw > 0 { AllWork(run, turns, |turns|); }
  }

  lemma {:induction false} AllWork(run: seq<State>, turns: seq<Turn>, n: nat)
    requires n <= |turns| < |run| && forall i :: 0 <= i < |turns| ==> turns[i].draw > 0
    ensures Working(run, turns, n) == n
  {
    if n == 0 {
    } else {
      AllWork(run, turns, n - 1);
    }
  }
}

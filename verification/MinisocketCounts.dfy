/** When the fragments a sender has counted are those the peer has: the exact conditions for
    every run over channels that may lose packets, and what the handler of minisocket.c would
    have to test to meet them. */
module MinisocketCounts {
  import opened Options
  import opened Minisocket
  import opened MinisocketStream
  import opened MinisocketResults

  // ---- Runs with their actions ----------------------------------------------------------

  /** An action and the end at which it happens: false for near, true for far. */
  type Act = (bool, Action)

  ghost predicate TraceStep(n: Net, act: Act, n': Net) {
    StepNear(n.View(act.0), act.1) == Some(n'.View(act.0))
  }

  /** The k-th action leads from the k-th state to the next. */
  ghost predicate TraceAt(run: seq<Net>, acts: seq<Act>, k: nat)
    requires k < |acts| < |run|
  {
    TraceStep(run[k], acts[k], run[k + 1])
  }

  ghost predicate IsTrace(run: seq<Net>, acts: seq<Act>) {
    && |run| == |acts| + 1 && Initial(run[0])
    && forall k: nat :: k < |acts| ==> TraceAt(run, acts, k)
  }

  predicate LossFree(acts: seq<Act>) {
    forall k :: 0 <= k < |acts| ==> acts[k].1 != Lose
  }

  lemma TraceNext(n: Net, act: Act, n': Net, lossless: bool)
    requires TraceStep(n, act, n') && (lossless ==> act.1 != Lose)
    ensures Next(n, n', lossless)
  {
    assert StepNear(n.View(act.0), act.1) == Some(n'.View(act.0));
  }

  lemma TraceInv(run: seq<Net>, acts: seq<Act>, lossless: bool, k: nat)
    requires IsTrace(run, acts) && (lossless ==> LossFree(acts)) && k < |run|
    ensures Inv(run[k], lossless)
  {
    forall i: nat | i + 1 < |run| ensures NextAt(lossless, run, i) {
      assert TraceAt(run, acts, i);
      TraceNext(run[i], acts[i], run[i + 1], lossless);
    }
    RunInv(lossless, run, k);
  }

  // ---- Skipping a fragment -----------------------------------------------------------------

  /** The handler takes a control packet for the next packet in order. */
  predicate Skips(o: Endpoint, p: Packet) {
    Accepts(o, p) && p.data == "" && p.number > o.ack
  }

  /** The receiver at the far end of this direction skips the numbers behind its ack. */
  ghost predicate SkipsAt(n: Net, act: Act, flip: bool) {
    act == (flip, Deliver) && n.View(flip).out != [] && Skips(n.View(flip).far, n.View(flip).out[0])
  }

  /** The j-th piece of data delivered is the j-th fragment, under its number. */
  ghost predicate InPlace(ds: seq<(int, string)>, issued: seq<string>, j: nat) {
    j < |ds| && j < |issued| && ds[j] == (j + 2, issued[j])
  }

  /** Every fragment up to number c has been delivered, in its place. */
  ghost predicate AllUpTo(ds: seq<(int, string)>, c: int, issued: seq<string>) {
    forall j: nat :: j < c - 1 ==> InPlace(ds, issued, j)
  }

  lemma {:induction false} NumbersRiseFrom(ds: seq<(int, string)>, ack: int, issued: seq<string>, j: nat)
    requires DeliveredOk(ds, ack, issued, false) && j < |ds|
    ensures j + 2 <= ds[j].0
  {
    if j == 0 {
    } else {
      NumbersRiseFrom(ds, ack, issued, j - 1);
    }
  }

  lemma {:induction false} NumbersRiseTo(ds: seq<(int, string)>, ack: int, issued: seq<string>, j: nat)
    requires DeliveredOk(ds, ack, issued, false) && j < |ds|
    ensures ds[j].0 <= ack - (|ds| - 1 - j)
    decreases |ds| - j
  {
    if j + 1 < |ds| { NumbersRiseTo(ds, ack, issued, j + 1); }
  }

  lemma NoMoreThanAck(ds: seq<(int, string)>, ack: int, issued: seq<string>)
    requires DeliveredOk(ds, ack, issued, false) && ack >= 1
    ensures |ds| <= ack - 1
  {
    if |ds| > 0 { NumbersRiseFrom(ds, ack, issued, |ds| - 1); }
  }

  /** Nothing is missing up to the ack exactly when there is one piece of data for each number. */
  lemma CompleteExactly(ds: seq<(int, string)>, ack: int, issued: seq<string>)
    requires DeliveredOk(ds, ack, issued, false) && ack >= 1
    ensures AllUpTo(ds, ack, issued) <==> |ds| == ack - 1
  {
    NoMoreThanAck(ds, ack, issued);
    if |ds| == ack - 1 {
      forall j: nat | j < ack - 1 ensures InPlace(ds, issued, j) {
        NumbersRiseFrom(ds, ack, issued, j);
        NumbersRiseTo(ds, ack, issued, j);
      }
    } else {
      assert !InPlace(ds, issued, ack - 2);
    }
  }

  // ---- One step of one direction ---------------------------------------------------------------

  /** A receiver takes nothing, takes the next fragment, or skips. */
  ghost predicate Received(o: Endpoint, issued: seq<string>, o': Endpoint, skips: bool) {
    if o'.recv.delivered == o.recv.delivered then
      o.ack <= o'.ack && (skips <==> o.ack < o'.ack)
    else
      && !skips && o'.ack == o.ack + 1
      && 0 <= o.ack - 1 < |issued| && o'.recv.delivered == o.recv.delivered + [(o.ack + 1, issued[o.ack - 1])]
  }

  lemma HandleReceives(o: Endpoint, p: Packet, strict: bool, issued: seq<string>)
    requires o.state == Connected && o.ack <= p.number && PacketOk(p, issued)
    ensures Received(o, issued, Handle(o, p, strict).0, Skips(o, p))
  {
    HandleShape(o, p, strict);
    EnqueueDelivers(o.recv, p);
  }

  lemma DeliverReceives(n: Net)
    requires Inv(n, false) && n.out != []
    ensures Received(n.far, n.near.send.issued, Handle(n.far, n.out[0], n.strict).0, Skips(n.far, n.out[0]))
  {
    HeadFacts(n, false);
    HandleReceives(n.far, n.out[0], n.strict, n.near.send.issued);
  }

  /** What an action at the near end does to the far receiver, and to the near one. */
  lemma NearActs(n: Net, a: Action, n': Net)
    requires Inv(n, false) && StepNear(n, a) == Some(n')
    ensures Received(n.far, n.near.send.issued, n'.far, a == Deliver && n.out != [] && Skips(n.far, n.out[0]))
    ensures n'.near.ack == n.near.ack && n'.near.recv.delivered == n.near.recv.delivered
  {
    if a == Deliver {
      DeliverReceives(n);
      DeliverShape(n, n');
    } else {
      NothingReceived(n, a, n');
    }
  }

  lemma DeliverShape(n: Net, n': Net)
    requires StepNear(n, Deliver) == Some(n')
    ensures n.out != [] && n'.far == Handle(n.far, n.out[0], n.strict).0 && n'.near == n.near
  {}

  lemma NothingReceived(n: Net, a: Action, n': Net)
    requires StepNear(n, a) == Some(n') && a != Deliver
    ensures n'.far == n.far
    ensures n'.near.ack == n.near.ack && n'.near.recv.delivered == n.near.recv.delivered
  {}

  lemma OtherView(n: Net, flip: bool)
    ensures n.View(flip).far == n.View(!flip).near && n.View(flip).near == n.View(!flip).far
  {}

  /** The same, seen in either direction. */
  lemma SeenFrom(n: Net, act: Act, n': Net, flip: bool)
    requires var m, m' := n.View(act.0), n'.View(act.0);
             && Received(m.far, m.near.send.issued, m'.far, act.1 == Deliver && m.out != [] && Skips(m.far, m.out[0]))
             && m'.near.ack == m.near.ack && m'.near.recv.delivered == m.near.recv.delivered
    ensures Received(n.View(flip).far, n.View(flip).near.send.issued, n'.View(flip).far, SkipsAt(n, act, flip))
  {
    if act.0 != flip {
      OtherView(n, flip);
      OtherView(n', flip);
    }
  }

  lemma DirectionStep(n: Net, act: Act, n': Net, flip: bool)
    requires Inv(n, false) && TraceStep(n, act, n')
    ensures Received(n.View(flip).far, n.View(flip).near.send.issued, n'.View(flip).far, SkipsAt(n, act, flip))
  {
    FlipInv(n, act.0, false);
    NearActs(n.View(act.0), act.1, n'.View(act.0));
    SeenFrom(n, act, n', flip);
  }

  lemma IssuedGrow(n: Net, act: Act, n': Net, flip: bool)
    requires Inv(n, false) && TraceStep(n, act, n')
    ensures n.View(flip).near.send.issued <= n'.View(flip).near.send.issued
  {
    FlipInv(n, act.0, false);
    StepProgress(n.View(act.0), act.1);
  }

  // ---- Which fragments a receiver has ---------------------------------------------------------

  lemma ReceiverNext(run: seq<Net>, acts: seq<Act>, k: nat, flip: bool)
    requires IsTrace(run, acts) && k < |acts|
    ensures var n, n' := run[k].View(flip), run[k + 1].View(flip);
            && Received(n.far, n.near.send.issued, n'.far, SkipsAt(run[k], acts[k], flip))
            && n.near.send.issued <= n'.near.send.issued
            && DeliveredOk(n.far.recv.delivered, n.far.ack, n.near.send.issued, false)
  {
    TraceInv(run, acts, false, k);
    assert TraceAt(run, acts, k);
    DirectionStep(run[k], acts[k], run[k + 1], flip);
    IssuedGrow(run[k], acts[k], run[k + 1], flip);
    FlipInv(run[k], flip, false);
  }

  lemma {:induction false} AckAtLeastOne(run: seq<Net>, acts: seq<Act>, k: nat, flip: bool)
    requires IsTrace(run, acts) && k < |run|
    ensures run[k].View(flip).far.ack >= 1
  {
    if k == 0 {
    } else {
      AckAtLeastOne(run, acts, k - 1, flip);
      ReceiverNext(run, acts, k - 1, flip);
    }
  }

  lemma {:induction false} AckGrows(run: seq<Net>, acts: seq<Act>, i: nat, k: nat, flip: bool)
    requires IsTrace(run, acts) && i <= k < |run|
    ensures 1 <= run[i].View(flip).far.ack <= run[k].View(flip).far.ack
  {
    if i < k {
      AckGrows(run, acts, i, k - 1, flip);
      ReceiverNext(run, acts, k - 1, flip);
    } else {
      AckAtLeastOne(run, acts, i, flip);
    }
  }

  /** The i-th action skips a number up to c. */
  ghost predicate SkipsBelow(run: seq<Net>, acts: seq<Act>, i: nat, flip: bool, c: int)
    requires i < |acts| < |run|
  {
    SkipsAt(run[i], acts[i], flip) && run[i].View(flip).far.ack < c
  }

  /** No number up to c has been skipped in the first k steps. */
  ghost predicate NoneSkipped(run: seq<Net>, acts: seq<Act>, k: nat, flip: bool, c: int)
    requires k <= |acts| < |run|
  {
    forall i: nat :: i < k ==> !SkipsBelow(run, acts, i, flip, c)
  }

  /** Numbers below the old ack are not touched by a step. */
  lemma OldNumbers(o: Endpoint, issued: seq<string>, o': Endpoint, issued': seq<string>, skips: bool, c: int)
    requires Received(o, issued, o', skips) && issued <= issued' && c <= o.ack
    requires DeliveredOk(o.recv.delivered, o.ack, issued, false)
    ensures AllUpTo(o.recv.delivered, c, issued) <==> AllUpTo(o'.recv.delivered, c, issued')
  {
    forall j: nat | j < c - 1
      ensures InPlace(o.recv.delivered, issued, j) <==> InPlace(o'.recv.delivered, issued', j)
    {}
  }

  /** The next number is in its place exactly when it is received behind all others. */
  lemma NewNumber(o: Endpoint, issued: seq<string>, o': Endpoint, issued': seq<string>, skips: bool, c: int)
    requires Received(o, issued, o', skips) && issued <= issued' && 1 <= o.ack < c <= o'.ack
    requires DeliveredOk(o.recv.delivered, o.ack, issued, false)
    ensures AllUpTo(o'.recv.delivered, c, issued') <==> !skips && AllUpTo(o.recv.delivered, o.ack, issued)
  {
    var ds, ds' := o.recv.delivered, o'.recv.delivered;
    NoMoreThanAck(ds, o.ack, issued);
    CompleteExactly(ds, o.ack, issued);
    if skips {
      assert !InPlace(ds', issued', c - 2);
    } else {
      OldNumbers(o, issued, o', issued', skips, o.ack);
      if |ds| == o.ack - 1 {
        assert InPlace(ds', issued', o.ack - 1);
      } else {
        assert !InPlace(ds', issued', o.ack - 1);
      }
    }
  }

  /** Every skip so far was below the present ack. */
  lemma EarlierSkip(run: seq<Net>, acts: seq<Act>, i: nat, k: nat, flip: bool, c: int)
    requires IsTrace(run, acts) && i < k < |run| && c >= run[k].View(flip).far.ack
    ensures SkipsBelow(run, acts, i, flip, c) <==> SkipsBelow(run, acts, i, flip, run[k].View(flip).far.ack)
  {
    ReceiverNext(run, acts, i, flip);
    AckGrows(run, acts, i + 1, k, flip);
  }

  /** One more step, for a number that the ack had reached before it and for one that it had not. */
  lemma OneStepMore(run: seq<Net>, acts: seq<Act>, k: nat, flip: bool, c: int)
    requires IsTrace(run, acts) && k < |acts| && c <= run[k + 1].View(flip).far.ack
    ensures var n, n' := run[k].View(flip), run[k + 1].View(flip);
            var before := AllUpTo(n.far.recv.delivered, Least(c, n.far.ack), n.near.send.issued);
            AllUpTo(n'.far.recv.delivered, c, n'.near.send.issued) <==> before && !SkipsBelow(run, acts, k, flip, c)
  {
    var n, n' := run[k].View(flip), run[k + 1].View(flip);
    ReceiverNext(run, acts, k, flip);
    AckAtLeastOne(run, acts, k, flip);
    var skips := SkipsAt(run[k], acts[k], flip);
    if c <= n.far.ack {
      OldNumbers(n.far, n.near.send.issued, n'.far, n'.near.send.issued, skips, c);
    } else {
      NewNumber(n.far, n.near.send.issued, n'.far, n'.near.send.issued, skips, c);
    }
  }

  function Least(a: int, b: int): int { if a <= b then a else b }

  /** Over channels that may lose packets: the receiver has every fragment up to number c, which
      its ack has reached, exactly when it has skipped none of them, that is, never taken a
      control packet for the next packet in order while its ack was below c. */
  lemma {:induction false} CompleteUnlessSkipped(run: seq<Net>, acts: seq<Act>, k: nat, flip: bool, c: int)
    requires IsTrace(run, acts) && k < |run| && c <= run[k].View(flip).far.ack
    ensures AllUpTo(run[k].View(flip).far.recv.delivered, c, run[k].View(flip).near.send.issued) <==>
            NoneSkipped(run, acts, k, flip, c)
  {
    if k == 0 {
      assert c <= 1;
    } else {
      var d := Least(c, run[k - 1].View(flip).far.ack);
      CompleteUnlessSkipped(run, acts, k - 1, flip, d);
      OneStepMore(run, acts, k - 1, flip, c);
      forall i: nat | i < k - 1 ensures SkipsBelow(run, acts, i, flip, c) <==> SkipsBelow(run, acts, i, flip, d) {
        if d != c { EarlierSkip(run, acts, i, k - 1, flip, c); }
      }
    }
  }

  // ---- Counting a fragment as sent ----------------------------------------------------------

  /** Every fragment the sender has counted is among the data its peer has accepted, in place. */
  ghost predicate CountIsRight(n: Net) {
    AllUpTo(n.far.recv.delivered, n.near.send.counted + 1, n.near.send.issued)
  }

  /** The sender counts a fragment that the peer's ack has not reached. */
  ghost predicate CountsEarly(n: Net, act: Act, flip: bool) {
    var e := n.View(flip).near;
    act == (flip, SenderResumes) && CanResume(e.send) && !e.send.timedOut && n.View(flip).far.ack < e.number
  }

  ghost predicate EarlyIn(run: seq<Net>, acts: seq<Act>, i: nat, flip: bool)
    requires i < |acts| < |run|
  {
    CountsEarly(run[i], acts[i], flip)
  }

  /** What a step does to the count at the near end, and that it leaves the far end's alone. */
  lemma NearCounts(n: Net, a: Action, n': Net)
    requires Inv(n, false) && StepNear(n, a) == Some(n')
    ensures n'.near.send.counted == n.near.send.counted +
            if a == SenderResumes && CanResume(n.near.send) && !n.near.send.timedOut then 1 else 0
    ensures a == SenderResumes && CanResume(n.near.send) ==>
            n.near.number == n.near.send.counted + 2 && n'.far.ack == n.far.ack
    ensures n'.far.send.counted == n.far.send.counted
  {
    NearEnd(n, false);
    if a == Deliver {
      HeadFacts(n, false);
      HandleShape(n.far, n.out[0], n.strict);
    }
  }

  lemma CountNext(n: Net, act: Act, n': Net, flip: bool)
    requires Inv(n, false) && TraceStep(n, act, n')
    ensures var (e, e') := (n.View(flip).near.send, n'.View(flip).near.send);
            && e.counted <= e'.counted <= e.counted + 1
            && (e.counted < n.View(flip).far.ack ==>
                (e'.counted < n'.View(flip).far.ack <==> !CountsEarly(n, act, flip)))
  {
    DirectionStep(n, act, n', flip);
    FlipInv(n, act.0, false);
    NearCounts(n.View(act.0), act.1, n'.View(act.0));
    if act.0 != flip {
      OtherView(n, flip);
      OtherView(n', flip);
    }
  }

  /** The sender has counted no further than the peer's ack. */
  ghost predicate CountedBelowAck(n: Net) {
    n.near.send.counted < n.far.ack
  }

  ghost predicate BelowAckAt(run: seq<Net>, i: nat, flip: bool)
    requires i < |run|
  {
    CountedBelowAck(run[i].View(flip))
  }

  ghost predicate RightAt(run: seq<Net>, i: nat, flip: bool)
    requires i < |run|
  {
    CountIsRight(run[i].View(flip))
  }

  lemma CountNextIn(run: seq<Net>, acts: seq<Act>, k: nat, flip: bool)
    requires IsTrace(run, acts) && k < |acts|
    ensures run[k].View(flip).near.send.counted <= run[k + 1].View(flip).near.send.counted
    ensures BelowAckAt(run, k, flip) ==> (BelowAckAt(run, k + 1, flip) <==> !EarlyIn(run, acts, k, flip))
  {
    TraceInv(run, acts, false, k);
    assert TraceAt(run, acts, k);
    CountNext(run[k], acts[k], run[k + 1], flip);
  }

  lemma CountStepGrows(run: seq<Net>, acts: seq<Act>, k: nat, flip: bool)
    requires IsTrace(run, acts) && k < |acts|
    ensures run[k].View(flip).near.send.counted <= run[k + 1].View(flip).near.send.counted
  {
    CountNextIn(run, acts, k, flip);
  }

  lemma {:induction false} CountGrows(run: seq<Net>, acts: seq<Act>, i: nat, k: nat, flip: bool)
    requires IsTrace(run, acts) && i <= k < |run|
    ensures run[i].View(flip).near.send.counted <= run[k].View(flip).near.send.counted
  {
    if i == k {
    } else {
      CountGrows(run, acts, i, k - 1, flip);
      CountStepGrows(run, acts, k - 1, flip);
    }
  }

  lemma {:induction false} NeverEarly(run: seq<Net>, acts: seq<Act>, k: nat, flip: bool)
    requires IsTrace(run, acts) && k < |run|
    ensures (forall i: nat :: i <= k ==> BelowAckAt(run, i, flip)) <==>
            (forall i: nat :: i < k ==> !EarlyIn(run, acts, i, flip))
  {
    if k == 0 {
      assert BelowAckAt(run, 0, flip);
    } else {
      NeverEarly(run, acts, k - 1, flip);
      CountNextIn(run, acts, k - 1, flip);
      assert BelowAckAt(run, k, flip) || !BelowAckAt(run, k - 1, flip) || EarlyIn(run, acts, k - 1, flip);
    }
  }

  lemma CountedTooFar(ds: seq<(int, string)>, ack: int, counted: nat, issued: seq<string>)
    requires DeliveredOk(ds, ack, issued, false) && 1 <= ack <= counted
    ensures !AllUpTo(ds, counted + 1, issued)
  {
    NoMoreThanAck(ds, ack, issued);
    assert !InPlace(ds, issued, counted - 1);
  }

  lemma DeliveredAt(run: seq<Net>, acts: seq<Act>, k: nat, flip: bool)
    requires IsTrace(run, acts) && k < |run|
    ensures var n := run[k].View(flip);
            DeliveredOk(n.far.recv.delivered, n.far.ack, n.near.send.issued, false) && n.far.ack >= 1
  {
    TraceInv(run, acts, false, k);
    FlipInv(run[k], flip, false);
    AckAtLeastOne(run, acts, k, flip);
  }

  /** In any state of any run the count is right exactly when it is below the peer's ack and none
      of the numbers counted has been skipped. */
  lemma CountIsRightExactly(run: seq<Net>, acts: seq<Act>, k: nat, flip: bool)
    requires IsTrace(run, acts) && k < |run|
    ensures RightAt(run, k, flip) <==>
            BelowAckAt(run, k, flip) && NoneSkipped(run, acts, k, flip, run[k].View(flip).near.send.counted + 1)
  {
    var n := run[k].View(flip);
    if BelowAckAt(run, k, flip) {
      CompleteUnlessSkipped(run, acts, k, flip, n.near.send.counted + 1);
    } else {
      DeliveredAt(run, acts, k, flip);
      CountedTooFar(n.far.recv.delivered, n.far.ack, n.near.send.counted, n.near.send.issued);
    }
  }

  lemma FewerSkipped(run: seq<Net>, acts: seq<Act>, i: nat, k: nat, flip: bool, c: int, d: int)
    requires IsTrace(run, acts) && i <= k < |run| && c <= d && NoneSkipped(run, acts, k, flip, d)
    ensures NoneSkipped(run, acts, i, flip, c)
  {
    forall j: nat | j < i ensures !SkipsBelow(run, acts, j, flip, c) {
      assert !SkipsBelow(run, acts, j, flip, d);
    }
  }

  /** Over channels that may lose packets, both ends sending: what a sender has counted as sent has
      reached its peer, in every state so far, exactly when the sender has never gone on without a
      time-out while its fragment was still under way, and the peer has skipped none of the
      fragments counted. */
  lemma CountsAreRight(run: seq<Net>, acts: seq<Act>, k: nat, flip: bool)
    requires IsTrace(run, acts) && k < |run|
    ensures (forall i: nat :: i <= k ==> RightAt(run, i, flip)) <==>
            && (forall i: nat :: i < k ==> !EarlyIn(run, acts, i, flip))
            && NoneSkipped(run, acts, k, flip, run[k].View(flip).near.send.counted + 1)
  {
    var c := run[k].View(flip).near.send.counted + 1;
    NeverEarly(run, acts, k, flip);
    CountIsRightExactly(run, acts, k, flip);
    forall i: nat | i <= k
      ensures RightAt(run, i, flip) ==> BelowAckAt(run, i, flip)
      ensures BelowAckAt(run, i, flip) && NoneSkipped(run, acts, k, flip, c) ==> RightAt(run, i, flip)
    {
      CountIsRightExactly(run, acts, i, flip);
      CountGrows(run, acts, i, k, flip);
      if NoneSkipped(run, acts, k, flip, c) {
        FewerSkipped(run, acts, i, k, flip, run[i].View(flip).near.send.counted + 1, c);
      }
    }
  }

  lemma NoSkipWithoutLoss(n: Net)
    requires Inv(n, true) && n.out != []
    ensures !Skips(n.far, n.out[0])
  {}

  /** Without losses only the first condition is left. */
  lemma CountsAreRightLossFree(run: seq<Net>, acts: seq<Act>, k: nat, flip: bool)
    requires IsTrace(run, acts) && LossFree(acts) && k < |run|
    ensures (forall i: nat :: i <= k ==> RightAt(run, i, flip)) <==>
            (forall i: nat :: i < k ==> !EarlyIn(run, acts, i, flip))
  {
    CountsAreRight(run, acts, k, flip);
    var c := run[k].View(flip).near.send.counted + 1;
    forall i: nat | i < k ensures !SkipsBelow(run, acts, i, flip, c) {
      TraceInv(run, acts, true, i);
      FlipInv(run[i], flip, true);
      if run[i].View(flip).out != [] { NoSkipWithoutLoss(run[i].View(flip)); }
    }
  }

  // ---- A test that would do ----------------------------------------------------------------------

  /** The handler lets the sender of e go on, as if its fragment had been acknowledged. */
  predicate Releases(e: Endpoint, p: Packet) {
    (e.send.pc == Blocked || e.send.pc == Woken) && Accepts(e, p) && p.kind == Ack
  }

  /** It does so only for a packet that acknowledges the fragment. */
  predicate Justified(e: Endpoint, p: Packet) {
    Releases(e, p) ==> p.ackNumber == e.number
  }

  predicate JustifiedAct(n: Net, act: Act) {
    var m := n.View(act.0);
    act.1 == Deliver && m.out != [] ==> Justified(m.far, m.out[0])
  }

  ghost predicate JustifiedIn(run: seq<Net>, acts: seq<Act>, k: nat)
    requires k < |acts| < |run|
  {
    JustifiedAct(run[k], acts[k])
  }

  /** No sender is ever released by a packet that does not acknowledge its fragment. */
  ghost predicate JustifiedTrace(run: seq<Net>, acts: seq<Act>) {
    IsTrace(run, acts) && forall k: nat :: k < |acts| ==> JustifiedIn(run, acts, k)
  }

  /** What is under way back to e acknowledges no more than o has, and e goes on only then. */
  ghost predicate AckedAt(e: Endpoint, o: Endpoint, back: seq<Packet>) {
    && (forall j :: 0 <= j < |back| ==> back[j].ackNumber <= o.ack)
    && (e.send.pc == Woken && !e.send.timedOut ==> o.ack >= e.number)
  }

  ghost predicate Acked(n: Net) {
    AckedAt(n.near, n.far, n.back) && AckedAt(n.far, n.near, n.out)
  }

  /** The receiver handles a packet: its ack can only grow, and the reply repeats it. */
  lemma ReaderHandles(e: Endpoint, o: Endpoint, p: Packet, back: seq<Packet>, strict: bool)
    requires AckedAt(e, o, back) && o.state == Connected && p.kind == Ack && o.ack <= p.number
    ensures var (f, reply) := Handle(o, p, strict); AckedAt(e, f, back + AsSeq(reply))
  {
    HandleShape(o, p, strict);
  }

  /** The sender handles a packet that releases it only if that is justified. */
  lemma SenderHandles(e: Endpoint, o: Endpoint, back: seq<Packet>, strict: bool)
    requires AckedAt(e, o, back) && e.state == Connected && back != [] && back[0].kind == Ack
    requires Justified(e, back[0])
    ensures AckedAt(Handle(e, back[0], strict).0, o, back[1..])
  {
    HandleShape(e, back[0], strict);
  }

  lemma SenderTransmits(e: Endpoint, o: Endpoint, out: seq<Packet>, back: seq<Packet>, mtu: nat)
    requires AckedAt(e, o, back) && AckedAt(o, e, out) && CanTransmit(e.send)
    ensures var (f, p) := Transmit(e, mtu); AckedAt(f, o, back) && AckedAt(o, f, out + [p])
  {}

  lemma JustifiedKeeps(n: Net, a: Action, n': Net)
    requires Inv(n, false) && Acked(n) && StepNear(n, a) == Some(n')
    requires a == Deliver && n.out != [] ==> Justified(n.far, n.out[0])
    ensures Acked(n')
  {
    match a
    case Deliver =>
      HeadFacts(n, false);
      ReaderHandles(n.near, n.far, n.out[0], n.back, n.strict);
      SenderHandles(n.far, n.near, n.out, n.strict);
    case TransmitFragment => SenderTransmits(n.near, n.far, n.out, n.back, n.mtu);
    case _ =>
  }

  lemma FlipAcked(n: Net, flip: bool)
    ensures Acked(n.View(flip)) <==> Acked(n)
  {}

  lemma InitAcked(n: Net)
    requires Initial(n)
    ensures Acked(n)
  {}

  lemma JustifiedNext(n: Net, act: Act, n': Net)
    requires Inv(n, false) && Acked(n) && TraceStep(n, act, n') && JustifiedAct(n, act)
    ensures Acked(n')
  {
    FlipInv(n, act.0, false);
    FlipAcked(n, act.0);
    JustifiedKeeps(n.View(act.0), act.1, n'.View(act.0));
    FlipAcked(n', act.0);
  }

  lemma JustifiedFrom(run: seq<Net>, acts: seq<Act>, k: nat)
    requires JustifiedTrace(run, acts) && k < |acts| && Acked(run[k])
    ensures Acked(run[k + 1])
  {
    TraceInv(run, acts, false, k);
    assert TraceAt(run, acts, k) && JustifiedIn(run, acts, k);
    JustifiedNext(run[k], acts[k], run[k + 1]);
  }

  lemma {:induction false} JustifiedInv(run: seq<Net>, acts: seq<Act>, k: nat)
    requires JustifiedTrace(run, acts) && k < |run|
    ensures Acked(run[k])
  {
    if k == 0 {
      InitAcked(run[0]);
    } else {
      JustifiedInv(run, acts, k - 1);
      JustifiedFrom(run, acts, k - 1);
    }
  }

  lemma AckedIsNotEarly(n: Net, act: Act, flip: bool)
    requires Acked(n)
    ensures !CountsEarly(n, act, flip)
  {
    FlipAcked(n, flip);
  }

  /** While only an acknowledgment of its own fragment releases a sender, with or without losses:
      the count is below the peer's ack, and it is right exactly when the peer has skipped none of
      the fragments counted; so without losses it is always right. */
  lemma CountedIsDelivered(run: seq<Net>, acts: seq<Act>, k: nat, flip: bool)
    requires JustifiedTrace(run, acts) && k < |run|
    ensures BelowAckAt(run, k, flip)
    ensures RightAt(run, k, flip) <==> NoneSkipped(run, acts, k, flip, run[k].View(flip).near.send.counted + 1)
    ensures LossFree(acts) ==> RightAt(run, k, flip)
  {
    forall i: nat | i < k ensures !EarlyIn(run, acts, i, flip) {
      JustifiedInv(run, acts, i);
      AckedIsNotEarly(run[i], acts[i], flip);
    }
    NeverEarly(run, acts, k, flip);
    CountIsRightExactly(run, acts, k, flip);
    if LossFree(acts) { CountsAreRightLossFree(run, acts, k, flip); }
  }

  // ---- One-way traffic -------------------------------------------------------------

  /** This end sends nothing. */
  predicate Silent(t: Sender) {
    t.pc == Idle && t.asked == "" && t.message == "" && t.issued == []
  }

  /** What comes from a silent end bears its first number and no data, so it is accepted only
      as an acknowledgment of the last number sent. */
  lemma SilentAcknowledges(n: Net)
    requires Inv(n, false) && n.out != [] && Silent(n.near.send) && n.far.ack >= 1
    ensures Justified(n.far, n.out[0])
  {
    OrderedBounds(n.out[0].number, n.out[1..], n.near.number, n.near.send.issued, false);
  }

  lemma OneWayAct(n: Net, act: Act)
    requires Inv(n, false) && Silent(n.far.send) && n.View(true).far.ack >= 1
    ensures JustifiedAct(n, act)
  {
    if act.0 && n.Flip().out != [] {
      FlipInv(n, true, false);
      SilentAcknowledges(n.Flip());
    }
  }

  /** With one-way traffic the test the handler makes is enough, with or without losses. */
  lemma OneWayIsJustified(run: seq<Net>, acts: seq<Act>)
    requires IsTrace(run, acts) && forall k :: 0 <= k < |run| ==> Silent(run[k].far.send)
    ensures JustifiedTrace(run, acts)
  {
    forall k: nat | k < |acts| ensures JustifiedIn(run, acts, k) {
      TraceInv(run, acts, false, k);
      AckAtLeastOne(run, acts, k, true);
      OneWayAct(run[k], acts[k]);
    }
  }

  /** So with one-way traffic the count is right exactly when nothing counted has been skipped, and
      always without losses. */
  lemma OneWayCounts(run: seq<Net>, acts: seq<Act>, k: nat)
    requires IsTrace(run, acts) && (forall i :: 0 <= i < |run| ==> Silent(run[i].far.send)) && k < |run|
    ensures RightAt(run, k, false) <==> NoneSkipped(run, acts, k, false, run[k].near.send.counted + 1)
    ensures LossFree(acts) ==> RightAt(run, k, false)
  {
    OneWayIsJustified(run, acts);
    CountedIsDelivered(run, acts, k, false);
  }
}

/** The threads that read from a minisocket, in every run over channels that may lose packets:
    none is forgotten, none waits beside data, and each gets as much as it may. */
module MinisocketReaders {
  import opened Options
  import opened Minisocket
  import opened MinisocketStream
  import opened MinisocketResults
  import opened MinisocketCounts

  function One(b: bool): nat { if b then 1 else 0 }

  /** How often receive has been called at one end, and how often it has returned. */
  function Called(acts: seq<Act>, flip: bool): nat {
    if acts == [] then 0 else Called(acts[..|acts| - 1], flip) + One(acts[|acts| - 1] == (flip, ReaderCalls))
  }

  function Returned(acts: seq<Act>, flip: bool): nat {
    if acts == [] then 0
    else
      var act := acts[|acts| - 1];
      Returned(acts[..|acts| - 1], flip) + One(act.0 == flip && act.1.ReaderTakes?)
  }

  /** The readers in receive: blocked in P, or past it. */
  function Inside(r: Reader): nat { r.blocked + r.woken }

  lemma HandleInside(e: Endpoint, p: Packet, strict: bool)
    ensures Inside(Handle(e, p, strict).0.recv) == Inside(e.recv)
  {}

  lemma InsideStep(n: Net, a: Action, n': Net)
    requires StepNear(n, a) == Some(n')
    ensures Inside(n'.near.recv) + One(a.ReaderTakes?) == Inside(n.near.recv) + One(a == ReaderCalls)
    ensures Inside(n'.far.recv) == Inside(n.far.recv)
  {
    if a == Deliver { HandleInside(n.far, n.out[0], n.strict); }
  }

  lemma InsideSeen(n: Net, act: Act, n': Net, flip: bool)
    requires TraceStep(n, act, n')
    ensures Inside(n'.View(flip).near.recv) + One(act.0 == flip && act.1.ReaderTakes?)
            == Inside(n.View(flip).near.recv) + One(act == (flip, ReaderCalls))
  {
    InsideStep(n.View(act.0), act.1, n'.View(act.0));
    if act.0 != flip {
      OtherView(n, flip);
      OtherView(n', flip);
    }
  }

  /** Every call of receive is still inside or has returned. */
  lemma {:induction false} ReadersAreCounted(run: seq<Net>, acts: seq<Act>, k: nat, flip: bool)
    requires IsTrace(run, acts) && k < |run|
    ensures Inside(run[k].View(flip).near.recv) + Returned(acts[..k], flip) == Called(acts[..k], flip)
  {
    if k == 0 {
    } else {
      ReadersAreCounted(run, acts, k - 1, flip);
      assert TraceAt(run, acts, k - 1);
      InsideSeen(run[k - 1], acts[k - 1], run[k], flip);
      assert acts[..k][..k - 1] == acts[..k - 1];
    }
  }

  lemma ServedAt(run: seq<Net>, acts: seq<Act>, k: nat, flip: bool)
    requires IsTrace(run, acts) && k < |run|
    ensures ReaderOk(run[k].View(flip).near.recv)
  {
    TraceInv(run, acts, false, k);
    FlipInv(run[k], flip, false);
    NearEnd(run[k].View(flip), false);
  }

  /** As long as a call of receive has not returned and data is buffered, exactly one reader can go
      on. When it does, it gets the first bytes buffered, as many as it asked for or all there are,
      and the rest stays. */
  lemma ReceiveReturns(run: seq<Net>, acts: seq<Act>, k: nat, flip: bool, maxLen: nat)
    requires IsTrace(run, acts) && k < |run|
    requires Called(acts[..k], flip) > Returned(acts[..k], flip) && run[k].View(flip).near.recv.buffer != []
    ensures var r := run[k].View(flip).near.recv;
            r.woken == 1 && StepNear(run[k].View(flip), ReaderTakes(maxLen)).Some?
    ensures var r := run[k].View(flip).near.recv;
            var r' := StepNear(run[k].View(flip), ReaderTakes(maxLen)).value.near.recv;
            var n := if maxLen < |Bytes(r.buffer)| then maxLen else |Bytes(r.buffer)|;
            r'.taken == r.taken + Bytes(r.buffer)[..n] && Bytes(r'.buffer) == Bytes(r.buffer)[n..]
  {
    ReadersAreCounted(run, acts, k, flip);
    ServedAt(run, acts, k, flip);
    var r := run[k].View(flip).near.recv;
    ReceiveConserves(r.buffer, maxLen);
    var (got, left) := Receive(r.buffer, maxLen);
    assert Bytes(r.buffer)[..|got|] == got && Bytes(r.buffer)[|got|..] == Bytes(left);
  }
}

/** What the byte stream guarantees: theorems about every run over channels that lose
    nothing and over channels that may lose packets. */
module MinisocketResults {
  import opened Options
  import opened Minisocket
  import opened MinisocketStream

  // ---- Loss-free channels ---------------------------------------------------------

  lemma {:induction false} ConcatPrefix(ss: seq<string>, k: nat)
    requires k <= |ss|
    ensures Concat(ss[..k]) <= Concat(ss)
    decreases |ss|
  {
    if k == |ss| {
      assert ss[..k] == ss;
    } else {
      var t := ss[..|ss| - 1];
      ConcatPrefix(t, k);
      assert t[..k] == ss[..k];
    }
  }

  lemma {:induction false} DatasAreIssued(ds: seq<(int, string)>, issued: seq<string>, k: nat)
    requires k <= |ds| && k <= |issued|
    requires forall j :: 0 <= j < k ==> ds[j].1 == issued[j]
    ensures Datas(ds[..k]) == Concat(issued[..k])
  {
    if k == 0 {
    } else {
      DatasAreIssued(ds, issued, k - 1);
      assert ds[..k][..k - 1] == ds[..k - 1];
      assert issued[..k][..k - 1] == issued[..k - 1];
    }
  }

  lemma SentIsAsked(t: Sender, mtu: nat)
    requires SenderOk(t, mtu)
    ensures Concat(t.issued) <= t.asked
  {
    var k := t.counted;
    if |t.issued| == k {
      assert t.issued[..k] == t.issued;
    } else {
      ConcatStep(t.issued, k);
      assert t.issued[..k + 1] == t.issued;
      assert t.issued[k] <= t.message[t.done..];
    }
  }

  lemma PrefixAt(e: Endpoint, wire: seq<Packet>, o: Endpoint, mtu: nat)
    requires EndOk(e, mtu) && EndOk(o, mtu) && Linked(e, wire, o, true)
    ensures Datas(o.recv.delivered) <= e.send.asked
  {
    OrderedBounds(o.ack, wire, e.number, e.send.issued, true);
    DeliveredPrefix(o.recv.delivered, o.ack, e.send.issued);
    SentIsAsked(e.send, mtu);
  }

  lemma DeliveredPrefix(ds: seq<(int, string)>, ack: int, issued: seq<string>)
    requires DeliveredOk(ds, ack, issued, true) && ack <= |issued| + 1
    ensures Datas(ds) <= Concat(issued)
  {
    DatasAreIssued(ds, issued, |ds|);
    assert ds[..|ds|] == ds;
    ConcatPrefix(issued, |ds|);
  }

  /** Over channels that lose nothing, with alarms going off at any time and traffic in
      both directions: the bytes returned to a reader followed by those still buffered are
      a prefix of the bytes handed to send at the other end. */
  lemma StreamIsPrefix(run: seq<Net>, k: nat, flip: bool)
    requires IsRun(true, run) && k < |run|
    ensures var n := run[k].View(flip);
            n.far.recv.taken + Bytes(n.far.recv.buffer) <= n.near.send.asked
  {
    RunInv(true, run, k);
    var n := run[k].View(flip);
    FlipInv(run[k], flip, true);
    PrefixAt(n.near, n.out, n.far, n.mtu);
  }

  // ---- Facts about one state ---------------------------------------------------------

  lemma HandleKeepsSend(e: Endpoint, p: Packet, strict: bool)
    requires e.state == Connected && p.kind == Ack && e.ack <= p.number
    ensures var f := Handle(e, p, strict).0;
            e.ack <= f.ack && f.send.issued == e.send.issued
  {
    HandleShape(e, p, strict);
  }

  /** What the invariant says about the packet at the head of a wire. */
  lemma HeadFacts(n: Net, gapless: bool)
    requires Inv(n, gapless) && n.out != []
    ensures n.out[0].kind == Ack && n.far.ack <= n.out[0].number
    ensures n.near.state == n.far.state == Connected
  {}

  lemma NearEnd(n: Net, gapless: bool)
    requires Inv(n, gapless)
    ensures EndOk(n.near, n.mtu)
  {}

  // ---- Channels that may lose packets -------------------------------------------------

  ghost predicate Progress(e: Endpoint, e': Endpoint) {
    e.ack <= e'.ack && e.send.issued <= e'.send.issued
  }

  lemma StepProgress(n: Net, a: Action)
    requires Inv(n, false) && StepNear(n, a).Some?
    ensures Progress(n.near, StepNear(n, a).value.near) && Progress(n.far, StepNear(n, a).value.far)
  {
    if a == Deliver {
      HeadFacts(n, false);
      HandleKeepsSend(n.far, n.out[0], n.strict);
    }
  }

  /** No step lowers an ack or changes a fragment already sent: what a number stands for is
      fixed when it is first used. */
  lemma AckNeverFalls(run: seq<Net>, k: nat)
    requires IsRun(false, run) && k + 1 < |run|
    ensures Progress(run[k].near, run[k + 1].near) && Progress(run[k].far, run[k + 1].far)
  {
    RunInv(false, run, k);
    assert NextAt(false, run, k);
    var flip, a :| StepNear(run[k].View(flip), a) == Some(run[k + 1].View(flip)) && (false ==> a != Lose);
    FlipInv(run[k], flip, false);
    StepProgress(run[k].View(flip), a);
  }

  /** ds lists some of the fragments, each under its own number, in order and at most once. */
  ghost predicate Subsequence(ds: seq<(int, string)>, issued: seq<string>) {
    && (forall j :: 0 <= j < |ds| ==> 0 <= ds[j].0 - 2 < |issued| && ds[j].1 == issued[ds[j].0 - 2])
    && (forall j, k :: 0 <= j < k < |ds| ==> ds[j].0 < ds[k].0)
  }

  lemma SubsequenceAt(n: Net)
    requires Inv(n, false)
    ensures Subsequence(n.far.recv.delivered, n.near.send.issued)
  {}

  /** Lossy channels, traffic in both directions: the data accepted is a subsequence of the
      fragments sent, in order and without duplicates. */
  lemma DeliveredIsSubsequence(run: seq<Net>, k: nat, flip: bool)
    requires IsRun(false, run) && k < |run|
    ensures Subsequence(run[k].View(flip).far.recv.delivered, run[k].View(flip).near.send.issued)
  {
    RunInv(false, run, k);
    FlipInv(run[k], flip, false);
    SubsequenceAt(run[k].View(flip));
  }

  lemma {:induction false} NumberFixesFragment(low: int, wire: seq<Packet>, high: int, issued: seq<string>, g: bool,
                                               j: nat)
    requires Ordered(low, wire, high, issued, g) && j < |wire|
    ensures PacketOk(wire[j], issued)
    decreases wire
  {
    if j == 0 {
    } else {
      NumberFixesFragment(wire[0].number, wire[1..], high, issued, g, j - 1);
    }
  }

  lemma FragmentIn(n: Net, j: nat)
    requires Inv(n, false) && j < |n.out|
    ensures PacketOk(n.out[j], n.near.send.issued)
  {
    NumberFixesFragment(n.far.ack, n.out, n.near.number, n.near.send.issued, false, j);
  }

  /** Every packet with data that is under way carries the fragment its number stands for;
      so all transmissions of one number carry the same fragment. */
  lemma RetransmissionsAgree(run: seq<Net>, k: nat, flip: bool, j: nat)
    requires IsRun(false, run) && k < |run| && j < |run[k].View(flip).out|
    ensures PacketOk(run[k].View(flip).out[j], run[k].View(flip).near.send.issued)
  {
    RunInv(false, run, k);
    FlipInv(run[k], flip, false);
    FragmentIn(run[k].View(flip), j);
  }

  // ---- The reading side -----------------------------------------------------------------

  /** In every run, with or without losses and for every sequence of lengths asked for: the
      bytes returned followed by those buffered are the bytes accepted from the peer. The
      buffer_has_stuff token is either left or in the hands of one reader exactly when
      something is buffered, so no reader stays blocked beside available data. */
  lemma ReadersAreServed(lossless: bool, run: seq<Net>, k: nat, flip: bool)
    requires IsRun(lossless, run) && k < |run|
    ensures var r := run[k].View(flip).near.recv;
            && r.taken + Bytes(r.buffer) == Datas(r.delivered)
            && r.token + r.woken == (if r.buffer != [] then 1 else 0)
            && (r.blocked > 0 && r.buffer != [] ==> r.woken == 1)
  {
    RunInv(lossless, run, k);
    FlipInv(run[k], flip, lossless);
    NearEnd(run[k].View(flip), lossless);
  }
}

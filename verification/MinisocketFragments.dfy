/** How minisocket_send cuts its messages into packets, in every run over channels that may lose
    packets: full packets up to the last one of a message, and no number used twice. */
module MinisocketFragments {
  import opened Options
  import opened Minisocket
  import opened MinisocketStream
  import opened MinisocketResults
  import opened MinisocketCounts

  /** A message in pieces of `mtu` bytes and one with the rest. */
  function Cut(message: string, mtu: nat): seq<string>
    requires mtu >= 1
  {
    if message == "" then []
    else if |message| <= mtu then [message]
    else [message[..mtu]] + Cut(message[mtu..], mtu)
  }

  /** How many packets of `mtu` bytes hold n bytes. */
  function Packets(n: nat, mtu: nat): int
    requires mtu >= 1
  {
    (n + mtu - 1) / mtu
  }

  lemma Times(a: int, b: int, d: nat)
    requires a <= b
    ensures a * d <= b * d
  {}

  lemma Quotient(x: int, q: int, d: nat)
    requires q * d <= x < q * d + d
    ensures x / d == q
  {
    var p := x / d;
    assert p * d <= x < p * d + d;
    if p < q { Times(p + 1, q, d); }
    if q < p { Times(q + 1, p, d); }
  }

  lemma PacketsStep(n: nat, mtu: nat)
    requires mtu >= 1
    ensures Packets(n + mtu, mtu) == Packets(n, mtu) + 1
    ensures Packets(0, mtu) == 0
    ensures 1 <= n <= mtu ==> Packets(n, mtu) == 1
  {
    var q := Packets(n, mtu);
    assert (q + 1) * mtu == q * mtu + mtu;
    Quotient(n + mtu + mtu - 1, q + 1, mtu);
    Quotient(mtu - 1, 0, mtu);
    if 1 <= n <= mtu { Quotient(n + mtu - 1, 1, mtu); }
  }

  lemma CutLonger(message: string, mtu: nat)
    requires 1 <= mtu < |message|
    ensures Cut(message, mtu) == [message[..mtu]] + Cut(message[mtu..], mtu)
  {}

  lemma {:induction false} CutLength(message: string, mtu: nat)
    requires mtu >= 1
    ensures |Cut(message, mtu)| == Packets(|message|, mtu)
    decreases |message|
  {
    if |message| <= mtu {
      PacketsStep(|message|, mtu);
    } else {
      CutLonger(message, mtu);
      CutLength(message[mtu..], mtu);
      PacketsStep(|message| - mtu, mtu);
    }
  }

  /** All of these are full but perhaps the last, and none is empty. */
  ghost predicate Full(cut: seq<string>, mtu: nat) {
    && (forall j :: 0 <= j < |cut| - 1 ==> |cut[j]| == mtu)
    && (forall j :: 0 <= j < |cut| ==> 1 <= |cut[j]| <= mtu)
  }

  lemma FullCons(s: string, cut: seq<string>, mtu: nat)
    requires |s| == mtu >= 1 && Full(cut, mtu)
    ensures Full([s] + cut, mtu)
  {}

  /** Of a message cut into pieces all but the last are full, and together they are the message. */
  lemma {:induction false} CutIsFull(message: string, mtu: nat)
    requires mtu >= 1
    ensures Full(Cut(message, mtu), mtu) && Concat(Cut(message, mtu)) == message
    decreases |message|
  {
    if message == "" {
    } else if |message| <= mtu {
      ConcatCons(message, []);
      assert [message] + [] == [message];
    } else {
      var rest := message[mtu..];
      CutLonger(message, mtu);
      CutIsFull(rest, mtu);
      FullCons(message[..mtu], Cut(rest, mtu), mtu);
      ConcatCons(message[..mtu], Cut(rest, mtu));
    }
  }

  lemma {:induction false} ConcatCons(s: string, ss: seq<string>)
    ensures Concat([s] + ss) == s + Concat(ss)
  {
    if ss == [] {
      assert [s] + ss == [s] && [s][..0] == [];
      assert Concat([s]) == "" + s == s + "";
    } else {
      var n := |ss| - 1;
      ConcatCons(s, ss[..n]);
      assert ([s] + ss)[..n + 1] == [s] + ss[..n];
      Associative(s, Concat(ss[..n]), ss[n]);
    }
  }

  /** A packet carries as much of what remains as fits. */
  lemma FragmentIsFull(e: Endpoint, mtu: nat)
    requires CanTransmit(e.send) && mtu >= 1
    ensures var rest := |e.send.message| - e.send.done;
            var length := if mtu < rest then mtu else rest;
            Transmit(e, mtu).1.data == e.send.message[e.send.done..e.send.done + length]
    ensures Cut(e.send.message[e.send.done..], mtu)[0] == Transmit(e, mtu).1.data
  {
    var rest := e.send.message[e.send.done..];
    assert |rest| > mtu ==> rest[..mtu] == e.send.message[e.send.done..e.send.done + mtu];
  }

  // ---- The plan of a sender ------------------------------------------------------------------

  /** What has been counted as sent, and the pieces of what is left. */
  function Plan(t: Sender, mtu: nat): seq<string>
    requires mtu >= 1
  {
    if t.counted <= |t.issued| && t.done <= |t.message| then t.issued[..t.counted] + Cut(t.message[t.done..], mtu)
    else []
  }

  /** The pieces of the message that an action begins to send. */
  function Pieces(a: Action, mtu: nat): seq<string>
    requires mtu >= 1
  {
    if a.StartSending? then Cut(a.message, mtu) else []
  }

  /** The pieces of all messages that one end has been asked to send. */
  function Asked(acts: seq<Act>, flip: bool, mtu: nat): seq<string>
    requires mtu >= 1
  {
    if acts == [] then []
    else
      var (side, a) := acts[|acts| - 1];
      Asked(acts[..|acts| - 1], flip, mtu) + if side == flip then Pieces(a, mtu) else []
  }

  lemma StartPlans(t: Sender, m: string, mtu: nat)
    requires SenderOk(t, mtu) && t.pc == Idle && mtu >= 1
    ensures Plan(StartSend(t, m), mtu) == Plan(t, mtu) + Cut(m, mtu)
  {
    assert t.message[t.done..] == "" && m[0..] == m;
  }

  lemma CountPlans(t: Sender, mtu: nat)
    requires SenderOk(t, mtu) && CanResume(t) && mtu >= 1
    ensures Plan(Resume(t, mtu), mtu) == Plan(t, mtu)
  {
    if t.timedOut {
    } else {
      var rest := t.message[t.done..];
      var next := Fragment(t, mtu);
      assert t.issued[..t.counted + 1] == t.issued[..t.counted] + [next];
      if |rest| > mtu {
        assert next == rest[..mtu] && rest[mtu..] == t.message[t.done + mtu..];
      } else {
        assert next == rest && t.message[t.done + |next|..] == "";
      }
    }
  }

  lemma TransmitPlans(e: Endpoint, mtu: nat)
    requires SenderOk(e.send, mtu) && CanTransmit(e.send) && mtu >= 1
    ensures Plan(Transmit(e, mtu).0.send, mtu) == Plan(e.send, mtu)
  {
    var t, f := e.send, Transmit(e, mtu).0.send;
    assert f.issued[..t.counted] == t.issued[..t.counted];
  }

  lemma HandlePlans(e: Endpoint, p: Packet, strict: bool, mtu: nat)
    requires e.state == Connected && p.kind == Ack && mtu >= 1
    ensures Plan(Handle(e, p, strict).0.send, mtu) == Plan(e.send, mtu)
  {
    HandleShape(e, p, strict);
  }

  lemma NearPlans(n: Net, a: Action, n': Net)
    requires n.mtu >= 1 && SenderOk(n.near.send, n.mtu) && StepNear(n, a) == Some(n')
    requires a == Deliver && n.out != [] ==> n.far.state == Connected && n.out[0].kind == Ack
    ensures n'.mtu == n.mtu
    ensures Plan(n'.near.send, n.mtu) == Plan(n.near.send, n.mtu) + Pieces(a, n.mtu)
    ensures Plan(n'.far.send, n.mtu) == Plan(n.far.send, n.mtu)
  {
    match a
    case StartSending(m) => StartPlans(n.near.send, m, n.mtu);
    case TransmitFragment => TransmitPlans(n.near, n.mtu);
    case SenderResumes => CountPlans(n.near.send, n.mtu);
    case Deliver => HandlePlans(n.far, n.out[0], n.strict, n.mtu);
    case _ =>
  }

  /** What NearPlans asks of a state. */
  lemma Sound(run: seq<Net>, acts: seq<Act>, k: nat, side: bool)
    requires IsTrace(run, acts) && k < |run|
    ensures var n := run[k].View(side);
            && n.mtu == run[k].mtu >= 1 && SenderOk(n.near.send, n.mtu) && n.near.number == 1 + |n.near.send.issued|
            && (n.out != [] ==> n.far.state == Connected && n.out[0].kind == Ack)
  {
    TraceInv(run, acts, false, k);
    FlipInv(run[k], side, false);
    NearEnd(run[k].View(side), false);
    if run[k].View(side).out != [] { HeadFacts(run[k].View(side), false); }
  }

  lemma PlanStep(run: seq<Net>, acts: seq<Act>, k: nat, flip: bool)
    requires IsTrace(run, acts) && k < |acts|
    ensures run[k + 1].mtu == run[k].mtu >= 1
    ensures Plan(run[k + 1].View(flip).near.send, run[k].mtu)
            == Plan(run[k].View(flip).near.send, run[k].mtu)
               + if acts[k].0 == flip then Pieces(acts[k].1, run[k].mtu) else []
  {
    var (side, a) := acts[k];
    Sound(run, acts, k, side);
    assert TraceAt(run, acts, k);
    NearPlans(run[k].View(side), a, run[k + 1].View(side));
    if side != flip {
      OtherView(run[k], flip);
      OtherView(run[k + 1], flip);
    }
  }

  lemma {:induction false} MtuFixed(run: seq<Net>, acts: seq<Act>, k: nat)
    requires IsTrace(run, acts) && k < |run|
    ensures run[k].mtu == run[0].mtu >= 1
  {
    if k == 0 {
    } else {
      MtuFixed(run, acts, k - 1);
      PlanStep(run, acts, k - 1, false);
    }
  }

  /** In every state of every run, what has been counted followed by the pieces of what is left
      makes up the pieces of all messages so far. */
  lemma {:induction false} PlanIsAsked(run: seq<Net>, acts: seq<Act>, k: nat, flip: bool)
    requires IsTrace(run, acts) && k < |run|
    ensures run[0].mtu >= 1
    ensures Plan(run[k].View(flip).near.send, run[0].mtu) == Asked(acts[..k], flip, run[0].mtu)
  {
    if k == 0 {
      assert Cut("", run[0].mtu) == [];
    } else {
      PlanIsAsked(run, acts, k - 1, flip);
      MtuFixed(run, acts, k - 1);
      PlanStep(run, acts, k - 1, flip);
      assert acts[..k][..k - 1] == acts[..k - 1];
    }
  }

  lemma IssuedFollowsPlan(t: Sender, mtu: nat)
    requires SenderOk(t, mtu) && mtu >= 1
    ensures t.issued <= Plan(t, mtu)
    ensures t.pc == Idle ==> t.issued == Plan(t, mtu)
  {
    var rest := t.message[t.done..];
    if InFlight(t) {
      assert t.issued == t.issued[..t.counted] + [t.issued[t.counted]];
      assert |rest| > mtu ==> rest[..mtu] == t.message[t.done..t.done + mtu];
      assert Cut(rest, mtu)[0] == t.issued[t.counted];
    } else {
      assert t.issued[..t.counted] == t.issued;
    }
  }

  /** Over channels that may lose packets, with any time-outs and retransmissions: the fragments an
      end has sent, one for each number, are the first of the pieces of its messages, and all of
      them whenever no send is going on. */
  lemma FragmentsAreThePieces(run: seq<Net>, acts: seq<Act>, k: nat, flip: bool)
    requires IsTrace(run, acts) && k < |run|
    ensures run[0].mtu >= 1
    ensures var e, asked := run[k].View(flip).near, Asked(acts[..k], flip, run[0].mtu);
            && e.send.issued <= asked && e.number == 1 + |e.send.issued|
            && (e.send.pc == Idle ==> e.send.issued == asked && e.number == 1 + |asked|)
  {
    PlanIsAsked(run, acts, k, flip);
    MtuFixed(run, acts, k);
    Sound(run, acts, k, flip);
    IssuedFollowsPlan(run[k].View(flip).near.send, run[0].mtu);
  }

  // ---- What is under way ---------------------------------------------------------------------

  ghost predicate AllFit(pieces: seq<string>, mtu: nat) {
    forall j :: 0 <= j < |pieces| ==> |pieces[j]| <= mtu
  }

  lemma {:induction false} PiecesFit(acts: seq<Act>, flip: bool, mtu: nat)
    requires mtu >= 1
    ensures AllFit(Asked(acts, flip, mtu), mtu)
  {
    if acts == [] {
    } else {
      PiecesFit(acts[..|acts| - 1], flip, mtu);
      if acts[|acts| - 1].1.StartSending? { CutIsFull(acts[|acts| - 1].1.message, mtu); }
    }
  }

  lemma PacketFits(p: Packet, issued: seq<string>, asked: seq<string>, mtu: nat)
    requires PacketOk(p, issued) && issued <= asked && AllFit(asked, mtu)
    ensures |p.data| <= mtu
  {
    if p.data != "" { assert p.data == asked[p.number - 2]; }
  }

  lemma OutIsOk(run: seq<Net>, acts: seq<Act>, k: nat, flip: bool, j: nat)
    requires IsTrace(run, acts) && k < |run| && j < |run[k].View(flip).out|
    ensures PacketOk(run[k].View(flip).out[j], run[k].View(flip).near.send.issued)
  {
    TraceInv(run, acts, false, k);
    FlipInv(run[k], flip, false);
    FragmentIn(run[k].View(flip), j);
  }

  /** No packet under way is ever longer than the network takes. */
  lemma PacketsFit(run: seq<Net>, acts: seq<Act>, k: nat, flip: bool, j: nat)
    requires IsTrace(run, acts) && k < |run| && j < |run[k].View(flip).out|
    ensures |run[k].View(flip).out[j].data| <= run[0].mtu
  {
    FragmentsAreThePieces(run, acts, k, flip);
    PiecesFit(acts[..k], flip, run[0].mtu);
    OutIsOk(run, acts, k, flip, j);
    PacketFits(run[k].View(flip).out[j], run[k].View(flip).near.send.issued, Asked(acts[..k], flip, run[0].mtu),
               run[0].mtu);
  }

  /** No message is begun at this end from step i to step k. */
  ghost predicate NoneBegun(acts: seq<Act>, flip: bool, i: nat, k: nat) {
    forall j :: i <= j < k && j < |acts| ==> acts[j].0 != flip || !acts[j].1.StartSending?
  }

  lemma {:induction false} AskedStays(acts: seq<Act>, flip: bool, mtu: nat, i: nat, k: nat)
    requires mtu >= 1 && i <= k <= |acts| && NoneBegun(acts, flip, i, k)
    ensures Asked(acts[..k], flip, mtu) == Asked(acts[..i], flip, mtu)
  {
    if i == k {
    } else {
      AskedStays(acts, flip, mtu, i, k - 1);
      assert acts[..k][..k - 1] == acts[..k - 1];
    }
  }

  /** One send: by the time it is done, a message of n bytes has been sent in n / mtu packets,
      rounded up, under as many new numbers, all but the last of them full. */
  lemma OneSend(run: seq<Net>, acts: seq<Act>, i: nat, k: nat, flip: bool, message: string)
    requires IsTrace(run, acts) && i < k < |run|
    requires acts[i] == (flip, StartSending(message)) && NoneBegun(acts, flip, i + 1, k)
    requires run[k].View(flip).near.send.pc == Idle
    ensures run[0].mtu >= 1
    ensures var e, e', mtu := run[i].View(flip).near, run[k].View(flip).near, run[0].mtu;
            && e'.send.issued == e.send.issued + Cut(message, mtu)
            && e'.number == e.number + (|message| + mtu - 1) / mtu
  {
    var mtu := run[0].mtu;
    FragmentsAreThePieces(run, acts, i, flip);
    FragmentsAreThePieces(run, acts, k, flip);
    AskedStays(acts, flip, mtu, i + 1, k);
    assert acts[..i + 1][..i] == acts[..i];
    assert TraceAt(run, acts, i);
    assert CanStart(run[i].View(flip).near);
    CutLength(message, mtu);
  }

  // ---- Giving up -----------------------------------------------------------------------------

  /** A time-out costs one try and nothing else, and the seventh in a row ends the send; a release
      in time counts the fragment and begins the tries anew. */
  lemma SendGivesUp(t: Sender, mtu: nat)
    requires CanTimeOut(t) && t.done < |t.message| && mtu >= 1
    ensures Resume(TimeOut(t), mtu)
            == t.(pc := if t.tries < 6 then Looping else Failed, timedOut := false, tries := t.tries + 1)
    ensures var rest := |t.message| - t.done;
            Resume(WakeSender(t), mtu)
            == t.(pc := if rest <= mtu then Idle else Looping, timedOut := false, tries := 0, counted := t.counted + 1,
                  done := t.done + if rest <= mtu then rest else mtu)
  {}
}

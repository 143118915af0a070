/** Two connected minisockets joined by two FIFO channels: what reaches each
    reader, for every interleaving of sends, retransmissions, handlers, alarms
    and reads, over channels that lose no packet and over channels that may. */
module MinisocketStream {
  import opened Options
  import opened Minisocket

  /** The two ends; `out` holds the packets under way from near to far, `back` the others. */
  datatype Net = Net(strict: bool, mtu: nat, near: Endpoint, far: Endpoint, out: seq<Packet>, back: seq<Packet>)
  {
    /** The same net seen from its other end. */
    function Flip(): Net {
      Net(strict, mtu, far, near, back, out)
    }

    function View(flip: bool): Net {
      if flip then Flip() else this
    }
  }

  /** What can happen at the near end or to the packets it has sent. */
  datatype Action =
    | StartSending(message: string)
    | TransmitFragment
    | AlarmFires
    | SenderResumes
    | Deliver
    | Lose
    | ReaderCalls
    | ReaderTakes(maxLen: nat)

  /** A socket once the connection is established, before anything is sent on it. */
  ghost predicate Established(e: Endpoint) {
    && e.state == Connected && e.number == 1 && e.ack == 1
    && e.send == Sender(Idle, 0, false, "", 0, "", [], 0)
    && e.recv == Reader([], 0, 0, 0, [], "")
  }

  ghost predicate Initial(n: Net) {
    n.mtu >= 1 && Established(n.near) && Established(n.far) && n.out == [] && n.back == []
  }

  function OnSend(n: Net, t: Sender): Net { n.(near := n.near.(send := t)) }

  function OnRecv(n: Net, r: Reader): Net { n.(near := n.near.(recv := r)) }

  function AsSeq(p: Option<Packet>): seq<Packet> { if p.Some? then [p.value] else [] }

  /** One action, or None when it is not possible now. Deliver hands the oldest packet sent
      by the near end to the handler of the far end, Lose drops it. */
  function StepNear(n: Net, a: Action): Option<Net> {
    match a
    case StartSending(m) => if CanStart(n.near) then Some(OnSend(n, StartSend(n.near.send, m))) else None
    case TransmitFragment =>
      if CanTransmit(n.near.send) then
        var (e, p) := Transmit(n.near, n.mtu);
        Some(n.(near := e, out := n.out + [p]))
      else None
    case AlarmFires => if CanTimeOut(n.near.send) then Some(OnSend(n, TimeOut(n.near.send))) else None
    case SenderResumes =>
      if CanResume(n.near.send) then Some(OnSend(n, Resume(n.near.send, n.mtu))) else None
    case Deliver =>
      if n.out == [] then None
      else
        var (o, reply) := Handle(n.far, n.out[0], n.strict);
        Some(n.(far := o, out := n.out[1..], back := n.back + AsSeq(reply)))
    case Lose => if n.out == [] then None else Some(n.(out := n.out[1..]))
    case ReaderCalls => if CanArrive(n.near) then Some(OnRecv(n, ReaderArrives(n.near.recv))) else None
    case ReaderTakes(maxLen) =>
      if CanRead(n.near.recv) then Some(OnRecv(n, ReaderRuns(n.near.recv, maxLen))) else None
  }

  /** Some action at either end leads from n to n'; when `lossless`, it is not a loss. */
  ghost predicate Next(n: Net, n': Net, lossless: bool) {
    exists flip: bool, a: Action ::
      StepNear(n.View(flip), a) == Some(n'.View(flip)) && (lossless ==> a != Lose)
  }

  ghost predicate NextAt(lossless: bool, run: seq<Net>, k: nat)
    requires k + 1 < |run|
  {
    Next(run[k], run[k + 1], lossless)
  }

  ghost predicate IsRun(lossless: bool, run: seq<Net>) {
    && run != [] && Initial(run[0])
    && (forall k: nat :: k + 1 < |run| ==> NextAt(lossless, run, k))
  }

  // ---- Invariant of one end ------------------------------------------------------

  function Concat(ss: seq<string>): string {
    if ss == [] then "" else Concat(ss[..|ss|-1]) + ss[|ss|-1]
  }

  function Datas(ds: seq<(int, string)>): string {
    if ds == [] then "" else Datas(ds[..|ds|-1]) + ds[|ds|-1].1
  }

  /** A fragment is under way: issued, not yet counted as sent. */
  predicate InFlight(t: Sender) {
    t.pc == Blocked || t.pc == Woken || t.pc == Failed || (t.pc == Looping && t.tries > 0)
  }

  ghost predicate SenderOk(t: Sender, mtu: nat) {
    && t.done <= |t.message|
    && (t.pc == Idle ==> t.done == |t.message| && t.tries == 0)
    && (t.pc != Idle ==> t.done < |t.message|)
    && (if InFlight(t) then |t.issued| == t.counted + 1 && t.issued[t.counted] == Fragment(t, mtu)
        else |t.issued| == t.counted)
    && Concat(t.issued[..t.counted]) + t.message[t.done..] == t.asked
    && (forall k :: 0 <= k < |t.issued| ==> t.issued[k] != "")
  }

  ghost predicate ReaderOk(r: Reader) {
    && r.token + r.woken == (if |r.buffer| > 0 then 1 else 0)
    && (r.blocked > 0 ==> r.token == 0)
    && r.taken + Bytes(r.buffer) == Datas(r.delivered)
  }

  ghost predicate EndOk(e: Endpoint, mtu: nat) {
    && e.state == Connected
    && e.number == 1 + |e.send.issued|
    && SenderOk(e.send, mtu)
    && ReaderOk(e.recv)
  }

  // ---- Invariant of one direction --------------------------------------------------

  /** Every data packet carries the fragment that its number stands for. */
  ghost predicate PacketOk(p: Packet, issued: seq<string>) {
    p.kind == Ack && (p.data != "" ==> 2 <= p.number < |issued| + 2 && p.data == issued[p.number - 2])
  }

  /** From the receiver's ack through the packets under way to the sender's number the
      counters never fall. Without losses they rise by at most one at a time, and only
      with the packet that carries the new fragment. */
  ghost predicate Ordered(low: int, wire: seq<Packet>, high: int, issued: seq<string>, gapless: bool)
    decreases wire
  {
    if wire == [] then low <= high && (gapless ==> low == high)
    else
      && low <= wire[0].number
      && PacketOk(wire[0], issued)
      && (gapless ==> wire[0].number == low || (wire[0].number == low + 1 && wire[0].data != ""))
      && Ordered(wire[0].number, wire[1..], high, issued, gapless)
  }

  ghost predicate DeliveredOk(delivered: seq<(int, string)>, ack: int, issued: seq<string>, gapless: bool) {
    && (forall j :: 0 <= j < |delivered| ==>
          2 <= delivered[j].0 <= ack && delivered[j].0 < |issued| + 2 && delivered[j].1 == issued[delivered[j].0 - 2])
    && (forall j, k :: 0 <= j < k < |delivered| ==> delivered[j].0 < delivered[k].0)
    && (gapless ==> |delivered| == ack - 1 && forall j :: 0 <= j < |delivered| ==> delivered[j].0 == j + 2)
  }

  ghost predicate Linked(tx: Endpoint, wire: seq<Packet>, rx: Endpoint, gapless: bool) {
    && Ordered(rx.ack, wire, tx.number, tx.send.issued, gapless)
    && DeliveredOk(rx.recv.delivered, rx.ack, tx.send.issued, gapless)
  }

  ghost predicate Inv(n: Net, gapless: bool) {
    && n.mtu >= 1
    && EndOk(n.near, n.mtu)
    && EndOk(n.far, n.mtu)
    && Linked(n.near, n.out, n.far, gapless)
    && Linked(n.far, n.back, n.near, gapless)
  }

  // ---- Lemmas on wires ------------------------------------------------------------

  lemma {:induction false} OrderedBounds(low: int, wire: seq<Packet>, high: int, issued: seq<string>, gapless: bool)
    requires Ordered(low, wire, high, issued, gapless)
    ensures low <= high
    decreases wire
  {
    if wire == [] {
    } else {
      OrderedBounds(wire[0].number, wire[1..], high, issued, gapless);
    }
  }

  lemma {:induction false} OrderedLower(low: int, low': int, wire: seq<Packet>, high: int, issued: seq<string>)
    requires Ordered(low, wire, high, issued, false) && low' <= low
    ensures Ordered(low', wire, high, issued, false)
    decreases wire
  {}

  lemma {:induction false} OrderedIssue(low: int, wire: seq<Packet>, high: int, issued: seq<string>, d: string,
                                        gapless: bool)
    requires Ordered(low, wire, high, issued, gapless)
    ensures Ordered(low, wire, high, issued + [d], gapless)
    decreases wire
  {
    if wire == [] {
    } else {
      OrderedIssue(wire[0].number, wire[1..], high, issued, d, gapless);
    }
  }

  lemma {:induction false} OrderedAppend(low: int, wire: seq<Packet>, high: int, issued: seq<string>, p: Packet,
                                         gapless: bool)
    requires Ordered(low, wire, high, issued, gapless)
    requires high <= p.number && PacketOk(p, issued)
    requires gapless ==> p.number == high || (p.number == high + 1 && p.data != "")
    ensures Ordered(low, wire + [p], p.number, issued, gapless)
    decreases wire
  {
    if wire == [] {
      assert wire + [p] == [p];
      assert Ordered(p.number, [p][1..], p.number, issued, gapless);
    } else {
      OrderedAppend(wire[0].number, wire[1..], high, issued, p, gapless);
      assert (wire + [p])[1..] == wire[1..] + [p];
    }
  }

  // ---- Actions of the sending side --------------------------------------------------

  lemma ConcatStep(issued: seq<string>, k: nat)
    requires k < |issued|
    ensures Concat(issued[..k + 1]) == Concat(issued[..k]) + issued[k]
  {
    assert issued[..k + 1][..k] == issued[..k];
  }

  lemma FragmentCut(t: Sender, mtu: nat)
    requires t.done < |t.message| && mtu >= 1
    ensures Fragment(t, mtu) != "" && t.done + |Fragment(t, mtu)| <= |t.message|
    ensures Fragment(t, mtu) + t.message[t.done + |Fragment(t, mtu)|..] == t.message[t.done..]
  {}

  lemma StartKeepsSender(t: Sender, mtu: nat, m: string)
    requires SenderOk(t, mtu) && t.pc == Idle
    ensures SenderOk(StartSend(t, m), mtu)
  {
    assert t.message[t.done..] == "";
    assert m[0..] == m;
  }

  lemma TransmitKeepsSender(e: Endpoint, mtu: nat)
    requires SenderOk(e.send, mtu) && e.number == 1 + |e.send.issued| && CanTransmit(e.send) && mtu >= 1
    ensures var (f, p) := Transmit(e, mtu);
            && SenderOk(f.send, mtu) && f.number == 1 + |f.send.issued|
            && p.number == f.number && p.data != "" && PacketOk(p, f.send.issued)
            && (|| (f.number == e.number && f.send.issued == e.send.issued)
                || (f.number == e.number + 1 && f.send.issued == e.send.issued + [p.data]))
            && f.ack == e.ack && f.recv == e.recv && f.state == e.state
  {
    FragmentCut(e.send, mtu);
    var (f, p) := Transmit(e, mtu);
    assert f.send.issued[..f.send.counted] == e.send.issued[..e.send.counted];
  }

  lemma CountKeepsSender(t: Sender, mtu: nat, t': Sender)
    requires SenderOk(t, mtu) && InFlight(t) && mtu >= 1 && t.done < |t.message|
    requires t'.message == t.message && t'.asked == t.asked && t'.issued == t.issued
    requires t'.counted == t.counted + 1 && t'.done == t.done + |Fragment(t, mtu)| && t'.tries == 0
    requires t'.pc == if t'.done < |t.message| then Looping else Idle
    ensures SenderOk(t', mtu)
  {
    FragmentCut(t, mtu);
    var k := t.counted;
    ConcatStep(t.issued, k);
    Associative(Concat(t.issued[..k]), t.issued[k], t.message[t.done + |t.issued[k]|..]);
  }

  lemma ResumeKeepsSender(t: Sender, mtu: nat)
    requires SenderOk(t, mtu) && CanResume(t) && mtu >= 1
    ensures SenderOk(Resume(t, mtu), mtu)
  {
    if !t.timedOut {
      FragmentCut(t, mtu);
      CountKeepsSender(t, mtu, Resume(t, mtu));
    }
  }

  // ---- Actions of the receiving side ---------------------------------------------------

  lemma DatasStep(ds: seq<(int, string)>, d: (int, string))
    ensures Datas(ds + [d]) == Datas(ds) + d.1
  {
    assert (ds + [d])[..|ds + [d]| - 1] == ds;
  }

  lemma EnqueueKeepsReader(r: Reader, p: Packet)
    requires ReaderOk(r)
    ensures ReaderOk(Enqueue(r, p))
  {
    BytesAppend(r.buffer, Item(p.data, 0));
    assert Rest(Item(p.data, 0)) == p.data;
    DatasStep(r.delivered, (p.number, p.data));
    Associative(r.taken, Bytes(r.buffer), p.data);
    if p.data == "" { assert Bytes(r.buffer) + "" == Bytes(r.buffer); }
  }

  lemma ReaderRunsKeepsReader(r: Reader, maxLen: nat)
    requires ReaderOk(r) && CanRead(r)
    ensures ReaderOk(ReaderRuns(r, maxLen)) && ReaderRuns(r, maxLen).delivered == r.delivered
  {
    ReceiveConserves(r.buffer, maxLen);
    var (got, left) := Receive(r.buffer, maxLen);
    Associative(r.taken, got, Bytes(left));
  }

  /** What the handler does to a connected socket that is handed an ACK. */
  lemma HandleShape(e: Endpoint, p: Packet, strict: bool)
    requires e.state == Connected && p.kind == Ack
    ensures var (f, reply) := Handle(e, p, strict);
            && f.state == Connected && f.number == e.number
            && (reply.Some? ==> reply.value.kind == Ack && reply.value.number == f.number
                                && reply.value.ackNumber == f.ack && reply.value.data == "")
            && (if Accepts(e, p) then
                  && f.ack == p.number
                  && f.send == WakeSender(e.send)
                  && f.recv == (if p.data != "" || !strict then Enqueue(e.recv, p) else e.recv)
                else f == e)
  {}

  lemma EnqueueDelivers(r: Reader, p: Packet)
    ensures Enqueue(r, p).delivered == if p.data == "" then r.delivered else r.delivered + [(p.number, p.data)]
  {}

  lemma WakeKeepsSender(t: Sender, mtu: nat)
    requires SenderOk(t, mtu)
    ensures SenderOk(WakeSender(t), mtu)
  {}

  lemma HandleKeepsEnd(e: Endpoint, p: Packet, strict: bool, mtu: nat)
    requires EndOk(e, mtu) && p.kind == Ack
    ensures EndOk(Handle(e, p, strict).0, mtu)
  {
    HandleShape(e, p, strict);
    WakeKeepsSender(e.send, mtu);
    EnqueueKeepsReader(e.recv, p);
  }

  lemma RejectKeepsDirection(tx: Endpoint, wire: seq<Packet>, rx: Endpoint, gapless: bool)
    requires Linked(tx, wire, rx, gapless) && wire != [] && !Accepts(rx, wire[0])
    ensures Linked(tx, wire[1..], rx, gapless)
  {
    if !gapless { OrderedLower(wire[0].number, rx.ack, wire[1..], tx.number, tx.send.issued); }
  }

  lemma DeliveredSkips(ds: seq<(int, string)>, ack: int, number: int, issued: seq<string>)
    requires DeliveredOk(ds, ack, issued, false) && ack <= number
    ensures DeliveredOk(ds, number, issued, false)
  {}

  lemma DeliveredGrows(ds: seq<(int, string)>, ack: int, d: (int, string), issued: seq<string>, gapless: bool)
    requires DeliveredOk(ds, ack, issued, gapless)
    requires d.0 == ack + 1 && 2 <= d.0 < |issued| + 2 && d.1 == issued[d.0 - 2]
    ensures DeliveredOk(ds + [d], d.0, issued, gapless)
  {}

  lemma AcceptKeepsDelivered(ds: seq<(int, string)>, ack: int, p: Packet, issued: seq<string>, gapless: bool)
    requires DeliveredOk(ds, ack, issued, gapless) && PacketOk(p, issued) && ack <= p.number
    requires p.data != "" ==> p.number == ack + 1
    requires gapless && p.data == "" ==> p.number == ack
    ensures DeliveredOk(if p.data == "" then ds else ds + [(p.number, p.data)], p.number, issued, gapless)
  {
    if p.data != "" {
      DeliveredGrows(ds, ack, (p.number, p.data), issued, gapless);
    } else if !gapless {
      DeliveredSkips(ds, ack, p.number, issued);
    }
  }

  lemma AcceptKeepsDirection(tx: Endpoint, wire: seq<Packet>, rx: Endpoint, rx': Endpoint, gapless: bool)
    requires Linked(tx, wire, rx, gapless) && wire != [] && Accepts(rx, wire[0])
    requires rx'.ack == wire[0].number
    requires rx'.recv.delivered ==
             if wire[0].data == "" then rx.recv.delivered else rx.recv.delivered + [(wire[0].number, wire[0].data)]
    ensures Linked(tx, wire[1..], rx', gapless)
  {
    AcceptKeepsDelivered(rx.recv.delivered, rx.ack, wire[0], tx.send.issued, gapless);
  }

  /** Delivering the first packet keeps its direction in order. */
  lemma DeliverKeepsDirection(tx: Endpoint, wire: seq<Packet>, rx: Endpoint, strict: bool, gapless: bool)
    requires Linked(tx, wire, rx, gapless) && wire != [] && rx.state == Connected
    ensures Linked(tx, wire[1..], Handle(rx, wire[0], strict).0, gapless)
  {
    HandleShape(rx, wire[0], strict);
    EnqueueDelivers(rx.recv, wire[0]);
    if Accepts(rx, wire[0]) {
      AcceptKeepsDirection(tx, wire, rx, Handle(rx, wire[0], strict).0, gapless);
    } else {
      RejectKeepsDirection(tx, wire, rx, gapless);
    }
  }

  /** So does losing it, when losses are allowed. */
  lemma LoseKeepsDirection(tx: Endpoint, wire: seq<Packet>, rx: Endpoint)
    requires Linked(tx, wire, rx, false) && wire != []
    ensures Linked(tx, wire[1..], rx, false)
  {
    OrderedLower(wire[0].number, rx.ack, wire[1..], tx.number, tx.send.issued);
  }

  lemma ReplyKeepsDirection(tx: Endpoint, wire: seq<Packet>, rx: Endpoint, reply: Packet, gapless: bool)
    requires Linked(tx, wire, rx, gapless)
    requires reply.kind == Ack && reply.number == tx.number && reply.data == ""
    ensures Linked(tx, wire + [reply], rx, gapless)
  {
    OrderedAppend(rx.ack, wire, tx.number, tx.send.issued, reply, gapless);
  }

  lemma TransmitKeepsDirection(tx: Endpoint, wire: seq<Packet>, rx: Endpoint, mtu: nat, gapless: bool)
    requires Linked(tx, wire, rx, gapless) && EndOk(tx, mtu) && CanTransmit(tx.send) && mtu >= 1
    ensures var (f, p) := Transmit(tx, mtu); Linked(f, wire + [p], rx, gapless)
  {
    TransmitKeepsSender(tx, mtu);
    var (f, p) := Transmit(tx, mtu);
    if f.send.issued != tx.send.issued { OrderedIssue(rx.ack, wire, tx.number, tx.send.issued, p.data, gapless); }
    OrderedAppend(rx.ack, wire, tx.number, f.send.issued, p, gapless);
  }

  // ---- Every action keeps the invariant ---------------------------------------------------

  /** Actions of one end that touch neither its counters nor the wires. */
  lemma EndKeeps(n: Net, f: Endpoint, gapless: bool)
    requires Inv(n, gapless) && EndOk(f, n.mtu)
    requires f.number == n.near.number && f.send.issued == n.near.send.issued
    requires f.ack == n.near.ack && f.recv.delivered == n.near.recv.delivered
    ensures Inv(n.(near := f), gapless)
  {}

  lemma SendKeeps(n: Net, t: Sender, gapless: bool)
    requires Inv(n, gapless) && SenderOk(t, n.mtu) && t.issued == n.near.send.issued
    ensures Inv(OnSend(n, t), gapless)
  {
    EndKeeps(n, n.near.(send := t), gapless);
  }

  lemma RecvKeeps(n: Net, r: Reader, gapless: bool)
    requires Inv(n, gapless) && ReaderOk(r) && r.delivered == n.near.recv.delivered
    ensures Inv(OnRecv(n, r), gapless)
  {
    EndKeeps(n, n.near.(recv := r), gapless);
  }

  lemma TransmitKeeps(n: Net, gapless: bool)
    requires Inv(n, gapless) && CanTransmit(n.near.send)
    ensures var (e, p) := Transmit(n.near, n.mtu); Inv(n.(near := e, out := n.out + [p]), gapless)
  {
    TransmitKeepsSender(n.near, n.mtu);
    TransmitKeepsDirection(n.near, n.out, n.far, n.mtu, gapless);
  }

  lemma RepliesKeepDirection(tx: Endpoint, wire: seq<Packet>, rx: Endpoint, reply: Option<Packet>, gapless: bool)
    requires Linked(tx, wire, rx, gapless)
    requires reply.Some? ==> reply.value.kind == Ack && reply.value.number == tx.number && reply.value.data == ""
    ensures Linked(tx, wire + AsSeq(reply), rx, gapless)
  {
    if reply.Some? {
      ReplyKeepsDirection(tx, wire, rx, reply.value, gapless);
    } else {
      assert wire + [] == wire;
    }
  }

  /** The direction back sees the handling socket as a sender whose counters did not move. */
  lemma HandleKeepsBack(o: Endpoint, p: Packet, strict: bool, back: seq<Packet>, e: Endpoint, gapless: bool)
    requires Linked(o, back, e, gapless) && o.state == Connected && p.kind == Ack
    ensures var (f, reply) := Handle(o, p, strict); Linked(f, back + AsSeq(reply), e, gapless)
  {
    HandleShape(o, p, strict);
    var (f, reply) := Handle(o, p, strict);
    RepliesKeepDirection(f, back, e, reply, gapless);
  }

  lemma DeliverKeeps(n: Net, gapless: bool)
    requires Inv(n, gapless) && n.out != []
    ensures var (o, reply) := Handle(n.far, n.out[0], n.strict);
            Inv(n.(far := o, out := n.out[1..], back := n.back + AsSeq(reply)), gapless)
  {
    HandleKeepsEnd(n.far, n.out[0], n.strict, n.mtu);
    DeliverKeepsDirection(n.near, n.out, n.far, n.strict, gapless);
    HandleKeepsBack(n.far, n.out[0], n.strict, n.back, n.near, gapless);
  }

  lemma LoseKeeps(n: Net)
    requires Inv(n, false) && n.out != []
    ensures Inv(n.(out := n.out[1..]), false)
  {
    LoseKeepsDirection(n.near, n.out, n.far);
  }

  lemma TimeOutKeepsSender(t: Sender, mtu: nat)
    requires SenderOk(t, mtu) && CanTimeOut(t)
    ensures SenderOk(TimeOut(t), mtu)
  {}

  lemma ArriveKeepsReader(r: Reader)
    requires ReaderOk(r)
    ensures ReaderOk(ReaderArrives(r)) && ReaderArrives(r).delivered == r.delivered
  {}

  // One lemma for each action.

  lemma StartStep(n: Net, m: string, gapless: bool)
    requires Inv(n, gapless) && StepNear(n, StartSending(m)).Some?
    ensures Inv(StepNear(n, StartSending(m)).value, gapless)
  {
    StartKeepsSender(n.near.send, n.mtu, m);
    SendKeeps(n, StartSend(n.near.send, m), gapless);
  }

  lemma AlarmStep(n: Net, gapless: bool)
    requires Inv(n, gapless) && StepNear(n, AlarmFires).Some?
    ensures Inv(StepNear(n, AlarmFires).value, gapless)
  {
    TimeOutKeepsSender(n.near.send, n.mtu);
    SendKeeps(n, TimeOut(n.near.send), gapless);
  }

  lemma ResumeStep(n: Net, gapless: bool)
    requires Inv(n, gapless) && StepNear(n, SenderResumes).Some?
    ensures Inv(StepNear(n, SenderResumes).value, gapless)
  {
    ResumeKeepsSender(n.near.send, n.mtu);
    SendKeeps(n, Resume(n.near.send, n.mtu), gapless);
  }

  lemma ReaderCallsStep(n: Net, gapless: bool)
    requires Inv(n, gapless)
    ensures Inv(OnRecv(n, ReaderArrives(n.near.recv)), gapless)
  {
    ArriveKeepsReader(n.near.recv);
    RecvKeeps(n, ReaderArrives(n.near.recv), gapless);
  }

  lemma ReaderTakesStep(n: Net, maxLen: nat, gapless: bool)
    requires Inv(n, gapless) && CanRead(n.near.recv)
    ensures Inv(OnRecv(n, ReaderRuns(n.near.recv, maxLen)), gapless)
  {
    ReaderRunsKeepsReader(n.near.recv, maxLen);
    RecvKeeps(n, ReaderRuns(n.near.recv, maxLen), gapless);
  }

  lemma StepKeepsInv(n: Net, a: Action, gapless: bool)
    requires Inv(n, gapless) && StepNear(n, a).Some?
    requires gapless ==> a != Lose
    ensures Inv(StepNear(n, a).value, gapless)
  {
    match a
    case StartSending(m) => StartStep(n, m, gapless);
    case TransmitFragment => TransmitKeeps(n, gapless);
    case AlarmFires => AlarmStep(n, gapless);
    case SenderResumes => ResumeStep(n, gapless);
    case Deliver => DeliverKeeps(n, gapless);
    case Lose => LoseKeeps(n);
    case ReaderCalls => ReaderCallsStep(n, gapless);
    case ReaderTakes(maxLen) => ReaderTakesStep(n, maxLen, gapless);
  }

  lemma FlipInv(n: Net, flip: bool, gapless: bool)
    ensures Inv(n.View(flip), gapless) <==> Inv(n, gapless)
  {}

  lemma EstablishedOk(e: Endpoint, mtu: nat)
    requires Established(e)
    ensures EndOk(e, mtu)
  {
    assert Concat(e.send.issued[..0]) + e.send.message[0..] == e.send.asked;
  }

  lemma EstablishedLinked(e: Endpoint, o: Endpoint, gapless: bool)
    requires Established(e) && Established(o)
    ensures Linked(e, [], o, gapless)
  {}

  lemma InitInv(n: Net, gapless: bool)
    requires Initial(n)
    ensures Inv(n, gapless)
  {
    EstablishedOk(n.near, n.mtu);
    EstablishedOk(n.far, n.mtu);
    EstablishedLinked(n.near, n.far, gapless);
    EstablishedLinked(n.far, n.near, gapless);
  }

  lemma NextKeepsInv(n: Net, n': Net, lossless: bool)
    requires Inv(n, lossless) && Next(n, n', lossless)
    ensures Inv(n', lossless)
  {
    var flip, a :| StepNear(n.View(flip), a) == Some(n'.View(flip)) && (lossless ==> a != Lose);
    FlipInv(n, flip, lossless);
    StepKeepsInv(n.View(flip), a, lossless);
    FlipInv(n', flip, lossless);
  }

  lemma {:induction false} RunInv(lossless: bool, run: seq<Net>, k: nat)
    requires IsRun(lossless, run) && k < |run|
    ensures Inv(run[k], lossless)
  {
    if k == 0 {
      InitInv(run[0], lossless);
    } else {
      RunInv(lossless, run, k - 1);
      assert NextAt(lossless, run, k - 1);
      NextKeepsInv(run[k - 1], run[k], lossless);
    }
  }
}

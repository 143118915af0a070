/** The two ends of a connection's life: a first fragment that is lost where the handshake meets
    the byte stream, and what minisocket_close does to its own end and to the other. */
module MinisocketClosing {
  import opened Options
  import opened Minisocket
  import opened MinisocketStream
  import opened MinisocketResults
  import opened MinisocketHandshake

  // ---- The first fragment ------------------------------------------------------------------

  /** What happens to a net from some state on. */
  ghost predicate IsPath(path: seq<Net>) {
    path != [] && forall k: nat :: k + 1 < |path| ==> NextAt(false, path, k)
  }

  lemma Further(path: seq<Net>, flip: bool, a: Action, n: Net) returns (path': seq<Net>)
    requires IsPath(path) && StepNear(path[|path| - 1].View(flip), a) == Some(n.View(flip))
    ensures IsPath(path') && path' == path + [n]
  {
    path' := path + [n];
    assert Next(path[|path| - 1], n, false);
    forall k: nat | k + 1 < |path'| ensures NextAt(false, path', k) {
      if k + 1 < |path| { assert NextAt(false, path, k); }
    }
  }

  lemma NoReply(wire: seq<Packet>)
    ensures wire + AsSeq(None) == wire
  {}

  function SendingFirst(pc: SendPc, tries: nat, timedOut: bool, message: string, issued: seq<string>): Sender {
    Sender(pc, tries, timedOut, message, 0, message, issued, 0)
  }

  /** A connected client that sends its first message, and a server that has not heard its ACK. */
  function FirstSent(mtu: nat, ports: (int, int), number: int, send: Sender, server: Endpoint, out: seq<Packet>): Net {
    Net(true, mtu, Endpoint(Connected, ports.0, ports.1, number, 1, 0, send, UNREAD), server, out, [])
  }

  function First(ports: (int, int), message: string): Packet { Packet(Ack, ports.0, 2, 1, message) }

  /** The server before the first fragment reaches it, and after. */
  function Waiting(ports: (int, int)): Endpoint { ServerEnd(ports, Connecting, Quiet(Blocked, 0)) }

  function Misled(ports: (int, int)): Endpoint { ServerEnd(ports, Connected, Quiet(Woken, 0)).(ack := 2) }

  /** The handshake's ACK is lost, and the client sends its first fragment. */
  lemma FirstIsSent(mtu: nat, ports: (int, int), message: string) returns (path: seq<Net>)
    requires 0 < |message| <= mtu
    ensures IsPath(path) && path[0] == AckUnderWay(true, mtu, ports, 0).net
    ensures path[|path| - 1] == FirstSent(mtu, ports, 2, SendingFirst(Blocked, 0, false, message, [message]),
                                          Waiting(ports), [First(ports, message)])
  {
    var n1 := FirstSent(mtu, ports, 1, Quiet(Idle, 0), Waiting(ports), []);
    var n2 := FirstSent(mtu, ports, 1, SendingFirst(Looping, 0, false, message, []), Waiting(ports), []);
    var n3 := FirstSent(mtu, ports, 2, SendingFirst(Blocked, 0, false, message, [message]), Waiting(ports),
                        [First(ports, message)]);
    assert [AckOf(ports)][1..] == [] && [] + [message] == [message];
    assert [] + [First(ports, message)] == [First(ports, message)];
    assert message[0..] == message && "" + message == message;
    path := Further([AckUnderWay(true, mtu, ports, 0).net], false, Lose, n1);
    path := Further(path, false, StartSending(message), n2);
    path := Further(path, false, TransmitFragment, n3);
  }

  /** The server takes the first fragment for the ACK it waits for. */
  lemma FirstTakenForAck(mtu: nat, ports: (int, int), message: string) returns (path: seq<Net>)
    requires 0 < |message| <= mtu
    ensures IsPath(path) && path[0] == AckUnderWay(true, mtu, ports, 0).net
    ensures path[|path| - 1] == FirstSent(mtu, ports, 2, SendingFirst(Blocked, 0, false, message, [message]),
                                          Misled(ports), [])
  {
    path := FirstIsSent(mtu, ports, message);
    assert [First(ports, message)][1..] == [];
    NoReply([]);
    path := Further(path, false, Deliver, path[|path| - 1].(far := Misled(ports), out := []));
  }

  /** Its retransmission is rejected with an ACK that names it, so it is counted as sent. */
  lemma FirstFragmentLost(mtu: nat, ports: (int, int), message: string) returns (path: seq<Net>)
    requires 0 < |message| <= mtu
    ensures IsPath(path) && path[0] == AckUnderWay(true, mtu, ports, 0).net
    ensures var n := path[|path| - 1];
            && n.near.state == n.far.state == Connected && n.out == n.back == []
            && n.near.send.pc == Idle && n.near.send.asked == message && n.near.send.counted == 1
            && n.far.recv.delivered == [] && n.far.ack == n.near.number == 2
  {
    var server, first := Misled(ports), First(ports, message);
    var n3 := FirstSent(mtu, ports, 2, SendingFirst(Blocked, 0, false, message, [message]), server, []);
    var n4 := FirstSent(mtu, ports, 2, SendingFirst(Woken, 0, true, message, [message]), server, []);
    var n5 := FirstSent(mtu, ports, 2, SendingFirst(Looping, 1, false, message, [message]), server, []);
    var n6 := FirstSent(mtu, ports, 2, SendingFirst(Blocked, 1, false, message, [message]), server, [first]);
    path := FirstTakenForAck(mtu, ports, message);
    path := Further(path, false, AlarmFires, n4);
    path := Further(path, false, SenderResumes, n5);
    assert message[0..] == message && [] + [first] == [first];
    path := Further(path, false, TransmitFragment, n6);
    path := FirstRejected(path, mtu, ports, message);
    path := FirstIsCounted(path, mtu, ports, message);
  }

  lemma FirstRejected(path: seq<Net>, mtu: nat, ports: (int, int), message: string) returns (path': seq<Net>)
    requires IsPath(path) && 0 < |message| <= mtu
    requires path[|path| - 1] == FirstSent(mtu, ports, 2, SendingFirst(Blocked, 1, false, message, [message]),
                                           Misled(ports), [First(ports, message)])
    ensures IsPath(path') && path'[0] == path[0]
    ensures path'[|path'| - 1] == FirstSent(mtu, ports, 2, SendingFirst(Blocked, 1, false, message, [message]),
                                            Misled(ports), [])
                                  .(back := [Packet(Ack, ports.1, 1, 2, "")])
  {
    var n6, rejection := path[|path| - 1], Packet(Ack, ports.1, 1, 2, "");
    assert [First(ports, message)][1..] == [] && [] + [rejection] == [rejection];
    path' := Further(path, false, Deliver, n6.(out := [], back := [rejection]));
  }

  lemma FirstIsCounted(path: seq<Net>, mtu: nat, ports: (int, int), message: string) returns (path': seq<Net>)
    requires IsPath(path) && 0 < |message| <= mtu
    requires path[|path| - 1] == FirstSent(mtu, ports, 2, SendingFirst(Blocked, 1, false, message, [message]),
                                           Misled(ports), [])
                                 .(back := [Packet(Ack, ports.1, 1, 2, "")])
    ensures IsPath(path') && path'[0] == path[0]
    ensures var n := path'[|path'| - 1];
            && n.near.state == n.far.state == Connected && n.out == n.back == []
            && n.near.send.pc == Idle && n.near.send.asked == message && n.near.send.counted == 1
            && n.far.recv.delivered == [] && n.far.ack == n.near.number == 2
  {
    var n7 := path[|path| - 1];
    var n8 := n7.(near := n7.near.(send := SendingFirst(Woken, 1, false, message, [message])), back := []);
    var n9 := n8.(near := n8.near.(send := Sender(Idle, 0, false, message, |message|, message, [message], 1)));
    assert [Packet(Ack, ports.1, 1, 2, "")][1..] == [] && message[0..] == message;
    NoReply([]);
    path' := Further(path, true, Deliver, n8);
    path' := Further(path', false, SenderResumes, n9);
  }

  /** With a time-out still counted from the handshake (TryStaysCounted) the first fragment is sent
      under the number of the handshake: the peer rejects it with an ACK of that number, which
      releases the sender. */
  lemma FirstFragmentUnnumbered(e: Endpoint, o: Endpoint, message: string, mtu: nat, strict: bool)
    requires e.state == Connected && e.send.pc == Idle && e.send.tries > 0 && 0 < |message| <= mtu
    requires o.state == Connected && o.ack == e.number && o.number == e.ack
    ensures var (f, p) := Transmit(e.(send := StartSend(e.send, message)), mtu);
            var (o', reply) := Handle(o, p, strict);
            && p.number == e.number && o' == o && reply == Some(Packet(Ack, o.port, o.number, e.number, ""))
            && Handle(f, reply.value, strict).0.send == f.send.(pc := Woken, timedOut := false)
  {}

  // ---- Closing -------------------------------------------------------------------------------

  /** A packet that is accepted, but not awaited in the socket's state, changes nothing but the ack. */
  lemma NotAwaited(e: Endpoint, p: Packet, strict: bool)
    requires Accepts(e, p)
    requires || e.state == Start || e.state == Closed || (e.state == Listening && p.kind != Syn)
             || (e.state == Connecting && p.kind != SynAck && p.kind != Ack) || (e.state == Connected && p.kind == Syn)
             || (e.state == Closing && p.kind != Fin && p.kind != Ack)
    ensures Handle(e, p, strict) == (e.(ack := p.number), None)
  {}

  /** The FIN is sent under the number of the last fragment. So a connected peer hears of the close
      if and only if it has not accepted that fragment; the closer's end is closed either way. */
  lemma CloseIsHeardExactly(e: Endpoint, o: Endpoint, strict: bool)
    requires o.state == Connected
    ensures var (f, fin) := SendFin(BeginClose(e));
            var (o', reply) := Handle(o, fin, strict);
            && fin == Packet(Fin, e.port, e.number, e.ack, "") && f.state == Closing
            && (o'.state == Closing <==> e.number == o.ack + 1)
            && o' == (if e.number == o.ack + 1 then o.(ack := o.ack + 1, state := Closing) else o)
            && reply == Some(Packet(Ack, o.port, o.number, o'.ack, ""))
            && (0 <= e.number - o.ack <= 1 ==> Handle(f, reply.value, strict).0.state == Closed)
  {}

  lemma AllArrived(n: Net)
    requires MinisocketStream.Inv(n, true) && n.out == []
    ensures n.far.ack == n.near.number && n.far.state == Connected
  {}

  /** So over channels that lose nothing, a close behind everything else is never heard of: once
      all packets of an end have arrived, its FIN changes nothing at the other end, which stays
      connected; the ACK that rejects the FIN closes the closer. */
  lemma CloseIsOneSided(run: seq<Net>, k: nat, flip: bool)
    requires IsRun(true, run) && k < |run| && run[k].View(flip).out == []
    ensures var n := run[k].View(flip);
            var (f, fin) := SendFin(BeginClose(n.near));
            && Handle(n.far, fin, n.strict) == (n.far, Some(Packet(Ack, n.far.port, n.far.number, n.near.number, "")))
            && Handle(f, Packet(Ack, n.far.port, n.far.number, n.near.number, ""), n.strict).0.state == Closed
  {
    MinisocketStream.RunInv(true, run, k);
    FlipInv(run[k], flip, true);
    AllArrived(run[k].View(flip));
    CloseIsHeardExactly(run[k].View(flip).near, run[k].View(flip).far, run[k].View(flip).strict);
  }

  /** Two ends that close at the same time both end closed, whichever of their last fragments have
      been accepted. */
  lemma BothClose(e: Endpoint, o: Endpoint, strict: bool)
    requires e.state == o.state == Closing && 0 <= e.number - o.ack <= 1 && 0 <= o.number - e.ack <= 1
    ensures var (e', a) := Handle(e, SendFin(o).1, strict);
            var (o', b) := Handle(o, SendFin(e).1, strict);
            && a.Some? && b.Some?
            && Handle(e', b.value, strict).0.state == Closed && Handle(o', a.value, strict).0.state == Closed
  {}

  /** One round of the close loop: a FIN, some packets, and the alarm, as no packet wakes a closer. */
  function CloseRound(e: Endpoint, packets: seq<Packet>, strict: bool): Endpoint {
    var f := Handled(SendFin(e).0, packets, strict);
    f.(send := AfterFin(TimeOut(f.send)))
  }

  function Handled(e: Endpoint, packets: seq<Packet>, strict: bool): Endpoint {
    if packets == [] then e
    else Handle(Handled(e, packets[..|packets| - 1], strict), packets[|packets| - 1], strict).0
  }

  lemma {:induction false} ClosersSleep(e: Endpoint, packets: seq<Packet>, strict: bool)
    requires e.state == Closing || e.state == Closed
    ensures var f := Handled(e, packets, strict);
            f.send == e.send && (f.state == Closing || f.state == Closed) && (e.state == Closed ==> f.state == Closed)
  {
    if packets == [] {
    } else {
      ClosersSleep(e, packets[..|packets| - 1], strict);
    }
  }

  /** The states of a close loop, round after round. */
  ghost predicate IsCloseLoop(rounds: seq<Endpoint>, packets: seq<seq<Packet>>, strict: bool) {
    && |rounds| == |packets| + 1 && rounds[0].state == Closing
    && forall k: nat :: k < |packets| ==> CloseAt(rounds, packets, strict, k)
  }

  ghost predicate CloseAt(rounds: seq<Endpoint>, packets: seq<seq<Packet>>, strict: bool, k: nat)
    requires k < |packets| < |rounds|
  {
    ClosesOn(rounds[k]) && rounds[k + 1] == CloseRound(rounds[k], packets[k], strict)
  }

  /** Whatever arrives, minisocket_close ends: it sends at most seven FINs, less those tries that
      were counted before. */
  lemma {:induction false} CloseEnds(rounds: seq<Endpoint>, packets: seq<seq<Packet>>, strict: bool)
    requires IsCloseLoop(rounds, packets, strict)
    ensures rounds[|packets|].send.tries == rounds[0].send.tries + |packets|
    ensures rounds[|packets|].state == Closing || rounds[|packets|].state == Closed
    ensures |packets| > 0 ==> |packets| <= 7 - rounds[0].send.tries
    decreases |packets|
  {
    var n := |packets| - 1;
    if n < 0 {
    } else {
      var before, earlier := rounds[..n + 1], packets[..n];
      forall k: nat | k < n ensures CloseAt(before, earlier, strict, k) {
        assert CloseAt(rounds, packets, strict, k);
      }
      CloseEnds(before, earlier, strict);
      assert CloseAt(rounds, packets, strict, n);
      ClosersSleep(SendFin(rounds[n]).0, packets[n], strict);
    }
  }
}

/** How a connection is opened and closed: a client and a server from their creation on, joined
    by two FIFO channels that may lose packets, with alarms that may go off at any time. */
module MinisocketHandshake {
  import opened Options
  import opened Minisocket
  import opened MinisocketStream

  /** Where the thread is that opens the connection: not begun, at the test of its loop, in
      listen_wait since that many wake-ups, in waiT, or back from its call with or without one. */
  datatype Caller = Begins | Tests | Listens(heard: nat) | Waits | Returned | GaveUp

  /** The client is the near end, the server the far one. */
  datatype Setup = Setup(net: Net, client: Caller, server: Caller)

  datatype Move =
    | ClientConnects | ClientTests | ClientRuns | ClientAlarm
    | ServerTests | ServerRuns | ServerAlarm
    | ToServer | ToClient | LostToServer | LostToClient

  function Opening(strict: bool, mtu: nat, clientPort: int, serverPort: int): Setup {
    Setup(Net(strict, mtu, Fresh(Start, clientPort, serverPort), Fresh(Listening, serverPort, -1), [], []),
          Begins, Tests)
  }

  /** The test of the loop and what follows: return, listen_wait or waiT. */
  function Tested(e: Endpoint): (Endpoint, Caller) {
    if e.state == Connected then (e, Returned)
    else if e.state == Listening then (e, Listens(e.listenWakes))
    else (e.(send := e.send.(pc := Blocked)), Waits)
  }

  predicate Released(c: Caller, e: Endpoint) {
    match c
    case Listens(heard) => e.listenWakes > heard
    case Waits => e.send.pc == Woken
    case _ => false
  }

  predicate AlarmSet(c: Caller, e: Endpoint) { c == Waits && CanTimeOut(e.send) }

  function Sent(wire: seq<Packet>, p: Option<Packet>): seq<Packet> { if p.Some? then wire + [p.value] else wire }

  function OnClient(s: Setup, e: Endpoint, p: Option<Packet>, c: Caller): Setup {
    s.(net := s.net.(near := e, out := Sent(s.net.out, p)), client := c)
  }

  function OnServer(s: Setup, e: Endpoint, p: Option<Packet>, c: Caller): Setup {
    s.(net := s.net.(far := e, back := Sent(s.net.back, p)), server := c)
  }

  /** A packet for a socket that has been freed is dropped. */
  function Step(s: Setup, m: Move): Option<Setup> {
    var client, server := s.net.near, s.net.far;
    match m
    case ClientConnects =>
      if s.client == Begins then Some(OnClient(s, SendSyn(client).0, Some(SendSyn(client).1), Tests)) else None
    case ClientTests =>
      if s.client == Tests then Some(OnClient(s, Tested(client).0, None, Tested(client).1)) else None
    case ClientRuns =>
      if Released(s.client, client) then
        var (e, again) := Round(client, Syn);
        Some(OnClient(s, e, again, if GivesUp(e.send) then GaveUp else Tests))
      else None
    case ClientAlarm =>
      if AlarmSet(s.client, client) then Some(OnClient(s, client.(send := TimeOut(client.send)), None, s.client))
      else None
    case ServerTests =>
      if s.server == Tests then Some(OnServer(s, Tested(server).0, None, Tested(server).1)) else None
    case ServerRuns =>
      if Released(s.server, server) then
        var (e, again) := ServerRound(server);
        Some(OnServer(s, e, again, Tests))
      else None
    case ServerAlarm =>
      if AlarmSet(s.server, server) then Some(OnServer(s, server.(send := TimeOut(server.send)), None, s.server))
      else None
    case ToServer =>
      if s.net.out == [] then None
      else
        var (e, reply) := Handle(server, s.net.out[0], s.net.strict);
        Some(OnServer(s.(net := s.net.(out := s.net.out[1..])), e, reply, s.server))
    case ToClient =>
      if s.net.back == [] then None
      else if s.client == GaveUp then Some(s.(net := s.net.(back := s.net.back[1..])))
      else
        var (e, reply) := Handle(client, s.net.back[0], s.net.strict);
        Some(OnClient(s.(net := s.net.(back := s.net.back[1..])), e, reply, s.client))
    case LostToServer => if s.net.out == [] then None else Some(s.(net := s.net.(out := s.net.out[1..])))
    case LostToClient => if s.net.back == [] then None else Some(s.(net := s.net.(back := s.net.back[1..])))
  }

  ghost predicate MoveAt(run: seq<Setup>, moves: seq<Move>, k: nat)
    requires k < |moves| < |run|
  {
    Step(run[k], moves[k]) == Some(run[k + 1])
  }

  /** The states that some moves in a row pass through. */
  ghost predicate IsPath(run: seq<Setup>, moves: seq<Move>) {
    |run| == |moves| + 1 && forall k: nat :: k < |moves| ==> MoveAt(run, moves, k)
  }

  ghost predicate Leads(s: Setup, moves: seq<Move>, s': Setup) {
    exists run :: IsPath(run, moves) && run[0] == s && run[|moves|] == s'
  }

  /** A run from the creation of both sockets on, with its moves. */
  ghost predicate IsSetup(run: seq<Setup>, moves: seq<Move>, clientPort: int, serverPort: int) {
    IsPath(run, moves) && run[0] == Opening(run[0].net.strict, run[0].net.mtu, clientPort, serverPort)
  }

  // ---- What every run keeps --------------------------------------------------------------

  /** Nothing has been sent as data. */
  ghost predicate NothingSent(t: Sender) {
    t.message == "" && t.done == 0 && t.asked == "" && t.issued == [] && t.counted == 0
  }

  /** Nothing has been received; but an empty ACK that is taken for data is buffered. */
  ghost predicate NothingReceived(r: Reader, strict: bool) {
    && r.delivered == [] && r.taken == "" && Bytes(r.buffer) == ""
    && r.blocked == 0 && r.woken == 0 && r.token == (if r.buffer != [] then 1 else 0)
    && (strict ==> r.buffer == [])
  }

  ghost predicate Unused(e: Endpoint, strict: bool) {
    NothingSent(e.send) && NothingReceived(e.recv, strict)
  }

  ghost predicate ClientOk(e: Endpoint, c: Caller, port: int) {
    && e.port == port && e.number == 1 && e.ack == (if e.state == Connected then 1 else 0)
    && (e.state == Start || e.state == Connecting || e.state == Connected)
    && (e.state == Start <==> c == Begins)
    && (c == Returned ==> e.state == Connected)
    && (c.Listens? ==> false)
  }

  /** `peer` is the client's port. */
  ghost predicate ServerOk(e: Endpoint, c: Caller, peer: int) {
    && e.number == 1 && 0 <= e.ack <= 1
    && (e.state == Listening || e.state == Connecting || e.state == Connected)
    && (e.state != Listening ==> e.ack == 1)
    && (e.ack == 1 ==> e.peer == peer)
    && (c == Returned ==> e.state == Connected)
  }

  /** The thread waits in waiT, or is not in it. */
  ghost predicate PcOk(e: Endpoint, c: Caller) {
    if c == Waits then e.send.pc == Blocked || e.send.pc == Woken
    else e.send.pc == Idle && !e.send.timedOut
  }

  /** The client's packets are SYN, and ACK once it is connected. */
  ghost predicate UpOk(p: Packet, port: int, connected: bool) {
    && p.from == port && p.number == 1 && p.data == ""
    && ((p.kind == Syn && p.ackNumber == 0) || (p.kind == Ack && p.ackNumber == 1 && connected))
  }

  ghost predicate DownOk(p: Packet) {
    p.number == 1 && p.ackNumber == 1 && p.data == "" && (p.kind == SynAck || p.kind == Ack)
  }

  ghost predicate WiresOk(n: Net, port: int) {
    && (forall i :: 0 <= i < |n.out| ==> UpOk(n.out[i], port, n.near.state == Connected))
    && (forall i :: 0 <= i < |n.back| ==> DownOk(n.back[i]))
  }

  ghost predicate Agree(n: Net) {
    && (n.far.ack == 0 ==> n.back == [] && n.near.state != Connected)
    && (n.near.state == Start ==> n.out == [] && n.far.ack == 0)
    && (n.far.state == Connected ==> n.near.state == Connected)
  }

  ghost predicate Inv(s: Setup, port: int) {
    && ClientOk(s.net.near, s.client, port) && ServerOk(s.net.far, s.server, port)
    && Unused(s.net.near, s.net.strict) && Unused(s.net.far, s.net.strict)
    && PcOk(s.net.near, s.client) && PcOk(s.net.far, s.server)
    && WiresOk(s.net, port) && Agree(s.net)
  }

  lemma SentUp(n: Net, p: Option<Packet>, port: int)
    requires WiresOk(n, port) && (p.Some? ==> UpOk(p.value, port, n.near.state == Connected))
    ensures WiresOk(n.(out := Sent(n.out, p)), port)
  {}

  lemma SentDown(n: Net, p: Option<Packet>, port: int)
    requires WiresOk(n, port) && (p.Some? ==> DownOk(p.value))
    ensures WiresOk(n.(back := Sent(n.back, p)), port)
  {}

  lemma ClientTurn(s: Setup, m: Move, port: int)
    requires Inv(s, port) && Step(s, m).Some?
    requires m == ClientConnects || m == ClientTests || m == ClientRuns || m == ClientAlarm
    ensures Inv(Step(s, m).value, port)
  {
    var s' := Step(s, m).value;
    match m
    case ClientConnects => SentUp(s.net.(near := s'.net.near), Some(Control(s.net.near, Syn)), port);
    case ClientTests => SentUp(s.net.(near := s'.net.near), None, port);
    case ClientRuns => SentUp(s.net.(near := s'.net.near), Round(s.net.near, Syn).1, port);
    case ClientAlarm => SentUp(s.net.(near := s'.net.near), None, port);
  }

  lemma ServerTurn(s: Setup, m: Move, port: int)
    requires Inv(s, port) && Step(s, m).Some?
    requires m == ServerTests || m == ServerRuns || m == ServerAlarm
    ensures Inv(Step(s, m).value, port)
  {
    var s' := Step(s, m).value;
    match m
    case ServerTests => SentDown(s.net.(far := s'.net.far), None, port);
    case ServerRuns => SentDown(s.net.(far := s'.net.far), ServerRound(s.net.far).1, port);
    case ServerAlarm => SentDown(s.net.(far := s'.net.far), None, port);
  }

  lemma HandlerTouches(e: Endpoint, p: Packet, strict: bool)
    requires p.data == ""
    ensures var f := Handle(e, p, strict).0;
            && (f.send == e.send || f.send == e.send.(timedOut := false) || f.send == WakeSender(e.send))
            && (f.recv == e.recv || (!strict && f.recv == Enqueue(e.recv, p)))
  {}

  lemma EmptyAckBuffered(r: Reader, p: Packet)
    requires NothingReceived(r, false) && p.data == ""
    ensures NothingReceived(Enqueue(r, p), false)
  {
    BytesAppend(r.buffer, Item("", 0));
  }

  lemma StaysUnused(e: Endpoint, p: Packet, strict: bool)
    requires Unused(e, strict) && p.data == ""
    ensures Unused(Handle(e, p, strict).0, strict)
  {
    HandlerTouches(e, p, strict);
    if !strict { EmptyAckBuffered(e.recv, p); }
  }

  lemma ServerHandles(e: Endpoint, c: Caller, p: Packet, strict: bool, peer: int, connected: bool)
    requires ServerOk(e, c, peer) && PcOk(e, c) && UpOk(p, peer, connected) && (connected ==> e.ack == 1)
    ensures var (f, reply) := Handle(e, p, strict);
            && ServerOk(f, c, peer) && PcOk(f, c) && (reply.Some? ==> DownOk(reply.value))
            && (f.state == Connected ==> e.state == Connected || connected)
            && (f.ack == 0 ==> e.ack == 0 && reply == None)
  {}

  lemma ClientHandles(e: Endpoint, c: Caller, p: Packet, strict: bool, port: int)
    requires ClientOk(e, c, port) && PcOk(e, c) && DownOk(p) && e.state != Start
    ensures var (f, reply) := Handle(e, p, strict);
            && ClientOk(f, c, port) && PcOk(f, c) && f.state == Connected
            && (reply.Some? ==> UpOk(reply.value, port, true))
  {}

  lemma ReachesServer(s: Setup, port: int)
    requires Inv(s, port) && s.net.out != []
    ensures Inv(Step(s, ToServer).value, port)
  {
    var n, p := s.net, s.net.out[0];
    var (e, reply) := Handle(n.far, p, n.strict);
    assert UpOk(p, port, n.near.state == Connected);
    ServerHandles(n.far, s.server, p, n.strict, port, n.near.state == Connected);
    StaysUnused(n.far, p, n.strict);
    SentDown(n.(out := n.out[1..], far := e), reply, port);
  }

  lemma ReachesClient(s: Setup, port: int)
    requires Inv(s, port) && s.net.back != [] && s.client != GaveUp
    ensures Inv(Step(s, ToClient).value, port)
  {
    var n, p := s.net, s.net.back[0];
    var (e, reply) := Handle(n.near, p, n.strict);
    assert DownOk(p);
    ClientHandles(n.near, s.client, p, n.strict, port);
    StaysUnused(n.near, p, n.strict);
    SentUp(n.(back := n.back[1..], near := e), reply, port);
  }

  lemma StepKeepsInv(s: Setup, m: Move, port: int)
    requires Inv(s, port) && Step(s, m).Some?
    ensures Inv(Step(s, m).value, port)
  {
    match m
    case ToServer => ReachesServer(s, port);
    case ToClient => if s.client != GaveUp { ReachesClient(s, port); }
    case LostToServer =>
    case LostToClient =>
    case ServerTests => ServerTurn(s, m, port);
    case ServerRuns => ServerTurn(s, m, port);
    case ServerAlarm => ServerTurn(s, m, port);
    case _ => ClientTurn(s, m, port);
  }

  lemma {:induction false} SetupInv(run: seq<Setup>, moves: seq<Move>, clientPort: int, serverPort: int, k: nat)
    requires IsSetup(run, moves, clientPort, serverPort) && k < |run|
    ensures Inv(run[k], clientPort)
  {
    if k == 0 {
    } else {
      SetupInv(run, moves, clientPort, serverPort, k - 1);
      assert MoveAt(run, moves, k - 1);
      StepKeepsInv(run[k - 1], moves[k - 1], clientPort);
    }
  }

  /** However packets are lost, repeated and overtaken by alarms: a server is connected only to a
      connected client, whose port it knows, and both have then counted exactly the other's first
      packet. A client is connected only after a server has heard of it. */
  lemma HandshakeAgrees(run: seq<Setup>, moves: seq<Move>, clientPort: int, serverPort: int, k: nat)
    requires IsSetup(run, moves, clientPort, serverPort) && k < |run|
    ensures var client, server := run[k].net.near, run[k].net.far;
            && (run[k].client == Returned ==> client.state == Connected)
            && (run[k].server == Returned ==> server.state == Connected)
            && (server.state == Connected ==> client.state == Connected)
            && (client.state == Connected ==> client.number == client.ack == 1 && server.number == server.ack == 1)
            && (client.state == Connected ==> server.peer == clientPort)
            && (server.state == Connecting ==> server.number == server.ack == 1 && server.peer == clientPort)
            && client.recv.delivered == server.recv.delivered == []
  {
    SetupInv(run, moves, clientPort, serverPort, k);
  }

  /** When both calls have returned and nothing is under way, the byte stream starts as
      MinisocketStream has it exactly if no time-out is still counted and no empty ACK was buffered
      as data, which the handler does only if its test does not discount the routing header. */
  lemma HandshakeBeginsStream(run: seq<Setup>, moves: seq<Move>, clientPort: int, serverPort: int, k: nat)
    requires IsSetup(run, moves, clientPort, serverPort) && k < |run|
    requires run[k].client == run[k].server == Returned && run[k].net.out == run[k].net.back == []
    requires run[k].net.mtu >= 1
    ensures var client, server := run[k].net.near, run[k].net.far;
            && (Initial(run[k].net) <==> client.send.tries == server.send.tries == 0
                                         && client.recv.buffer == server.recv.buffer == [])
            && (run[k].net.strict ==> client.recv.buffer == server.recv.buffer == [])
  {
    SetupInv(run, moves, clientPort, serverPort, k);
  }

  // ---- Completion, and giving up -----------------------------------------------------------

  lemma OneMove(s: Setup, m: Move, s': Setup)
    requires Step(s, m) == Some(s')
    ensures Leads(s, [m], s')
  {
    assert MoveAt([s, s'], [m], 0);
    assert IsPath([s, s'], [m]);
  }

  lemma Joined(s: Setup, moves: seq<Move>, mid: Setup, more: seq<Move>, s': Setup)
    requires Leads(s, moves, mid) && Leads(mid, more, s')
    ensures Leads(s, moves + more, s')
  {
    var a :| IsPath(a, moves) && a[0] == s && a[|moves|] == mid;
    var b :| IsPath(b, more) && b[0] == mid && b[|more|] == s';
    var run, all := a + b[1..], moves + more;
    forall k: nat | k < |all| ensures MoveAt(run, all, k) {
      if k < |moves| { assert MoveAt(a, moves, k); } else { assert MoveAt(b, more, k - |moves|); }
    }
    assert IsPath(run, all);
  }

  lemma ThreeMoves(s: Setup, a: Move, s1: Setup, b: Move, s2: Setup, c: Move, s3: Setup)
    requires Step(s, a) == Some(s1) && Step(s1, b) == Some(s2) && Step(s2, c) == Some(s3)
    ensures Leads(s, [a, b, c], s3)
  {
    OneMove(s, a, s1);
    OneMove(s1, b, s2);
    OneMove(s2, c, s3);
    Joined(s, [a], s1, [b], s2);
    Joined(s, [a] + [b], s2, [c], s3);
    assert [a] + [b] + [c] == [a, b, c];
  }

  lemma RunOf(strict: bool, mtu: nat, ports: (int, int), moves: seq<Move>, s: Setup) returns (run: seq<Setup>)
    requires Leads(Opening(strict, mtu, ports.0, ports.1), moves, s)
    ensures IsSetup(run, moves, ports.0, ports.1) && run[|moves|] == s
  {
    run :| IsPath(run, moves) && run[0] == Opening(strict, mtu, ports.0, ports.1) && run[|moves|] == s;
  }

  /** A round that follows a time-out while connecting: one more try is counted and the packet is
      sent again; the seventh time-out in a row is the last. */
  lemma TimedOutRound(e: Endpoint, kind: MessageType)
    requires e.state == Connecting && CanTimeOut(e.send)
    ensures var late := e.(send := TimeOut(e.send));
            var f := e.(send := e.send.(pc := Idle, timedOut := false, tries := e.send.tries + 1));
            && Round(late, kind) == (f, Some(Packet(kind, e.port, e.number, e.ack, "")))
            && (GivesUp(f.send) <==> e.send.tries >= 6)
            && ServerRound(late).1 == Some(Packet(SynAck, e.port, e.number, e.ack, ""))
            && ServerRound(late).0 == if e.send.tries < 6 then f
                                      else f.(state := Listening, send := f.send.(tries := 0))
  {}

  function Quiet(pc: SendPc, tries: nat): Sender { Sender(pc, tries, false, "", 0, "", [], 0) }

  const UNREAD := Reader([], 0, 0, 0, [], "")

  /** The two ends in the course of a handshake. */
  function ClientEnd(ports: (int, int), state: SocketState, ack: int, send: Sender): Endpoint {
    Endpoint(state, ports.0, ports.1, 1, ack, 0, send, UNREAD)
  }

  function Unheard(ports: (int, int)): Endpoint { Endpoint(Listening, ports.1, -1, 1, 0, 0, Quiet(Idle, 0), UNREAD) }

  function ServerEnd(ports: (int, int), state: SocketState, send: Sender): Endpoint {
    Endpoint(state, ports.1, ports.0, 1, 1, 1, send, UNREAD)
  }

  function SynOf(ports: (int, int)): Packet { Packet(Syn, ports.0, 1, 0, "") }

  function SynAckOf(ports: (int, int)): Packet { Packet(SynAck, ports.1, 1, 1, "") }

  function AckOf(ports: (int, int)): Packet { Packet(Ack, ports.0, 1, 1, "") }

  /** The client waits for an answer to its SYN, which has been lost `tries` times before. */
  function SynUnderWay(strict: bool, mtu: nat, ports: (int, int), tries: nat): Setup {
    Setup(Net(strict, mtu, ClientEnd(ports, Connecting, 0, Quiet(Blocked, tries)), Unheard(ports), [SynOf(ports)], []),
          Waits, Listens(0))
  }

  lemma ClientBegins(strict: bool, mtu: nat, ports: (int, int))
    ensures Leads(Opening(strict, mtu, ports.0, ports.1), [ClientConnects, ClientTests, ServerTests],
                  SynUnderWay(strict, mtu, ports, 0))
  {
    var s3 := SynUnderWay(strict, mtu, ports, 0);
    var s2 := s3.(server := Tests);
    var s1 := s2.(net := s2.net.(near := ClientEnd(ports, Connecting, 0, Quiet(Idle, 0))), client := Tests);
    assert [] + [SynOf(ports)] == [SynOf(ports)];
    ThreeMoves(Opening(strict, mtu, ports.0, ports.1), ClientConnects, s1, ClientTests, s2, ServerTests, s3);
  }

  const SYN_LOST := [LostToServer] + [ClientAlarm, ClientRuns, ClientTests]

  function SynGone(strict: bool, mtu: nat, ports: (int, int), tries: nat): Setup {
    Setup(Net(strict, mtu, ClientEnd(ports, Connecting, 0, Quiet(Blocked, tries)), Unheard(ports), [], []),
          Waits, Listens(0))
  }

  lemma ClientTriesAgain(strict: bool, mtu: nat, ports: (int, int), tries: nat)
    requires tries < 6
    ensures Leads(SynGone(strict, mtu, ports, tries), [ClientAlarm, ClientRuns, ClientTests],
                  SynUnderWay(strict, mtu, ports, tries + 1))
  {
    var s, s3 := SynGone(strict, mtu, ports, tries), SynUnderWay(strict, mtu, ports, tries + 1);
    var s1 := s.(net := s.net.(near := ClientEnd(ports, Connecting, 0, Quiet(Woken, tries).(timedOut := true))));
    var s2 := s3.(net := s3.net.(near := ClientEnd(ports, Connecting, 0, Quiet(Idle, tries + 1))), client := Tests);
    assert [] + [SynOf(ports)] == [SynOf(ports)];
    TimedOutRound(s.net.near, Syn);
    assert Step(s1, ClientRuns) == Some(s2);
    ThreeMoves(s, ClientAlarm, s1, ClientRuns, s2, ClientTests, s3);
  }

  /** A SYN is lost and sent again. */
  lemma SynLost(strict: bool, mtu: nat, ports: (int, int), tries: nat)
    requires tries < 6
    ensures Leads(SynUnderWay(strict, mtu, ports, tries), SYN_LOST, SynUnderWay(strict, mtu, ports, tries + 1))
  {
    var s, s1 := SynUnderWay(strict, mtu, ports, tries), SynGone(strict, mtu, ports, tries);
    assert [SynOf(ports)][1..] == [];
    ClientTriesAgain(strict, mtu, ports, tries);
    OneMove(s, LostToServer, s1);
    Joined(s, [LostToServer], s1, [ClientAlarm, ClientRuns, ClientTests], SynUnderWay(strict, mtu, ports, tries + 1));
  }

  /** The server waits for an answer to its SYNACK, which has been lost `again` times before. */
  function SynAckUnderWay(strict: bool, mtu: nat, ports: (int, int), tries: nat, again: nat): Setup {
    Setup(Net(strict, mtu, ClientEnd(ports, Connecting, 0, Quiet(Blocked, tries)),
              ServerEnd(ports, Connecting, Quiet(Blocked, again)), [], [SynAckOf(ports)]), Waits, Waits)
  }

  lemma ServerAnswers(strict: bool, mtu: nat, ports: (int, int), tries: nat)
    ensures Leads(SynUnderWay(strict, mtu, ports, tries), [ToServer, ServerRuns, ServerTests],
                  SynAckUnderWay(strict, mtu, ports, tries, 0))
  {
    var s3 := SynAckUnderWay(strict, mtu, ports, tries, 0);
    var s2 := s3.(net := s3.net.(far := ServerEnd(ports, Connecting, Quiet(Idle, 0))), server := Tests);
    var s1 := s2.(server := Listens(0));
    assert [SynOf(ports)][1..] == [] && [] + [SynAckOf(ports)] == [SynAckOf(ports)];
    ThreeMoves(SynUnderWay(strict, mtu, ports, tries), ToServer, s1, ServerRuns, s2, ServerTests, s3);
  }

  const SERVER_TRIES := [ServerAlarm, ServerRuns, ServerTests]

  const SYNACK_LOST := [LostToClient] + SERVER_TRIES

  function SynAckGone(strict: bool, mtu: nat, ports: (int, int), tries: nat, again: nat): Setup {
    var s := SynAckUnderWay(strict, mtu, ports, tries, again);
    s.(net := s.net.(back := []))
  }

  lemma ServerTriesAgain(strict: bool, mtu: nat, ports: (int, int), tries: nat, again: nat)
    requires again < 6
    ensures Leads(SynAckGone(strict, mtu, ports, tries, again), SERVER_TRIES,
                  SynAckUnderWay(strict, mtu, ports, tries, again + 1))
  {
    var s, s3 := SynAckGone(strict, mtu, ports, tries, again), SynAckUnderWay(strict, mtu, ports, tries, again + 1);
    var s1 := s.(net := s.net.(far := ServerEnd(ports, Connecting, Quiet(Woken, again).(timedOut := true))));
    var s2 := s3.(net := s3.net.(far := ServerEnd(ports, Connecting, Quiet(Idle, again + 1))), server := Tests);
    assert [] + [SynAckOf(ports)] == [SynAckOf(ports)];
    TimedOutRound(s.net.far, SynAck);
    assert Step(s1, ServerRuns) == Some(s2);
    ThreeMoves(s, ServerAlarm, s1, ServerRuns, s2, ServerTests, s3);
  }

  /** A SYNACK is lost and sent again. */
  lemma SynAckLost(strict: bool, mtu: nat, ports: (int, int), tries: nat, again: nat)
    requires again < 6
    ensures Leads(SynAckUnderWay(strict, mtu, ports, tries, again), SYNACK_LOST,
                  SynAckUnderWay(strict, mtu, ports, tries, again + 1))
  {
    var s, s1 := SynAckUnderWay(strict, mtu, ports, tries, again), SynAckGone(strict, mtu, ports, tries, again);
    assert [SynAckOf(ports)][1..] == [];
    ServerTriesAgain(strict, mtu, ports, tries, again);
    OneMove(s, LostToClient, s1);
    Joined(s, [LostToClient], s1, SERVER_TRIES, SynAckUnderWay(strict, mtu, ports, tries, again + 1));
  }

  /** The client is connected and back from its call; its ACK is under way. */
  function AckUnderWay(strict: bool, mtu: nat, ports: (int, int), again: nat): Setup {
    Setup(Net(strict, mtu, ClientEnd(ports, Connected, 1, Quiet(Idle, 0)),
              ServerEnd(ports, Connecting, Quiet(Blocked, again)), [AckOf(ports)], []), Returned, Waits)
  }

  lemma ClientReturns(strict: bool, mtu: nat, ports: (int, int), tries: nat, again: nat)
    ensures Leads(SynAckUnderWay(strict, mtu, ports, tries, again), [ToClient, ClientRuns, ClientTests],
                  AckUnderWay(strict, mtu, ports, again))
  {
    var s3 := AckUnderWay(strict, mtu, ports, again);
    var s2 := s3.(client := Tests);
    var s1 := s2.(net := s2.net.(near := ClientEnd(ports, Connected, 1, Quiet(Woken, tries))), client := Waits);
    assert [SynAckOf(ports)][1..] == [] && [] + [AckOf(ports)] == [AckOf(ports)];
    ThreeMoves(SynAckUnderWay(strict, mtu, ports, tries, again), ToClient, s1, ClientRuns, s2, ClientTests, s3);
  }

  /** Both ends are connected and back from their calls; nothing is under way. */
  function Connection(strict: bool, mtu: nat, ports: (int, int)): Setup {
    Setup(Net(strict, mtu, ClientEnd(ports, Connected, 1, Quiet(Idle, 0)),
              ServerEnd(ports, Connected, Quiet(Idle, 0)), [], []), Returned, Returned)
  }

  /** The server's packet is sent again, and the connected client answers. */
  const ACK_LOST := [LostToServer] + (SERVER_TRIES + [ToClient])

  function AckGone(strict: bool, mtu: nat, ports: (int, int), again: nat, back: seq<Packet>): Setup {
    Setup(Net(strict, mtu, ClientEnd(ports, Connected, 1, Quiet(Idle, 0)),
              ServerEnd(ports, Connecting, Quiet(Blocked, again)), [], back), Returned, Waits)
  }

  lemma ServerInsists(strict: bool, mtu: nat, ports: (int, int), again: nat)
    requires again < 6
    ensures Leads(AckGone(strict, mtu, ports, again, []), SERVER_TRIES,
                  AckGone(strict, mtu, ports, again + 1, [SynAckOf(ports)]))
  {
    var s, s3 := AckGone(strict, mtu, ports, again, []), AckGone(strict, mtu, ports, again + 1, [SynAckOf(ports)]);
    var s1 := s.(net := s.net.(far := ServerEnd(ports, Connecting, Quiet(Woken, again).(timedOut := true))));
    var s2 := s3.(net := s3.net.(far := ServerEnd(ports, Connecting, Quiet(Idle, again + 1))), server := Tests);
    assert [] + [SynAckOf(ports)] == [SynAckOf(ports)];
    TimedOutRound(s.net.far, SynAck);
    assert Step(s1, ServerRuns) == Some(s2);
    ThreeMoves(s, ServerAlarm, s1, ServerRuns, s2, ServerTests, s3);
  }

  lemma ClientAnswersAgain(strict: bool, mtu: nat, ports: (int, int), again: nat)
    ensures Step(AckGone(strict, mtu, ports, again, [SynAckOf(ports)]), ToClient)
            == Some(AckUnderWay(strict, mtu, ports, again))
  {
    assert [SynAckOf(ports)][1..] == [] && [] + [AckOf(ports)] == [AckOf(ports)];
  }

  /** The ACK is lost, so the SYNACK is sent again, which the connected client answers. */
  lemma AckLost(strict: bool, mtu: nat, ports: (int, int), again: nat)
    requires again < 6
    ensures Leads(AckUnderWay(strict, mtu, ports, again), ACK_LOST, AckUnderWay(strict, mtu, ports, again + 1))
  {
    var s, s1 := AckUnderWay(strict, mtu, ports, again), AckGone(strict, mtu, ports, again, []);
    var s2, s3 := AckGone(strict, mtu, ports, again + 1, [SynAckOf(ports)]), AckUnderWay(strict, mtu, ports, again + 1);
    ServerInsists(strict, mtu, ports, again);
    ClientAnswersAgain(strict, mtu, ports, again + 1);
    OneMove(s2, ToClient, s3);
    Joined(s1, SERVER_TRIES, s2, [ToClient], s3);
    assert [AckOf(ports)][1..] == [];
    OneMove(s, LostToServer, s1);
    Joined(s, [LostToServer], s1, SERVER_TRIES + [ToClient], s3);
  }

  lemma ServerReturns(strict: bool, mtu: nat, ports: (int, int), again: nat)
    ensures Leads(AckUnderWay(strict, mtu, ports, again), [ToServer, ServerRuns, ServerTests],
                  Connection(strict, mtu, ports))
  {
    var s3 := Connection(strict, mtu, ports);
    var s2 := s3.(server := Tests);
    var s1 := s2.(net := s2.net.(far := ServerEnd(ports, Connected, Quiet(Woken, again))), server := Waits);
    assert [AckOf(ports)][1..] == [];
    ThreeMoves(AckUnderWay(strict, mtu, ports, again), ToServer, s1, ServerRuns, s2, ServerTests, s3);
  }

  /** The client calls, and n SYNs are lost; the server answers, and m SYNACKs are lost. */
  function Opened(n: nat): seq<Move> {
    if n == 0 then [ClientConnects, ClientTests, ServerTests] else Opened(n - 1) + SYN_LOST
  }

  function Answered(n: nat, m: nat): seq<Move> {
    if m == 0 then Opened(n) + [ToServer, ServerRuns, ServerTests] else Answered(n, m - 1) + SYNACK_LOST
  }

  /** The client returns, and l of its ACKs are lost. */
  function ClientBack(n: nat, m: nat, l: nat): seq<Move> {
    if l == 0 then Answered(n, m) + [ToClient, ClientRuns, ClientTests] else ClientBack(n, m, l - 1) + ACK_LOST
  }

  lemma {:induction false} SynsLost(strict: bool, mtu: nat, ports: (int, int), n: nat)
    requires n <= 6
    ensures Leads(Opening(strict, mtu, ports.0, ports.1), Opened(n), SynUnderWay(strict, mtu, ports, n))
  {
    if n == 0 {
      ClientBegins(strict, mtu, ports);
    } else {
      SynsLost(strict, mtu, ports, n - 1);
      SynLost(strict, mtu, ports, n - 1);
      Joined(Opening(strict, mtu, ports.0, ports.1), Opened(n - 1), SynUnderWay(strict, mtu, ports, n - 1),
             SYN_LOST, SynUnderWay(strict, mtu, ports, n));
    }
  }

  lemma {:induction false} SynAcksLost(strict: bool, mtu: nat, ports: (int, int), n: nat, m: nat)
    requires n <= 6 && m <= 6
    ensures Leads(Opening(strict, mtu, ports.0, ports.1), Answered(n, m), SynAckUnderWay(strict, mtu, ports, n, m))
  {
    var begin := Opening(strict, mtu, ports.0, ports.1);
    if m == 0 {
      SynsLost(strict, mtu, ports, n);
      ServerAnswers(strict, mtu, ports, n);
      Joined(begin, Opened(n), SynUnderWay(strict, mtu, ports, n), [ToServer, ServerRuns, ServerTests],
             SynAckUnderWay(strict, mtu, ports, n, 0));
    } else {
      SynAcksLost(strict, mtu, ports, n, m - 1);
      SynAckLost(strict, mtu, ports, n, m - 1);
      Joined(begin, Answered(n, m - 1), SynAckUnderWay(strict, mtu, ports, n, m - 1), SYNACK_LOST,
             SynAckUnderWay(strict, mtu, ports, n, m));
    }
  }

  lemma NoAckLost(strict: bool, mtu: nat, ports: (int, int), n: nat, m: nat)
    requires n <= 6 && m <= 6
    ensures Leads(Opening(strict, mtu, ports.0, ports.1), ClientBack(n, m, 0), AckUnderWay(strict, mtu, ports, m))
  {
    SynAcksLost(strict, mtu, ports, n, m);
    ClientReturns(strict, mtu, ports, n, m);
    Joined(Opening(strict, mtu, ports.0, ports.1), Answered(n, m), SynAckUnderWay(strict, mtu, ports, n, m),
           [ToClient, ClientRuns, ClientTests], AckUnderWay(strict, mtu, ports, m));
  }

  lemma {:induction false} AcksLost(strict: bool, mtu: nat, ports: (int, int), n: nat, m: nat, l: nat)
    requires n <= 6 && m + l <= 6
    ensures Leads(Opening(strict, mtu, ports.0, ports.1), ClientBack(n, m, l), AckUnderWay(strict, mtu, ports, m + l))
  {
    if l == 0 {
      NoAckLost(strict, mtu, ports, n, m);
    } else {
      AcksLost(strict, mtu, ports, n, m, l - 1);
      AckLost(strict, mtu, ports, m + l - 1);
      Joined(Opening(strict, mtu, ports.0, ports.1), ClientBack(n, m, l - 1),
             AckUnderWay(strict, mtu, ports, m + l - 1), ACK_LOST, AckUnderWay(strict, mtu, ports, m + l));
    }
  }

  /** The handshake completes in spite of up to six SYNs, and up to six SYNACKs and ACKs, that are
      lost: both calls return, and both ends are as the byte stream starts from. */
  lemma HandshakeCompletes(strict: bool, mtu: nat, ports: (int, int), n: nat, m: nat, l: nat)
    returns (run: seq<Setup>)
    requires n <= 6 && m + l <= 6
    ensures IsSetup(run, ClientBack(n, m, l) + [ToServer, ServerRuns, ServerTests], ports.0, ports.1)
    ensures run[|run| - 1] == Connection(strict, mtu, ports)
    ensures mtu >= 1 ==> Initial(run[|run| - 1].net)
  {
    AcksLost(strict, mtu, ports, n, m, l);
    ServerReturns(strict, mtu, ports, m + l);
    Joined(Opening(strict, mtu, ports.0, ports.1), ClientBack(n, m, l), AckUnderWay(strict, mtu, ports, m + l),
           [ToServer, ServerRuns, ServerTests], Connection(strict, mtu, ports));
    run := RunOf(strict, mtu, ports, ClientBack(n, m, l) + [ToServer, ServerRuns, ServerTests],
                     Connection(strict, mtu, ports));
  }

  // ---- Giving up ---------------------------------------------------------------------------

  function Alarms(moves: seq<Move>): nat {
    if moves == [] then 0 else Alarms(moves[..|moves| - 1]) + if moves[|moves| - 1] == ClientAlarm then 1 else 0
  }

  function TimeOuts(t: Sender): nat { t.tries + if t.timedOut then 1 else 0 }

  lemma TimeOutsCounted(s: Setup, m: Move)
    requires Step(s, m).Some? && (s.client == GaveUp ==> s.net.near.send.tries >= 7)
    ensures var s' := Step(s, m).value;
            && TimeOuts(s'.net.near.send) <= TimeOuts(s.net.near.send) + (if m == ClientAlarm then 1 else 0)
            && (s'.client == GaveUp ==> s'.net.near.send.tries >= 7)
  {
    if m == ToClient && s.net.back != [] { HandlerTimeOuts(s.net.near, s.net.back[0], s.net.strict); }
  }

  lemma HandlerTimeOuts(e: Endpoint, p: Packet, strict: bool)
    ensures TimeOuts(Handle(e, p, strict).0.send) <= TimeOuts(e.send)
  {}

  /** A client gives up only after its alarm has gone off seven times. */
  lemma {:induction false} SevenTimeOuts(run: seq<Setup>, moves: seq<Move>, clientPort: int, serverPort: int, k: nat)
    requires IsSetup(run, moves, clientPort, serverPort) && k < |run|
    ensures TimeOuts(run[k].net.near.send) <= Alarms(moves[..k])
    ensures run[k].client == GaveUp ==> run[k].net.near.send.tries >= 7
    ensures run[k].client == GaveUp ==> Alarms(moves[..k]) >= 7
  {
    if k == 0 {
    } else {
      SevenTimeOuts(run, moves, clientPort, serverPort, k - 1);
      assert MoveAt(run, moves, k - 1);
      TimeOutsCounted(run[k - 1], moves[k - 1]);
      assert moves[..k][..k - 1] == moves[..k - 1];
    }
  }

  /** The socket of such a client is gone: nothing happens to it any more, and its call never
      returns a connection. */
  lemma {:induction false} GoneForGood(run: seq<Setup>, moves: seq<Move>, clientPort: int, serverPort: int,
                                       i: nat, k: nat)
    requires IsSetup(run, moves, clientPort, serverPort) && i <= k < |run| && run[i].client == GaveUp
    ensures run[k].client == GaveUp && run[k].net.near == run[i].net.near
  {
    if i == k {
    } else {
      GoneForGood(run, moves, clientPort, serverPort, i, k - 1);
      assert MoveAt(run, moves, k - 1);
      NothingHappens(run[k - 1], moves[k - 1]);
    }
  }

  lemma NothingHappens(s: Setup, m: Move)
    requires s.client == GaveUp && Step(s, m).Some?
    ensures Step(s, m).value.client == GaveUp && Step(s, m).value.net.near == s.net.near
  {}

  function ClientGone(strict: bool, mtu: nat, ports: (int, int)): Setup {
    Setup(Net(strict, mtu, ClientEnd(ports, Connecting, 0, Quiet(Idle, 7)), Unheard(ports), [SynOf(ports)], []),
          GaveUp, Listens(0))
  }

  lemma SeventhTimeOut(strict: bool, mtu: nat, ports: (int, int))
    ensures Leads(SynUnderWay(strict, mtu, ports, 6), [LostToServer, ClientAlarm, ClientRuns],
                  ClientGone(strict, mtu, ports))
  {
    var s, s1, s3 := SynUnderWay(strict, mtu, ports, 6), SynGone(strict, mtu, ports, 6), ClientGone(strict, mtu, ports);
    var s2 := s1.(net := s1.net.(near := ClientEnd(ports, Connecting, 0, Quiet(Woken, 6).(timedOut := true))));
    assert [SynOf(ports)][1..] == [] && [] + [SynOf(ports)] == [SynOf(ports)];
    TimedOutRound(s1.net.near, Syn);
    assert Step(s2, ClientRuns) == Some(s3);
    ThreeMoves(s, LostToServer, s1, ClientAlarm, s2, ClientRuns, s3);
  }

  /** And so it does: the seventh time-out in a row is the last. */
  lemma ClientGivesUp(strict: bool, mtu: nat, ports: (int, int)) returns (run: seq<Setup>)
    ensures IsSetup(run, Opened(6) + [LostToServer, ClientAlarm, ClientRuns], ports.0, ports.1)
    ensures run[|run| - 1].client == GaveUp
  {
    var s, s3 := SynUnderWay(strict, mtu, ports, 6), ClientGone(strict, mtu, ports);
    SynsLost(strict, mtu, ports, 6);
    SeventhTimeOut(strict, mtu, ports);
    Joined(Opening(strict, mtu, ports.0, ports.1), Opened(6), s, [LostToServer, ClientAlarm, ClientRuns], s3);
    run := RunOf(strict, mtu, ports, Opened(6) + [LostToServer, ClientAlarm, ClientRuns], s3);
  }

  /** A server that has given up. */
  ghost predicate Deaf(e: Endpoint) { e.state == Listening && e.ack == 1 }

  /** It listens again, but its `ack` is still that of the first SYN, and every client begins with
      the same number: no SYN is accepted any more. */
  lemma {:induction false} DeafForGood(run: seq<Setup>, moves: seq<Move>, clientPort: int, serverPort: int,
                                       i: nat, k: nat)
    requires IsSetup(run, moves, clientPort, serverPort) && i <= k < |run| && Deaf(run[i].net.far)
    ensures Deaf(run[k].net.far)
  {
    if i == k {
    } else {
      DeafForGood(run, moves, clientPort, serverPort, i, k - 1);
      SetupInv(run, moves, clientPort, serverPort, k - 1);
      assert MoveAt(run, moves, k - 1);
      StaysDeaf(run[k - 1], moves[k - 1], clientPort);
    }
  }

  lemma StaysDeaf(s: Setup, m: Move, port: int)
    requires Inv(s, port) && Deaf(s.net.far) && Step(s, m).Some?
    ensures Deaf(Step(s, m).value.net.far)
  {
    if m == ToServer { assert UpOk(s.net.out[0], port, s.net.near.state == Connected); }
  }

  function DeafServer(ports: (int, int)): Endpoint { ServerEnd(ports, Listening, Quiet(Idle, 0)) }

  /** The server has given up on a client; two SYNACKs are under way to it, or the last one. */
  function ServerGone(strict: bool, mtu: nat, ports: (int, int), back: seq<Packet>): Setup {
    Setup(Net(strict, mtu, ClientEnd(ports, Connecting, 0, Quiet(Blocked, 0)), DeafServer(ports), [], back),
          Waits, Tests)
  }

  lemma ServerGivesUp(strict: bool, mtu: nat, ports: (int, int))
    ensures Leads(SynAckUnderWay(strict, mtu, ports, 0, 6), [ServerAlarm, ServerRuns, LostToClient],
                  ServerGone(strict, mtu, ports, [SynAckOf(ports)]))
  {
    var s := SynAckUnderWay(strict, mtu, ports, 0, 6);
    var s1 := s.(net := s.net.(far := ServerEnd(ports, Connecting, Quiet(Woken, 6).(timedOut := true))));
    var s2 := ServerGone(strict, mtu, ports, [SynAckOf(ports), SynAckOf(ports)]);
    TimedOutRound(s.net.far, SynAck);
    assert [SynAckOf(ports)] + [SynAckOf(ports)] == [SynAckOf(ports), SynAckOf(ports)];
    assert [SynAckOf(ports), SynAckOf(ports)][1..] == [SynAckOf(ports)];
    assert Step(s1, ServerRuns) == Some(s2);
    ThreeMoves(s, ServerAlarm, s1, ServerRuns, s2, LostToClient, ServerGone(strict, mtu, ports, [SynAckOf(ports)]));
  }

  function FalseConnection(strict: bool, mtu: nat, ports: (int, int)): Setup {
    Setup(Net(strict, mtu, ClientEnd(ports, Connected, 1, Quiet(Idle, 0)), DeafServer(ports), [AckOf(ports)], []),
          Returned, Tests)
  }

  lemma ClientHearsLate(strict: bool, mtu: nat, ports: (int, int))
    ensures Leads(ServerGone(strict, mtu, ports, [SynAckOf(ports)]), [ToClient, ClientRuns, ClientTests],
                  FalseConnection(strict, mtu, ports))
  {
    var s3 := FalseConnection(strict, mtu, ports);
    var s2 := s3.(client := Tests);
    var s1 := s2.(net := s2.net.(near := ClientEnd(ports, Connected, 1, Quiet(Woken, 0))), client := Waits);
    assert [SynAckOf(ports)][1..] == [] && [] + [AckOf(ports)] == [AckOf(ports)];
    ThreeMoves(ServerGone(strict, mtu, ports, [SynAckOf(ports)]), ToClient, s1, ClientRuns, s2, ClientTests, s3);
  }

  /** The call of the client can then return a connection to a server that has gone back to
      listening and never returns one. */
  lemma ConnectedToDeafServer(strict: bool, mtu: nat, ports: (int, int)) returns (run: seq<Setup>, moves: seq<Move>)
    ensures IsSetup(run, moves, ports.0, ports.1)
    ensures run[|run| - 1].client == Returned && Deaf(run[|run| - 1].net.far)
  {
    var begin, gone := Opening(strict, mtu, ports.0, ports.1), ServerGone(strict, mtu, ports, [SynAckOf(ports)]);
    SynAcksLost(strict, mtu, ports, 0, 6);
    ServerGivesUp(strict, mtu, ports);
    Joined(begin, Answered(0, 6), SynAckUnderWay(strict, mtu, ports, 0, 6), [ServerAlarm, ServerRuns, LostToClient],
           gone);
    moves := Answered(0, 6) + [ServerAlarm, ServerRuns, LostToClient];
    ClientHearsLate(strict, mtu, ports);
    Joined(begin, moves, gone, [ToClient, ClientRuns, ClientTests], FalseConnection(strict, mtu, ports));
    moves := moves + [ToClient, ClientRuns, ClientTests];
    run := RunOf(strict, mtu, ports, moves, FalseConnection(strict, mtu, ports));
  }

  // ---- A time-out that stays counted ---------------------------------------------------------

  /** The client is back from its call with a time-out counted; its ACK is under way. */
  function BackWithTry(strict: bool, mtu: nat, ports: (int, int)): Setup {
    var s := AckUnderWay(strict, mtu, ports, 0);
    s.(net := s.net.(near := ClientEnd(ports, Connected, 1, Quiet(Idle, 1))))
  }

  lemma AlarmAfterAnswer(strict: bool, mtu: nat, ports: (int, int))
    ensures Leads(SynAckUnderWay(strict, mtu, ports, 0, 0), [ToClient, ClientAlarm, ClientRuns],
                  BackWithTry(strict, mtu, ports).(client := Tests))
  {
    var s3 := BackWithTry(strict, mtu, ports).(client := Tests);
    var s1 := s3.(net := s3.net.(near := ClientEnd(ports, Connected, 1, Quiet(Woken, 0))), client := Waits);
    var s2 := s3.(net := s3.net.(near := ClientEnd(ports, Connected, 1, Quiet(Woken, 0).(timedOut := true))),
                  client := Waits);
    assert [SynAckOf(ports)][1..] == [] && [] + [AckOf(ports)] == [AckOf(ports)];
    ThreeMoves(SynAckUnderWay(strict, mtu, ports, 0, 0), ToClient, s1, ClientAlarm, s2, ClientRuns, s3);
  }

  /** An alarm that goes off between the wake-up of an opening thread and its next step leaves a
      try counted on the new connection. */
  lemma TryStaysCounted(strict: bool, mtu: nat, ports: (int, int)) returns (run: seq<Setup>, moves: seq<Move>)
    ensures IsSetup(run, moves, ports.0, ports.1) && LostToServer !in moves && LostToClient !in moves
    ensures run[|run| - 1].client == Returned && run[|run| - 1].net.near.send.tries == 1
  {
    var begin, s := Opening(strict, mtu, ports.0, ports.1), SynAckUnderWay(strict, mtu, ports, 0, 0);
    var s3, s4 := BackWithTry(strict, mtu, ports).(client := Tests), BackWithTry(strict, mtu, ports);
    SynAcksLost(strict, mtu, ports, 0, 0);
    AlarmAfterAnswer(strict, mtu, ports);
    Joined(begin, Answered(0, 0), s, [ToClient, ClientAlarm, ClientRuns], s3);
    moves := Answered(0, 0) + [ToClient, ClientAlarm, ClientRuns];
    OneMove(s3, ClientTests, s4);
    Joined(begin, moves, s3, [ClientTests], s4);
    moves := moves + [ClientTests];
    run := RunOf(strict, mtu, ports, moves, s4);
  }
}

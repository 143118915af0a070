/** The stop-and-wait byte stream of minisocket.c: the receive handler, the
    fragmenting send loop with retransmission, and the partial receive. */
module Minisocket {
  import opened Options

  // A send gives up when it has timed out more often than this.
  const MAX_TRIES := 6

  datatype MessageType = Syn | SynAck | Ack | Fin
  datatype SocketState = Start | Listening | Connecting | Connected | Closing | Closed

  /** `from` is the sender's port; `number` and `ackNumber` are the header's counters. */
  datatype Packet = Packet(kind: MessageType, from: int, number: int, ackNumber: int, data: string)

  /** A buffered fragment of which the first `offset` bytes have been returned. */
  datatype Item = Item(data: string, offset: nat)

  /** The sending thread: idle, at the head of the send loop, blocked in waiT,
      released from waiT but not yet running, or stopped by a failed send. */
  datatype SendPc = Idle | Looping | Blocked | Woken | Failed

  /** The sending side. `message` is what the current send was asked to transmit and `done`
      how much of it has been counted as sent. The last three fields record history: the
      bytes handed to send, the fragments sent under a new number, and how many of those
      were counted as sent. */
  datatype Sender = Sender(pc: SendPc, tries: nat, timedOut: bool, message: string, done: nat,
                           asked: string, issued: seq<string>, counted: nat)

  /** The receiving side. `token`, `blocked` and `woken` are the semaphore
      buffer_has_stuff: its tokens, the readers waiting in P and those past it. The last
      two fields record history: the data accepted from the peer with its numbers, and
      the bytes returned by receive. */
  datatype Reader = Reader(buffer: seq<Item>, token: nat, blocked: nat, woken: nat,
                           delivered: seq<(int, string)>, taken: string)

  /** One end of a connection. */
  datatype Endpoint = Endpoint(state: SocketState, port: int, peer: int, number: int, ack: int,
                               listenWakes: nat, send: Sender, recv: Reader)

  // ---- The receive handler ---------------------------------------------------

  function Control(e: Endpoint, kind: MessageType): Packet {
    Packet(kind, e.port, e.number, e.ack, "")
  }

  predicate Accepts(e: Endpoint, p: Packet) {
    || p.number == e.ack + 1
    || ((p.kind == Ack || p.kind == SynAck) && p.data == "" && p.ackNumber == e.number)
  }

  /** V on buffer_has_stuff: a blocked reader is released, otherwise a token is left. */
  function SignalReaders(r: Reader): Reader {
    if r.blocked > 0 then r.(blocked := r.blocked - 1, woken := r.woken + 1)
    else r.(token := r.token + 1)
  }

  function Enqueue(r: Reader, p: Packet): Reader {
    var r' := r.(buffer := r.buffer + [Item(p.data, 0)],
                 delivered := if p.data == "" then r.delivered else r.delivered + [(p.number, p.data)]);
    if |r'.buffer| == 1 then SignalReaders(r') else r'
  }

  /** wake_from_packet: the sender, if it is still queued for a wake-up, is released. */
  function WakeSender(t: Sender): Sender {
    t.(timedOut := false, pc := if t.pc == Blocked then Woken else t.pc)
  }

  /** The handler. `strict` tells whether the test for a payload discounts the routing
      header; as coded it does not, so every accepted ACK counts as carrying data. */
  function Handle(e: Endpoint, p: Packet, strict: bool): (Endpoint, Option<Packet>) {
    if !Accepts(e, p) then (e, Some(Control(e, Ack)))
    else
      var f := e.(ack := p.number);
      match f.state
      case Start => (f, None)
      case Listening =>
        if p.kind == Syn then
          var g := f.(peer := p.from, state := Connecting, listenWakes := f.listenWakes + 1,
                      send := f.send.(timedOut := false));
          (g, Some(Control(g, SynAck)))
        else (f, None)
      case Connecting =>
        if p.kind == SynAck then (f.(state := Connected, send := WakeSender(f.send)), Some(Control(f, Ack)))
        else if p.kind == Ack then (f.(state := Connected, send := WakeSender(f.send)), None)
        else (f, None)
      case Connected => (
        match p.kind
        case Syn => (f, None)
        case SynAck => (f, Some(Control(f, Ack)))
        case Ack =>
          if p.data != "" || !strict then
            (f.(send := WakeSender(f.send), recv := Enqueue(f.recv, p)), Some(Control(f, Ack)))
          else (f.(send := WakeSender(f.send)), None)
        case Fin => (f.(state := Closing), Some(Control(f, Ack))))
      case Closing =>
        if p.kind == Fin then (f, Some(Control(f, Ack)))
        else if p.kind == Ack then (f.(state := Closed), None)
        else (f, None)
      case Closed => (f, None)
  }

  // ---- Sending --------------------------------------------------------------------

  /** The next fragment: what remains of the message, cut to `mtu` bytes. */
  function Fragment(t: Sender, mtu: nat): string
    requires t.done <= |t.message|
  {
    if |t.message| - t.done > mtu then t.message[t.done..t.done + mtu] else t.message[t.done..]
  }

  predicate CanStart(e: Endpoint) { e.state == Connected && e.send.pc == Idle }

  function StartSend(t: Sender, message: string): Sender {
    t.(message := message, done := 0, asked := t.asked + message,
       pc := if message == "" then Idle else Looping)
  }

  predicate CanTransmit(t: Sender) { t.pc == Looping && t.done < |t.message| }

  /** One round of the send loop up to the wait: a new number unless this is a retry. */
  function Transmit(e: Endpoint, mtu: nat): (Endpoint, Packet)
    requires CanTransmit(e.send)
  {
    var data := Fragment(e.send, mtu);
    var f := if e.send.tries == 0 then
               e.(number := e.number + 1, send := e.send.(pc := Blocked, issued := e.send.issued + [data]))
             else e.(send := e.send.(pc := Blocked));
    (f, Packet(Ack, f.port, f.number, f.ack, data))
  }

  predicate CanTimeOut(t: Sender) { t.pc == Blocked || t.pc == Woken }

  /** The alarm set by waiT goes off. */
  function TimeOut(t: Sender): Sender { t.(timedOut := true, pc := Woken) }

  predicate CanResume(t: Sender) { t.pc == Woken && t.done < |t.message| }

  /** The rest of the round, once released from the wait. */
  function Resume(t: Sender, mtu: nat): Sender
    requires CanResume(t)
  {
    var f := if t.timedOut then t.(tries := t.tries + 1, timedOut := false)
             else t.(tries := 0, counted := t.counted + 1, done := t.done + |Fragment(t, mtu)|);
    f.(pc := if f.tries > MAX_TRIES then Failed else if f.done < |f.message| then Looping else Idle)
  }

  // ---- Receiving ------------------------------------------------------------------

  /** What is left of one item, and of the whole buffer. */
  function Rest(i: Item): string
  {
    if i.offset <= |i.data| then i.data[i.offset..] else ""
  }

  function Bytes(buffer: seq<Item>): string {
    if buffer == [] then "" else Rest(buffer[0]) + Bytes(buffer[1..])
  }

  /** The loop of minisocket_receive: what it returns and what stays buffered. A fragment
      that does not fit is put back in front with a larger offset. */
  function Receive(buffer: seq<Item>, maxLen: nat): (string, seq<Item>) {
    if maxLen == 0 || buffer == [] then ("", buffer)
    else if |Rest(buffer[0])| > maxLen then
      (Rest(buffer[0])[..maxLen], [buffer[0].(offset := buffer[0].offset + maxLen)] + buffer[1..])
    else
      var (got, left) := Receive(buffer[1..], maxLen - |Rest(buffer[0])|);
      (Rest(buffer[0]) + got, left)
  }

  predicate CanArrive(e: Endpoint) { e.state == Connected }

  /** A reader calls receive and performs P on buffer_has_stuff. */
  function ReaderArrives(r: Reader): Reader {
    if r.token > 0 then r.(token := r.token - 1, woken := r.woken + 1)
    else r.(blocked := r.blocked + 1)
  }

  predicate CanRead(r: Reader) { r.woken > 0 }

  /** A reader past P takes up to maxLen bytes and passes the token on if data is left. */
  function ReaderRuns(r: Reader, maxLen: nat): Reader
    requires CanRead(r)
  {
    var (got, left) := Receive(r.buffer, maxLen);
    var r' := r.(woken := r.woken - 1, buffer := left, taken := r.taken + got);
    if |left| > 0 then SignalReaders(r') else r'
  }

  // ---- Opening and closing --------------------------------------------------------

  /** create_new_socket. */
  function Fresh(state: SocketState, port: int, peer: int): Endpoint {
    Endpoint(state, port, peer, 1, 0, 0, Sender(Idle, 0, false, "", 0, "", [], 0), Reader([], 0, 0, 0, [], ""))
  }

  /** minisocket_client_create sends its SYN and is connecting from then on. */
  function SendSyn(e: Endpoint): (Endpoint, Packet) { (e.(state := Connecting), Control(e, Syn)) }

  /** The loop of minisocket_client_create or minisocket_server_create from its wait to its
      next test: a time-out is counted and, while connecting, `kind` is sent again. */
  function Round(e: Endpoint, kind: MessageType): (Endpoint, Option<Packet>) {
    var t := e.send;
    var f := e.(send := t.(pc := Idle, timedOut := false, tries := if t.timedOut then t.tries + 1 else 0));
    (f, if t.timedOut && e.state == Connecting then Some(Control(f, kind)) else None)
  }

  predicate GivesUp(t: Sender) { t.tries > MAX_TRIES }

  /** A server that gives up listens again. */
  function ServerRound(e: Endpoint): (Endpoint, Option<Packet>) {
    var (f, p) := Round(e, SynAck);
    (if GivesUp(f.send) then f.(state := Listening, send := f.send.(tries := 0)) else f, p)
  }

  /** minisocket_close: the state that makes sends and receives fail. */
  function BeginClose(e: Endpoint): Endpoint { e.(state := Closing) }

  /** Whether its loop sends another FIN. */
  predicate ClosesOn(e: Endpoint) { e.state != Closed && e.send.tries <= MAX_TRIES }

  function SendFin(e: Endpoint): (Endpoint, Packet) { (e.(send := e.send.(pc := Blocked)), Control(e, Fin)) }

  /** The rest of its round, once released from the wait. */
  function AfterFin(t: Sender): Sender {
    t.(pc := Idle, timedOut := false, tries := if t.timedOut then t.tries + 1 else t.tries)
  }

  // ---- Properties of one receive ------------------------------------------------------

  lemma CutItem(i: Item, k: nat)
    requires k <= |Rest(i)|
    ensures Rest(i)[..k] + Rest(i.(offset := i.offset + k)) == Rest(i)
  {
    if i.offset <= |i.data| { assert Rest(i.(offset := i.offset + k)) == Rest(i)[k..]; }
  }

  lemma BytesCons(i: Item, rest: seq<Item>)
    ensures Bytes([i] + rest) == Rest(i) + Bytes(rest)
  {
    assert ([i] + rest)[1..] == rest;
  }

  lemma Associative(a: string, b: string, c: string)
    ensures (a + b) + c == a + (b + c)
  {}

  lemma PartialItem(buffer: seq<Item>, maxLen: nat)
    requires buffer != [] && 0 < maxLen < |Rest(buffer[0])|
    ensures var (got, left) := Receive(buffer, maxLen);
            got + Bytes(left) == Bytes(buffer) && |got| == maxLen
  {
    var i, rest := buffer[0], buffer[1..];
    var cut := i.(offset := i.offset + maxLen);
    var got, left := Rest(i)[..maxLen], [cut] + rest;
    assert Receive(buffer, maxLen) == (got, left);
    CutItem(i, maxLen);
    BytesCons(cut, rest);
    Associative(got, Rest(cut), Bytes(rest));
  }

  lemma WholeItem(buffer: seq<Item>, maxLen: nat, got: string, left: seq<Item>)
    requires buffer != [] && maxLen > 0 && |Rest(buffer[0])| <= maxLen
    requires Receive(buffer[1..], maxLen - |Rest(buffer[0])|) == (got, left)
    requires got + Bytes(left) == Bytes(buffer[1..])
    ensures Receive(buffer, maxLen) == (Rest(buffer[0]) + got, left)
    ensures (Rest(buffer[0]) + got) + Bytes(left) == Bytes(buffer)
  {
    Associative(Rest(buffer[0]), got, Bytes(left));
  }

  /** Receive neither loses nor invents a byte, and returns as much as it may. */
  lemma {:induction false} ReceiveConserves(buffer: seq<Item>, maxLen: nat)
    ensures var (got, left) := Receive(buffer, maxLen);
            && got + Bytes(left) == Bytes(buffer)
            && |got| == if maxLen <= |Bytes(buffer)| then maxLen else |Bytes(buffer)|
    decreases |buffer|
  {
    if maxLen > 0 && buffer != [] {
      if |Rest(buffer[0])| > maxLen {
        PartialItem(buffer, maxLen);
      } else {
        var rest := maxLen - |Rest(buffer[0])|;
        ReceiveConserves(buffer[1..], rest);
        WholeItem(buffer, maxLen, Receive(buffer[1..], rest).0, Receive(buffer[1..], rest).1);
      }
    }
  }

  /** Receiving twice is receiving once with the lengths added: where the reads are cut
      does not matter. */
  lemma ReceiveCutsAnywhere(buffer: seq<Item>, m: nat, n: nat)
    ensures var (got1, left1) := Receive(buffer, m);
            var (got2, left2) := Receive(left1, n);
            var (got, left) := Receive(buffer, m + n);
            got1 + got2 == got && Bytes(left2) == Bytes(left)
  {
    ReceiveConserves(buffer, m);
    ReceiveConserves(Receive(buffer, m).1, n);
    ReceiveConserves(buffer, m + n);
    Associative(Receive(buffer, m).0, Receive(Receive(buffer, m).1, n).0, Bytes(Receive(Receive(buffer, m).1, n).1));
    SameCut(Receive(buffer, m).0 + Receive(Receive(buffer, m).1, n).0, Bytes(Receive(Receive(buffer, m).1, n).1),
            Receive(buffer, m + n).0, Bytes(Receive(buffer, m + n).1));
  }

  lemma SameCut(a: string, b: string, c: string, d: string)
    requires a + b == c + d && |a| == |c|
    ensures a == c && b == d
  {
    assert a == (a + b)[..|a|] && c == (c + d)[..|c|];
    assert b == (a + b)[|a|..] && d == (c + d)[|c|..];
  }

  lemma {:induction false} BytesAppend(buffer: seq<Item>, i: Item)
    ensures Bytes(buffer + [i]) == Bytes(buffer) + Rest(i)
  {
    if buffer == [] {
      BytesCons(i, []);
      assert [] + [i] == [i] + [];
    } else {
      BytesAppend(buffer[1..], i);
      assert (buffer + [i])[1..] == buffer[1..] + [i];
      Associative(Rest(buffer[0]), Bytes(buffer[1..]), Rest(i));
    }
  }

  // ---- The socket ---------------------------------------------------------------------

  /** Part way through the loop: `msg` is copied, and receiving the rest from what is
      buffered now completes the whole result. */
  ghost predicate CopyState(all: (string, seq<Item>), msg: string, buffer: seq<Item>, maxLen: nat)
    requires |msg| <= maxLen
  {
    var r := Receive(buffer, maxLen - |msg|);
    all.0 == msg + r.0 && all.1 == r.1
  }

  lemma CopyPart(all: (string, seq<Item>), msg: string, buffer: seq<Item>, maxLen: nat, cut: Item)
    requires |msg| < maxLen && buffer != [] && CopyState(all, msg, buffer, maxLen)
    requires |Rest(buffer[0])| > maxLen - |msg|
    requires cut == buffer[0].(offset := buffer[0].offset + (maxLen - |msg|))
    ensures CopyState(all, msg + Rest(buffer[0])[..maxLen - |msg|], [cut] + buffer[1..], maxLen)
  {
    var part := Rest(buffer[0])[..maxLen - |msg|];
    assert (msg + part) + "" == msg + part;
  }

  lemma CopyWhole(all: (string, seq<Item>), msg: string, buffer: seq<Item>, maxLen: nat)
    requires |msg| < maxLen && buffer != [] && CopyState(all, msg, buffer, maxLen)
    requires |Rest(buffer[0])| <= maxLen - |msg|
    ensures CopyState(all, msg + Rest(buffer[0]), buffer[1..], maxLen)
  {
    Associative(msg, Rest(buffer[0]), Receive(buffer[1..], maxLen - |msg| - |Rest(buffer[0])|).0);
  }

  /** A minisocket; its two sides are records that the methods update field by field. */
  class Socket {
    var state: SocketState
    var port: int
    var peer: int
    var number: int
    var ack: int
    var listenWakes: nat
    var send: Sender
    var recv: Reader

    function Current(): Endpoint
      reads this
    {
      Endpoint(state, port, peer, number, ack, listenWakes, send, recv)
    }

    constructor (state: SocketState, port: int, peer: int)
      ensures Current() == Fresh(state, port, peer)
    {
      this.state, this.port, this.peer := state, port, peer;
      number, ack, listenWakes := 1, 0, 0;
      send := Sender(Idle, 0, false, "", 0, "", [], 0);
      recv := Reader([], 0, 0, 0, [], "");
    }

    method HandleIncoming(p: Packet, strict: bool) returns (reply: Option<Packet>)
      modifies this
      ensures (Current(), reply) == Handle(old(Current()), p, strict)
    {
      if !(p.number == ack + 1
           || ((p.kind == Ack || p.kind == SynAck) && p.data == "" && p.ackNumber == number)) {
        return Some(Packet(Ack, port, number, ack, ""));
      }
      ack := p.number;
      reply := None;
      match state {
        case Start =>
        case Listening =>
          if p.kind == Syn {
            peer := p.from;
            reply := Some(Packet(SynAck, port, number, ack, ""));
            state := Connecting;
            send := send.(timedOut := false);
            listenWakes := listenWakes + 1;
          }
        case Connecting =>
          if p.kind == SynAck {
            reply := Some(Packet(Ack, port, number, ack, ""));
            state := Connected;
            WakeFromPacket();
          } else if p.kind == Ack {
            state := Connected;
            WakeFromPacket();
          }
        case Connected =>
          if p.kind == SynAck {
            reply := Some(Packet(Ack, port, number, ack, ""));
          } else if p.kind == Ack {
            if p.data != "" || !strict {
              Store(p);
              reply := Some(Packet(Ack, port, number, ack, ""));
            }
            WakeFromPacket();
          } else if p.kind == Fin {
            state := Closing;
            reply := Some(Packet(Ack, port, number, ack, ""));
          }
        case Closing =>
          if p.kind == Fin {
            reply := Some(Packet(Ack, port, number, ack, ""));
          } else if p.kind == Ack {
            state := Closed;
          }
        case Closed =>
      }
    }

    method WakeFromPacket()
      modifies `send
      ensures send == WakeSender(old(send))
    {
      send := send.(timedOut := false);
      if send.pc == Blocked { send := send.(pc := Woken); }
    }

    method SignalBuffer()
      modifies `recv
      ensures recv == SignalReaders(old(recv))
    {
      if recv.blocked > 0 {
        recv := recv.(blocked := recv.blocked - 1, woken := recv.woken + 1);
      } else {
        recv := recv.(token := recv.token + 1);
      }
    }

    method Store(p: Packet)
      modifies `recv
      ensures recv == Enqueue(old(recv), p)
    {
      recv := recv.(buffer := recv.buffer + [Item(p.data, 0)]);
      if p.data != "" { recv := recv.(delivered := recv.delivered + [(p.number, p.data)]); }
      if |recv.buffer| == 1 { SignalBuffer(); }
    }

    /** The send loop from its head to the wait. */
    method TransmitFragment(mtu: nat) returns (p: Packet)
      requires CanTransmit(send)
      modifies `number, `send
      ensures (Current(), p) == Transmit(old(Current()), mtu)
      ensures var rest := |old(send).message| - old(send).done; |p.data| == if rest > mtu then mtu else rest
    {
      var remaining := |send.message| - send.done;
      var length := if remaining > mtu then mtu else remaining;
      var data := send.message[send.done..send.done + length];
      assert send.message[send.done..send.done + remaining] == send.message[send.done..];
      if send.tries == 0 {
        number := number + 1;
        send := send.(issued := send.issued + [data]);
      }
      p := Packet(Ack, port, number, ack, data);
      send := send.(pc := Blocked);
    }

    /** The send loop from the wait to its next test. */
    method AfterWait(mtu: nat)
      requires CanResume(send)
      modifies `send
      ensures send == Resume(old(send), mtu)
      ensures var rest := |old(send).message| - old(send).done;
              send.done == old(send).done + if old(send).timedOut then 0 else if rest > mtu then mtu else rest
    {
      var remaining := |send.message| - send.done;
      if send.timedOut {
        send := send.(tries := send.tries + 1, timedOut := false);
      } else {
        send := send.(tries := 0, counted := send.counted + 1,
                      done := send.done + if remaining > mtu then mtu else remaining);
      }
      send := send.(pc := if send.tries > MAX_TRIES then Failed
                          else if send.done < |send.message| then Looping else Idle);
    }

    method Connect() returns (syn: Packet)
      modifies `state
      ensures (Current(), syn) == SendSyn(old(Current()))
    {
      syn := Packet(Syn, port, number, ack, "");
      state := Connecting;
    }

    /** The loop of minisocket_client_create from its wait to its next test. */
    method AfterClientWait() returns (again: Option<Packet>, failed: bool)
      modifies `send
      ensures (Current(), again) == Round(old(Current()), Syn)
      ensures failed == GivesUp(send)
    {
      again := None;
      send := send.(pc := Idle);
      if send.timedOut {
        send := send.(tries := send.tries + 1, timedOut := false);
        if state == Connecting { again := Some(Packet(Syn, port, number, ack, "")); }
      } else {
        send := send.(tries := 0);
      }
      failed := send.tries > MAX_TRIES;
    }

    /** The loop of minisocket_server_create from its wait to its next test. */
    method AfterServerWait() returns (again: Option<Packet>)
      modifies `state, `send
      ensures (Current(), again) == ServerRound(old(Current()))
    {
      again := None;
      send := send.(pc := Idle);
      if send.timedOut {
        send := send.(tries := send.tries + 1, timedOut := false);
        if state == Connecting { again := Some(Packet(SynAck, port, number, ack, "")); }
      } else {
        send := send.(tries := 0);
      }
      if send.tries > MAX_TRIES {
        state := Listening;
        send := send.(tries := 0, timedOut := false);
      }
    }

    /** minisocket_close up to its loop; false if the socket is closing already. */
    method StartClose() returns (ok: bool)
      modifies `state
      ensures ok <==> old(state) != Closing
      ensures Current() == BeginClose(old(Current()))
    {
      ok := state != Closing;
      if ok { state := Closing; }
    }

    /** One round of the loop of minisocket_close up to its wait; None behind the loop. */
    method CloseRound() returns (fin: Option<Packet>)
      modifies `send
      ensures fin.Some? <==> ClosesOn(old(Current()))
      ensures fin.Some? ==> (Current(), fin.value) == SendFin(old(Current()))
      ensures fin.None? ==> Current() == old(Current())
    {
      if state == Closed || send.tries > MAX_TRIES { return None; }
      fin := Some(Packet(Fin, port, number, ack, ""));
      send := send.(pc := Blocked);
    }

    /** The rest of that round. */
    method AfterCloseWait()
      modifies `send
      ensures send == AfterFin(old(send))
    {
      send := send.(pc := Idle);
      if send.timedOut { send := send.(tries := send.tries + 1, timedOut := false); }
    }

    /** The loop of minisocket_receive: dequeue fragments until enough bytes are copied; put
        an unfinished one back in front. */
    method CopyBytes(maxLen: nat) returns (msg: string)
      modifies `recv
      ensures (msg, recv.buffer) == Receive(old(recv.buffer), maxLen)
      ensures recv == old(recv).(buffer := recv.buffer)
    {
      var buffer := recv.buffer;
      msg := "";
      ghost var all := Receive(recv.buffer, maxLen);
      while |msg| < maxLen && |buffer| > 0
        invariant |msg| <= maxLen
        invariant CopyState(all, msg, buffer, maxLen)
        invariant recv == old(recv)
        decreases |buffer|, maxLen - |msg|
      {
        var item := buffer[0];
        ghost var before, whole := msg, buffer;
        buffer := buffer[1..];
        var rest := Rest(item);
        var size := if maxLen - |msg| >= |rest| then |rest| else maxLen - |msg|;
        msg := msg + rest[..size];
        if |rest| - size > 0 {
          var cut := item.(offset := item.offset + size);
          CopyPart(all, before, whole, maxLen, cut);
          buffer := [cut] + buffer;
        } else {
          CopyWhole(all, before, whole, maxLen);
          assert rest[..size] == rest;
        }
      }
      assert msg + "" == msg;
      recv := recv.(buffer := buffer);
    }

    /** minisocket_receive behind its P. */
    method TakeBytes(maxLen: nat) returns (msg: string)
      requires CanRead(recv)
      modifies `recv
      ensures msg == Receive(old(recv.buffer), maxLen).0
      ensures recv == ReaderRuns(old(recv), maxLen)
    {
      msg := CopyBytes(maxLen);
      recv := recv.(woken := recv.woken - 1, taken := recv.taken + msg);
      if |recv.buffer| > 0 { SignalBuffer(); }
    }
  }
}

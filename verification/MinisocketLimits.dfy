/** Runs in which the byte stream gives less than minisocket.h promises: a fragment is
    counted as sent although the other end has not received it. The first has a release that
    is not justified, the second a number that is skipped (module MinisocketCounts). */
module MinisocketLimits {
  import opened Options
  import opened Minisocket
  import opened MinisocketStream
  import opened MinisocketResults

  lemma Extend(lossless: bool, run: seq<Net>, flip: bool, a: Action, n': Net) returns (run': seq<Net>)
    requires IsRun(lossless, run) && (lossless ==> a != Lose)
    requires StepNear(run[|run| - 1].View(flip), a) == Some(n'.View(flip))
    ensures IsRun(lossless, run') && run' == run + [n']
  {
    run' := run + [n'];
    assert Next(run[|run| - 1], n', lossless);
    forall k: nat | k + 1 < |run'| ensures NextAt(lossless, run', k) {
      if k + 1 < |run| { assert NextAt(lossless, run, k); }
    }
  }

  // Sequences with an empty or one-element part.
  lemma Tidy<T>(a: T, b: T)
    ensures [] + [a] == [a] && [a] + [b] == [a, b] && [a][1..] == [] && [a, b][1..] == [b] && [a][0..] == [a]
    ensures var none: seq<T> := []; none + none == none
    ensures [] + [a, b] == [a, b] && [a, b][1..2] == [b] && [a, b][0..1] == [a]
  {}

  function Plain(send: Sender, number: int, ack: int, recv: Reader): Endpoint {
    Endpoint(Connected, 0, 0, number, ack, 0, send, recv)
  }

  const QUIET := Sender(Idle, 0, false, "", 0, "", [], 0)
  const UNREAD := Reader([], 0, 0, 0, [], "")

  // ---- Traffic in both directions -----------------------------------------------

  function Busy(pc: SendPc, message: string): Sender {
    Sender(pc, 0, false, message, 0, message, if pc == Looping then [] else [message], 0)
  }

  const CROSS_A := Packet(Ack, 0, 2, 1, "a")
  const CROSS_B := Packet(Ack, 0, 2, 1, "b")

  /** One end sends. */
  lemma OneSends() returns (run: seq<Net>)
    ensures IsRun(true, run)
    ensures run[|run| - 1] == Net(true, 10, Plain(Busy(Blocked, "a"), 2, 1, UNREAD),
                                  Plain(QUIET, 1, 1, UNREAD), [CROSS_A], [])
  {
    var n0 := Net(true, 10, Plain(QUIET, 1, 1, UNREAD), Plain(QUIET, 1, 1, UNREAD), [], []);
    var n1 := n0.(near := Plain(Busy(Looping, "a"), 1, 1, UNREAD));
    var n2 := n0.(near := Plain(Busy(Blocked, "a"), 2, 1, UNREAD), out := [CROSS_A]);
    Tidy('a', 'b'); Tidy("a", "b"); Tidy(CROSS_A, CROSS_B);
    run := Extend(true, [n0], false, StartSending("a"), n1);
    run := Extend(true, run, false, TransmitFragment, n2);
  }

  lemma OtherStarts() returns (run: seq<Net>)
    ensures IsRun(true, run)
    ensures run[|run| - 1] == Net(true, 10, Plain(Busy(Blocked, "a"), 2, 1, UNREAD),
                                  Plain(Busy(Looping, "b"), 1, 1, UNREAD), [CROSS_A], [])
  {
    run := OneSends();
    var n := run[|run| - 1];
    Tidy('b', 'a');
    run := Extend(true, run, true, StartSending("b"), n.(far := Plain(Busy(Looping, "b"), 1, 1, UNREAD)));
  }

  /** Both ends send at the same time. */
  lemma BothSend() returns (run: seq<Net>)
    ensures IsRun(true, run)
    ensures run[|run| - 1] == Net(true, 10, Plain(Busy(Blocked, "a"), 2, 1, UNREAD),
                                  Plain(Busy(Blocked, "b"), 2, 1, UNREAD), [CROSS_A], [CROSS_B])
  {
    run := OtherStarts();
    var n := run[|run| - 1];
    Tidy('b', 'a'); Tidy("b", "a"); Tidy(CROSS_B, CROSS_A);
    var n' := n.(far := Plain(Busy(Blocked, "b"), 2, 1, UNREAD), back := [CROSS_B]);
    run := Extend(true, run, true, TransmitFragment, n');
  }

  /** Without any loss: data from the peer releases a sender whose own fragment has not
      arrived yet, and the fragment is counted as sent. */
  lemma DataReleasesSender() returns (run: seq<Net>, n: Net)
    ensures IsRun(true, run) && n == run[|run| - 1] && n.strict
    ensures n.near.send.pc == Idle && n.near.send.counted == 1
    ensures n.far.recv.delivered == [] && n.far.ack == 1
  {
    run := BothSend();
    var n4 := run[|run| - 1];
    var got := Reader([Item("b", 0)], 1, 0, 0, [(2, "b")], "");
    var n5 := n4.(near := Plain(Busy(Woken, "a"), 2, 2, got), out := [CROSS_A, Packet(Ack, 0, 2, 2, "")], back := []);
    n := n5.(near := Plain(Sender(Idle, 0, false, "a", 1, "a", ["a"], 1), 2, 2, got));
    Tidy('a', 'b'); Tidy(CROSS_A, Packet(Ack, 0, 2, 2, "")); Tidy(CROSS_B, CROSS_B);
    Tidy(Item("b", 0), Item("b", 0)); Tidy((2, "b"), (2, "b"));
    assert Enqueue(UNREAD, CROSS_B) == got;
    run := Extend(true, run, true, Deliver, n5);
    run := Extend(true, run, false, SenderResumes, n);
  }

  // ---- A lost packet ------------------------------------------------------------------

  function Sending(pc: SendPc, tries: nat, timedOut: bool, done: nat, issued: seq<string>, counted: nat): Sender {
    Sender(pc, tries, timedOut, "ab", done, "ab", issued, counted)
  }

  const GOT_A := Reader([Item("a", 0)], 1, 0, 0, [(2, "a")], "")
  const FRAGMENT_A := Packet(Ack, 0, 2, 1, "a")
  const FRAGMENT_B := Packet(Ack, 0, 3, 1, "b")
  const ACK_A := Packet(Ack, 0, 1, 2, "")
  const ACK_B := Packet(Ack, 0, 1, 3, "")

  function Lossy(send: Sender, number: int, ack: int, recv: Reader, out: seq<Packet>, back: seq<Packet>): Net {
    Net(true, 1, Plain(send, number, 1, UNREAD), Plain(QUIET, 1, ack, recv), out, back)
  }

  lemma TimedOutOnce() returns (run: seq<Net>)
    ensures IsRun(false, run)
    ensures run[|run| - 1] == Lossy(Sending(Looping, 1, false, 0, ["a"], 0), 2, 1, UNREAD, [FRAGMENT_A], [])
  {
    var n0 := Lossy(QUIET, 1, 1, UNREAD, [], []);
    var n1 := Lossy(Sending(Looping, 0, false, 0, [], 0), 1, 1, UNREAD, [], []);
    var n2 := Lossy(Sending(Blocked, 0, false, 0, ["a"], 0), 2, 1, UNREAD, [FRAGMENT_A], []);
    var n3 := Lossy(Sending(Woken, 0, true, 0, ["a"], 0), 2, 1, UNREAD, [FRAGMENT_A], []);
    var n4 := Lossy(Sending(Looping, 1, false, 0, ["a"], 0), 2, 1, UNREAD, [FRAGMENT_A], []);
    Tidy('a', 'b'); Tidy("a", "b"); Tidy(FRAGMENT_A, FRAGMENT_A);
    run := Extend(false, [n0], false, StartSending("ab"), n1);
    run := Extend(false, run, false, TransmitFragment, n2);
    run := Extend(false, run, false, AlarmFires, n3);
    run := Extend(false, run, false, SenderResumes, n4);
  }

  /** The first fragment is sent twice because of an early alarm, so two acknowledgments come back. */
  lemma SentTwice() returns (run: seq<Net>)
    ensures IsRun(false, run)
    ensures run[|run| - 1] == Lossy(Sending(Blocked, 1, false, 0, ["a"], 0), 2, 2, GOT_A, [], [ACK_A, ACK_A])
  {
    run := TimedOutOnce();
    var n5 := Lossy(Sending(Blocked, 1, false, 0, ["a"], 0), 2, 1, UNREAD, [FRAGMENT_A, FRAGMENT_A], []);
    var n6 := Lossy(Sending(Blocked, 1, false, 0, ["a"], 0), 2, 2, GOT_A, [FRAGMENT_A], [ACK_A]);
    var n7 := Lossy(Sending(Blocked, 1, false, 0, ["a"], 0), 2, 2, GOT_A, [], [ACK_A, ACK_A]);
    Tidy('a', 'b'); Tidy(FRAGMENT_A, FRAGMENT_A); Tidy(ACK_A, ACK_A);
    Tidy(Item("a", 0), Item("a", 0)); Tidy((2, "a"), (2, "a"));
    run := Extend(false, run, false, TransmitFragment, n5);
    assert n5.out[1..] == [FRAGMENT_A] && Enqueue(UNREAD, FRAGMENT_A) == GOT_A;
    run := Extend(false, run, false, Deliver, n6);
    run := Extend(false, run, false, Deliver, n7);
  }

  const SECOND_SENT := Sending(Blocked, 0, false, 1, ["a", "b"], 1)

  /** The late acknowledgment stays under way while the second fragment is sent. */
  lemma SecondSent(run0: seq<Net>) returns (run: seq<Net>)
    requires IsRun(false, run0)
    requires run0[|run0| - 1] == Lossy(Sending(Blocked, 1, false, 0, ["a"], 0), 2, 2, GOT_A, [], [ACK_A, ACK_A])
    ensures IsRun(false, run) && run[|run| - 1] == Lossy(SECOND_SENT, 3, 2, GOT_A, [FRAGMENT_B], [ACK_A])
  {
    var n1 := Lossy(Sending(Woken, 1, false, 0, ["a"], 0), 2, 2, GOT_A, [], [ACK_A]);
    var n2 := Lossy(Sending(Looping, 0, false, 1, ["a"], 1), 2, 2, GOT_A, [], [ACK_A]);
    var n3 := Lossy(SECOND_SENT, 3, 2, GOT_A, [FRAGMENT_B], [ACK_A]);
    Tidy('a', 'b'); Tidy("a", "b"); Tidy(FRAGMENT_B, FRAGMENT_B); Tidy(ACK_A, ACK_A);
    run := Extend(false, run0, true, Deliver, n1);
    run := Extend(false, run, false, SenderResumes, n2);
    run := Extend(false, run, false, TransmitFragment, n3);
  }

  /** The second fragment is lost. The late acknowledgment of the first is answered with a
      control packet that already bears the second number, and the receiver takes it. */
  lemma NumberSkipped(run0: seq<Net>) returns (run: seq<Net>)
    requires IsRun(false, run0)
    requires run0[|run0| - 1] == Lossy(SECOND_SENT, 3, 2, GOT_A, [FRAGMENT_B], [ACK_A])
    ensures IsRun(false, run) && run[|run| - 1] == Lossy(SECOND_SENT, 3, 3, GOT_A, [], [])
  {
    var n4 := Lossy(SECOND_SENT, 3, 2, GOT_A, [], [ACK_A]);
    var n5 := Lossy(SECOND_SENT, 3, 2, GOT_A, [Packet(Ack, 0, 3, 1, "")], []);
    var n6 := Lossy(SECOND_SENT, 3, 3, GOT_A, [], []);
    Tidy(FRAGMENT_B, FRAGMENT_B); Tidy(Packet(Ack, 0, 3, 1, ""), ACK_A); Tidy(ACK_A, ACK_A);
    run := Extend(false, run0, false, Lose, n4);
    run := Extend(false, run, true, Deliver, n5);
    run := Extend(false, run, false, Deliver, n6);
  }

  /** The second fragment is sent again; the receiver takes it for an old packet. */
  lemma SentInVain(run0: seq<Net>) returns (run: seq<Net>)
    requires IsRun(false, run0)
    requires run0[|run0| - 1] == Lossy(SECOND_SENT, 3, 3, GOT_A, [], [])
    ensures IsRun(false, run)
    ensures run[|run| - 1] == Lossy(Sending(Blocked, 1, false, 1, ["a", "b"], 1), 3, 3, GOT_A, [FRAGMENT_B], [])
  {
    var n1 := Lossy(Sending(Woken, 0, true, 1, ["a", "b"], 1), 3, 3, GOT_A, [], []);
    var n2 := Lossy(Sending(Looping, 1, false, 1, ["a", "b"], 1), 3, 3, GOT_A, [], []);
    var n3 := Lossy(Sending(Blocked, 1, false, 1, ["a", "b"], 1), 3, 3, GOT_A, [FRAGMENT_B], []);
    Tidy('a', 'b'); Tidy(FRAGMENT_B, FRAGMENT_B);
    run := Extend(false, run0, false, AlarmFires, n1);
    run := Extend(false, run, false, SenderResumes, n2);
    run := Extend(false, run, false, TransmitFragment, n3);
  }

  /** That is acknowledged all the same. */
  lemma AcknowledgedInVain(run0: seq<Net>) returns (run: seq<Net>)
    requires IsRun(false, run0)
    requires run0[|run0| - 1] == Lossy(Sending(Blocked, 1, false, 1, ["a", "b"], 1), 3, 3, GOT_A, [FRAGMENT_B], [])
    ensures IsRun(false, run)
    ensures run[|run| - 1] == Lossy(Sending(Woken, 1, false, 1, ["a", "b"], 1), 3, 3, GOT_A, [], [])
  {
    var n4 := Lossy(Sending(Blocked, 1, false, 1, ["a", "b"], 1), 3, 3, GOT_A, [], [ACK_B]);
    var n5 := Lossy(Sending(Woken, 1, false, 1, ["a", "b"], 1), 3, 3, GOT_A, [], []);
    Tidy(FRAGMENT_B, FRAGMENT_B); Tidy(ACK_B, ACK_B);
    run := Extend(false, run0, false, Deliver, n4);
    run := Extend(false, run, true, Deliver, n5);
  }

  /** One loss and one early alarm: both fragments are counted as sent, nothing is under way
      any more, and the second fragment has not been and will not be delivered. */
  lemma LossGoesUnnoticed() returns (run: seq<Net>, n: Net)
    ensures IsRun(false, run) && n == run[|run| - 1] && n.strict
    ensures n.near.send.pc == Idle && n.near.send.issued == ["a", "b"] && n.near.send.counted == 2
    ensures n.far.recv.delivered == [(2, "a")] && n.out == [] && n.back == []
  {
    run := SentTwice();
    run := SecondSent(run);
    run := NumberSkipped(run);
    run := SentInVain(run);
    run := AcknowledgedInVain(run);
    n := Lossy(Sending(Idle, 0, false, 2, ["a", "b"], 2), 3, 3, GOT_A, [], []);
    Tidy('a', 'b');
    run := Extend(false, run, false, SenderResumes, n);
  }

  // ---- The payload test ---------------------------------------------------------------

  /** With the payload test as coded, a connected end answers every packet it is handed. With the
      routing header discounted it answers all but empty acknowledgments that it accepts. */
  lemma AnswersExactly(e: Endpoint, p: Packet, strict: bool)
    requires e.state == Connected && p.kind == Ack
    ensures Handle(e, p, strict).1.Some? <==> !(strict && Accepts(e, p) && p.data == "")
  {}

  /** The packets under way between the two ends. */
  function Traffic(n: Net): nat {
    |n.out| + |n.back|
  }

  lemma TrafficDelivered(n: Net, n': Net)
    requires Inv(n, true) && StepNear(n, Deliver) == Some(n')
    ensures n.out != [] && n'.strict == n.strict
    ensures Traffic(n') < Traffic(n) <==> n.strict && Accepts(n.far, n.out[0]) && n.out[0].data == ""
  {
    HeadFacts(n, true);
    AnswersExactly(n.far, n.out[0], n.strict);
  }

  lemma TrafficElse(n: Net, a: Action, n': Net)
    requires StepNear(n, a) == Some(n') && a != Lose && a != Deliver
    ensures n'.strict == n.strict && Traffic(n) <= Traffic(n')
  {}

  lemma TrafficStep(n: Net, a: Action, n': Net)
    requires Inv(n, true) && StepNear(n, a) == Some(n') && a != Lose
    ensures n'.strict == n.strict
    ensures Traffic(n') < Traffic(n) <==>
            a == Deliver && n.out != [] && n.strict && Accepts(n.far, n.out[0]) && n.out[0].data == ""
  {
    if a == Deliver { TrafficDelivered(n, n'); } else { TrafficElse(n, a, n'); }
  }

  lemma TrafficNext(n: Net, n': Net)
    requires Inv(n, true) && Next(n, n', true)
    ensures n'.strict == n.strict && (!n.strict ==> Traffic(n) <= Traffic(n'))
  {
    var flip, a :| StepNear(n.View(flip), a) == Some(n'.View(flip)) && (true ==> a != Lose);
    FlipInv(n, flip, true);
    TrafficStep(n.View(flip), a, n'.View(flip));
  }

  lemma TrafficFrom(run: seq<Net>, k: nat)
    requires IsRun(true, run) && k + 1 < |run| && !run[k].strict
    ensures !run[k + 1].strict && Traffic(run[k]) <= Traffic(run[k + 1])
  {
    RunInv(true, run, k);
    assert NextAt(true, run, k);
    TrafficNext(run[k], run[k + 1]);
  }

  lemma {:induction false} StaysLax(run: seq<Net>, k: nat)
    requires IsRun(true, run) && k < |run| && !run[0].strict
    ensures !run[k].strict
  {
    if k == 0 {
    } else {
      StaysLax(run, k - 1);
      TrafficFrom(run, k - 1);
    }
  }

  /** With the payload test as coded, traffic once begun never dies out on loss-free channels: in
      no run does the number of packets under way ever fall. */
  lemma {:induction false} TrafficNeverDies(run: seq<Net>, k: nat, m: nat)
    requires IsRun(true, run) && k <= m < |run| && !run[0].strict
    ensures Traffic(run[k]) <= Traffic(run[m])
  {
    if k == m {
    } else {
      TrafficNeverDies(run, k, m - 1);
      StaysLax(run, m - 1);
      TrafficFrom(run, m - 1);
    }
  }

  /** One acknowledgment is under way between two idle ends that agree on all counters. */
  ghost predicate LoneAck(n: Net) {
    && n.near.state == Connected && n.far.state == Connected
    && n.out == [Packet(Ack, n.near.port, n.near.number, n.near.ack, "")] && n.back == []
    && n.far.ack == n.near.number && n.near.ack == n.far.number
  }

  /** The shortest such traffic: with the payload test as coded a lone acknowledgment is replaced
      by one in the other direction; with the routing header discounted it is the last packet. */
  lemma LoneAckEchoes(n: Net)
    requires LoneAck(n)
    ensures StepNear(n, Deliver).Some?
    ensures var n' := StepNear(n, Deliver).value;
            && (!n.strict <==> LoneAck(n'.Flip()))
            && (n.strict <==> n'.out == [] && n'.back == [])
  {
    assert n.out[1..] == [];
  }
}

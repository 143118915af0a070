/** What routing guarantees in every reachable state of a network with any
    topology, any searches, losses, evictions and reorderings. */
module MinirouteResults {
  import opened Options
  import opened Miniroute

  // ---- Packets sent by the handlers are well formed ----------------------------------

  /** A node that is not on the path extends it. */
  lemma ExtendPath(c: Config, path: seq<Node>, k: nat, u: Node)
    requires SimplePath(c, path, k) && k + 1 < c.len
    requires u != NOBODY && u !in path && Linked(c, path[k], u)
    ensures SimplePath(c, path[k + 1 := u], k + 1)
  {}

  lemma StartPath(c: Config, u: Node)
    requires c.len > 0 && u != NOBODY
    ensures SimplePath(c, Alone(c.len, u), 0)
  {}

  lemma BroadcastOk(c: Config, u: Node, p: Packet)
    requires forall v :: Linked(c, u, v) ==> MessageOk(c, Message(v, p))
    ensures MessagesOk(c, Broadcast(c, u, p))
  {
    var ms := Broadcast(c, u, p);
    forall i | 0 <= i < |ms| ensures MessageOk(c, ms[i]) {
      assert Linked(c, u, Neighbours(c, u)[i]);
    }
  }

  lemma SearchOk(c: Config, u: Node, d: Node, id: int)
    requires c.len >= 2 && NoZeroNeighbour(c) && u != NOBODY && d != NOBODY && u != d
    ensures MessagesOk(c, Search(c, u, d, id))
  {
    StartPath(c, u);
    forall v | Linked(c, u, v) ensures MessageOk(c, Message(v, Packet(Discovery, d, id, c.len, 0, Alone(c.len, u)))) {}
    BroadcastOk(c, u, Packet(Discovery, d, id, c.len, 0, Alone(c.len, u)));
  }

  lemma ReplyStarts(c: Config, self: Node, p: Packet, path: seq<Node>)
    requires DiscoveryOk(c, Message(self, p)) && p.dest == self && p.pathLen + 1 < c.len
    requires path == p.path[p.pathLen + 1 := self]
    ensures var back := Reverse(Zeros(c.len), path, p.pathLen + 1);
            ReplyOk(c, Message(back[1], Packet(Reply, path[0], p.id, c.len, p.pathLen + 1, back)))
  {
    var n := p.pathLen + 1;
    ExtendPath(c, p.path, p.pathLen, self);
    var back := Reverse(Zeros(c.len), path, n);
    ReverseTwice(Zeros(c.len), Zeros(c.len), path, n);
    assert Route(c, Packet(Reply, path[0], p.id, c.len, n, back)) == path;
  }

  /** On a path without repetitions a node finds itself where it is. */
  lemma FindsItself(path: seq<Node>, k: nat, j: nat)
    requires k < |path| && SimpleBackwards(path, k) && j <= k
    ensures Find(path, path[j]) == j
  {
    FindFirst(path, path[j]);
  }

  /** A reply that is not home yet moves on and cannot run out of hops. */
  lemma ReplyAdvances(c: Config, m: Message)
    requires c.len >= 2 && ReplyOk(c, m) && m.packet.dest != m.to
    ensures m.packet.ttl - 1 > 0
    ensures var sent := Forward(m.to, m.packet.(ttl := m.packet.ttl - 1));
            |sent| == 1 && ReplyOk(c, sent[0])
            && sent[0] == Message(m.packet.path[c.len + 2 - m.packet.ttl], m.packet.(ttl := m.packet.ttl - 1))
  {
    var p := m.packet;
    var j := c.len + 1 - p.ttl;
    assert j != p.pathLen;
    FindsItself(p.path, p.pathLen, j);
    assert Route(c, p.(ttl := p.ttl - 1)) == Route(c, p);
  }

  lemma DataAdvances(c: Config, m: Message, j: nat)
    requires DataOk(c, m) && 1 <= j <= m.packet.pathLen && m.to == m.packet.path[j] && m.packet.dest != m.to
    ensures j < m.packet.pathLen
    ensures Forward(m.to, m.packet.(ttl := m.packet.ttl - 1)) ==
            [Message(m.packet.path[j + 1], m.packet.(ttl := m.packet.ttl - 1))]
    ensures DataOk(c, Message(m.packet.path[j + 1], m.packet.(ttl := m.packet.ttl - 1)))
  {
    var p := m.packet;
    FindsItself(p.path, p.pathLen, j);
    assert p.path[1..p.pathLen + 1][j] == p.path[j + 1];
  }

  // ---- The handlers keep the invariant ---------------------------------------------------

  lemma RebroadcastOk(c: Config, m: Message)
    requires NoZeroNeighbour(c) && DiscoveryOk(c, m) && m.packet.dest != m.to
    requires m.packet.ttl > 1 && m.to !in m.packet.path
    ensures m.packet.pathLen + 1 < c.len
    ensures var p := m.packet;
            var q := Packet(Discovery, p.dest, p.id, p.ttl - 1, p.pathLen + 1, p.path[p.pathLen + 1 := m.to]);
            MessagesOk(c, Broadcast(c, m.to, q))
  {
    var p, self := m.packet, m.to;
    var q := Packet(Discovery, p.dest, p.id, p.ttl - 1, p.pathLen + 1, p.path[p.pathLen + 1 := self]);
    ExtendPath(c, p.path, p.pathLen, self);
    forall v | Linked(c, self, v) ensures MessageOk(c, Message(v, q)) { assert DiscoveryOk(c, Message(v, q)); }
    BroadcastOk(c, self, q);
  }

  lemma AnswerOk(c: Config, m: Message)
    requires DiscoveryOk(c, m) && m.packet.dest == m.to && m.packet.pathLen + 1 < c.len
    ensures var p := m.packet;
            var path := p.path[p.pathLen + 1 := m.to];
            var back := Reverse(Zeros(c.len), path, p.pathLen + 1);
            MessagesOk(c, [Message(back[1], Packet(Reply, path[0], p.id, c.len, p.pathLen + 1, back))])
  {
    ReplyStarts(c, m.to, m.packet, m.packet.path[m.packet.pathLen + 1 := m.to]);
  }

  lemma OnDiscoveryOk(c: Config, m: Message, cache: map<Node, Entry>)
    requires c.len >= 2 && NoZeroNeighbour(c) && DiscoveryOk(c, m)
    ensures var o := OnDiscovery(c, m.to, cache, m.packet);
            && o.cache == cache && MessagesOk(c, o.sent)
            && (o.overrun <==> m.packet.dest == m.to && m.packet.ttl == 1)
  {
    var p := m.packet;
    if p.dest == m.to {
      if p.pathLen + 1 < c.len { AnswerOk(c, m); }
    } else if p.ttl > 1 && m.to !in p.path {
      RebroadcastOk(c, m);
    }
  }

  lemma CompletedEntry(c: Config, u: Node, d: Node, e: Entry, m: Message)
    requires ReplyOk(c, m) && m.to == u == m.packet.dest && d == m.packet.path[0]
    requires EntryOk(c, u, d, e) && e.flag == Searching
    ensures EntryOk(c, u, d, e.(flag := Found, pathLen := m.packet.pathLen,
                                path := Reverse(e.path, m.packet.path, m.packet.pathLen)))
  {
    var p := m.packet;
    assert Reverse(e.path, p.path, p.pathLen) == Route(c, p);
  }

  lemma OnReplyOk(c: Config, m: Message, cache: map<Node, Entry>)
    requires c.len >= 2 && ReplyOk(c, m) && CacheOk(c, m.to, cache)
    requires forall d :: d in cache ==> |cache[d].path| == c.len
    ensures var o := OnReply(c, m.to, cache, m.packet);
            CacheOk(c, m.to, o.cache) && MessagesOk(c, o.sent) && !o.overrun
  {
    var p, self := m.packet, m.to;
    if p.dest == self {
      var d := p.path[0];
      if d in cache && cache[d].flag == Searching {
        assert EntryOk(c, self, d, cache[d]);
        CompletedEntry(c, self, d, cache[d], m);
      }
    } else {
      ReplyAdvances(c, m);
    }
  }

  lemma OnDataOk(c: Config, m: Message, cache: map<Node, Entry>)
    requires DataOk(c, m)
    ensures var o := OnData(m.to, cache, m.packet);
            o.cache == cache && MessagesOk(c, o.sent) && !o.overrun
  {
    if m.packet.dest != m.to {
      var j: nat :| j < |m.packet.path[1..m.packet.pathLen + 1]| && m.packet.path[1..m.packet.pathLen + 1][j] == m.to;
      DataAdvances(c, m, j + 1);
    }
  }

  lemma HandleOk(c: Config, m: Message, cache: map<Node, Entry>)
    requires c.len >= 2 && NoZeroNeighbour(c) && MessageOk(c, m) && CacheOk(c, m.to, cache)
    requires PacketTyped(c, m.packet) && forall d :: d in cache ==> |cache[d].path| == c.len
    ensures var o := Handle(c, m.to, cache, m.packet);
            && CacheOk(c, m.to, o.cache) && MessagesOk(c, o.sent)
            && (o.overrun <==> m.packet.kind.Discovery? && m.packet.dest == m.to && m.packet.ttl == 1)
  {
    match m.packet.kind
    case Discovery => OnDiscoveryOk(c, m, cache);
    case Reply => OnReplyOk(c, m, cache);
    case Data => OnDataOk(c, m, cache);
  }

  // ---- Every action keeps the invariant ----------------------------------------------------

  lemma WithoutOk(c: Config, ms: seq<Message>, i: nat, more: seq<Message>)
    requires MessagesOk(c, ms) && i < |ms| && MessagesOk(c, more)
    ensures MessagesOk(c, Without(ms, i) + more)
  {
    var r := Without(ms, i) + more;
    forall k | 0 <= k < |r| ensures MessageOk(c, r[k]) {
      if k < i { assert r[k] == ms[k]; }
      else if k < |ms| - 1 { assert r[k] == ms[k + 1]; }
      else { assert r[k] == more[k - (|ms| - 1)]; }
    }
  }

  lemma AppendOk(c: Config, ms: seq<Message>, more: seq<Message>)
    requires MessagesOk(c, ms) && MessagesOk(c, more)
    ensures MessagesOk(c, ms + more)
  {}

  lemma CacheUpdateOk(n: Net, u: Node, cache: map<Node, Entry>, ms: seq<Message>, overrun: bool)
    requires Inv(n) && CacheOk(n.config, u, cache) && MessagesOk(n.config, ms)
    ensures Inv(n.(caches := n.caches[u := cache], messages := ms, overrun := overrun))
  {
    var n' := n.(caches := n.caches[u := cache], messages := ms, overrun := overrun);
    forall v ensures CacheOk(n'.config, v, CacheOf(n', v)) {
      assert CacheOk(n.config, v, CacheOf(n, v));
    }
  }

  lemma MessagesUpdateOk(n: Net, ms: seq<Message>)
    requires Inv(n) && MessagesOk(n.config, ms)
    ensures Inv(n.(messages := ms))
  {
    var n' := n.(messages := ms);
    forall v ensures CacheOk(n'.config, v, CacheOf(n', v)) {
      assert CacheOk(n.config, v, CacheOf(n, v));
    }
  }

  lemma LookupKeeps(n: Net, u: Node, d: Node)
    requires Inv(n) && Typed(n) && Step(n, Lookup(u, d)).Some?
    ensures Inv(Step(n, Lookup(u, d)).value)
  {
    var c, cache := n.config, CacheOf(n, u);
    SearchOk(c, u, d, 1);
    AppendOk(c, n.messages, Search(c, u, d, 1));
    assert CacheOk(c, u, cache);
    var e := Entry(Searching, 0, Alone(c.len, u), 1, 1);
    assert EntryOk(c, u, d, e);
    CacheUpdateOk(n, u, cache[d := e], n.messages + Search(c, u, d, 1), n.overrun);
    MessagesUpdateOk(n, n.messages + Search(c, u, d, 1));
  }

  lemma AlarmKeeps(n: Net, u: Node, d: Node, waiters: bool)
    requires Inv(n) && Typed(n) && Step(n, Alarm(u, d, waiters)).Some?
    ensures Inv(Step(n, Alarm(u, d, waiters)).value)
  {
    var c, cache := n.config, CacheOf(n, u);
    assert CacheOk(c, u, cache) && EntryOk(c, u, d, cache[d]);
    var e := cache[d].(id := cache[d].id + 1);
    if e.retries > MAX_RETRIES {
      CacheUpdateOk(n, u, if waiters then cache[d := e.(flag := GaveUp)] else cache - {d}, n.messages, n.overrun);
    } else {
      SearchOk(c, u, d, e.id);
      AppendOk(c, n.messages, Search(c, u, d, e.id));
      CacheUpdateOk(n, u, cache[d := e.(retries := e.retries + 1)], n.messages + Search(c, u, d, e.id), n.overrun);
    }
  }

  lemma SendDataKeeps(n: Net, u: Node, d: Node)
    requires Inv(n) && Typed(n) && Step(n, SendData(u, d)).Some?
    ensures Inv(Step(n, SendData(u, d)).value)
  {
    var c, cache := n.config, CacheOf(n, u);
    assert CacheOk(c, u, cache) && EntryOk(c, u, d, cache[d]);
    var e := cache[d];
    var m := Message(e.path[1], Packet(Data, d, 0, c.len, e.pathLen, e.path));
    assert e.path[1..e.pathLen + 1][0] == e.path[1];
    assert DataOk(c, m);
    AppendOk(c, n.messages, [m]);
    MessagesUpdateOk(n, n.messages + [m]);
  }

  lemma ReceiveKeeps(n: Net, i: nat)
    requires Inv(n) && Typed(n) && i < |n.messages|
    ensures Inv(Step(n, Receive(i)).value)
    ensures var m := n.messages[i];
            Step(n, Receive(i)).value.overrun <==>
            n.overrun || (m.packet.kind.Discovery? && m.packet.dest == m.to && m.packet.ttl == 1)
  {
    var m := n.messages[i];
    var cache := CacheOf(n, m.to);
    assert MessageOk(n.config, m) && PacketTyped(n.config, m.packet) && CacheOk(n.config, m.to, cache);
    HandleOk(n.config, m, cache);
    var o := Handle(n.config, m.to, cache, m.packet);
    WithoutOk(n.config, n.messages, i, o.sent);
    CacheUpdateOk(n, m.to, o.cache, Without(n.messages, i) + o.sent, n.overrun || o.overrun);
  }

  lemma StepKeepsInv(n: Net, a: Action)
    requires Inv(n) && Typed(n) && Step(n, a).Some?
    ensures Inv(Step(n, a).value)
  {
    match a
    case Lookup(u, d) => LookupKeeps(n, u, d);
    case Alarm(u, d, waiters) => AlarmKeeps(n, u, d, waiters);
    case Evict(u, d) =>
      assert CacheOk(n.config, u, CacheOf(n, u));
      CacheUpdateOk(n, u, CacheOf(n, u) - {d}, n.messages, n.overrun);
    case SendData(u, d) => SendDataKeeps(n, u, d);
    case Receive(i) => ReceiveKeeps(n, i);
    case Lose(i) =>
      WithoutOk(n.config, n.messages, i, []);
      assert Without(n.messages, i) + [] == Without(n.messages, i);
      MessagesUpdateOk(n, Without(n.messages, i));
  }

  ghost predicate Next(n: Net, n': Net) {
    Typed(n) && exists a :: Step(n, a) == Some(n')
  }

  /** Runs start with empty caches and nothing under way. */
  ghost predicate IsRun(c: Config, run: seq<Net>) {
    && c.len >= 2 && NoZeroNeighbour(c)
    && run != [] && run[0] == Net(c, map[], [], false)
    && (forall k :: 0 <= k < |run| - 1 ==> Next(run[k], run[k + 1]))
  }

  lemma NextKeepsInv(n: Net, n': Net)
    requires Inv(n) && Next(n, n')
    ensures Inv(n')
  {
    var a :| Step(n, a) == Some(n');
    StepKeepsInv(n, a);
  }

  lemma NextKeepsConfig(n: Net, n': Net)
    requires Next(n, n')
    ensures n'.config == n.config
  {}

  lemma {:induction false} RunInv(c: Config, run: seq<Net>, k: nat)
    requires IsRun(c, run) && k < |run|
    ensures Inv(run[k]) && run[k].config == c
  {
    if k == 0 {
    } else {
      RunInv(c, run, k - 1);
      NextKeepsInv(run[k - 1], run[k]);
      NextKeepsConfig(run[k - 1], run[k]);
    }
  }

  // ---- Main results ---------------------------------------------------------------------------

  /** Every discovery packet under way records distinct nodes joined by links, not including
      the destination, with an empty rest, and its ttl and path length add up to the limit. */
  lemma DiscoveryPackets(c: Config, run: seq<Net>, k: nat, i: nat)
    requires IsRun(c, run) && k < |run| && i < |run[k].messages| && run[k].messages[i].packet.kind.Discovery?
    ensures var p := run[k].messages[i].packet;
            && SimplePath(c, p.path, p.pathLen)
            && p.dest !in p.path && p.ttl + p.pathLen == c.len && p.ttl >= 1
            && Linked(c, p.path[p.pathLen], run[k].messages[i].to)
  {
    RunInv(c, run, k);
    assert MessageOk(c, run[k].messages[i]);
  }

  /** Every completed cache entry holds a simple linked path from its owner to the destination. */
  lemma CachedRoutes(c: Config, run: seq<Net>, k: nat, u: Node, d: Node)
    requires IsRun(c, run) && k < |run| && d in CacheOf(run[k], u) && CacheOf(run[k], u)[d].flag == Found
    ensures var e := CacheOf(run[k], u)[d];
            SimplePath(c, e.path, e.pathLen) && e.path[0] == u && e.path[e.pathLen] == d && e.pathLen >= 1
  {
    RunInv(c, run, k);
    assert CacheOk(c, u, CacheOf(run[k], u));
    assert EntryOk(c, u, d, CacheOf(run[k], u)[d]);
  }

  /** A step writes past the end of a path array exactly when a discovery packet reaches its
      destination with one hop left. */
  lemma OverrunExactly(c: Config, run: seq<Net>, k: nat, i: nat)
    requires IsRun(c, run) && k < |run| && i < |run[k].messages| && Typed(run[k]) && !run[k].overrun
    ensures var m := run[k].messages[i];
            Step(run[k], Receive(i)).value.overrun <==>
            m.packet.kind.Discovery? && m.packet.dest == m.to && m.packet.ttl == 1
  {
    RunInv(c, run, k);
    ReceiveKeeps(run[k], i);
  }

  // ---- Travelling along a path --------------------------------------------------------------------

  /** The nodes a packet visits from `m` on when every hop succeeds. */
  function Visits(c: Config, m: Message, hops: nat): seq<Node>
    requires |m.packet.path| == c.len > 0 && m.packet.pathLen < c.len
    decreases hops
  {
    if hops == 0 then []
    else
      var sent := Handle(c, m.to, map[], m.packet).sent;
      [m.to] + if |sent| == 1 && |sent[0].packet.path| == c.len && sent[0].packet.pathLen < c.len
               then Visits(c, sent[0], hops - 1) else []
  }

  lemma VisitsStep(c: Config, m: Message, next: Message, hops: nat)
    requires |m.packet.path| == c.len > 0 && m.packet.pathLen < c.len && hops > 0
    requires |next.packet.path| == c.len && next.packet.pathLen < c.len
    requires Handle(c, m.to, map[], m.packet).sent == [next]
    ensures Visits(c, m, hops) == [m.to] + Visits(c, next, hops - 1)
  {}

  lemma VisitsLast(c: Config, m: Message, hops: nat)
    requires |m.packet.path| == c.len > 0 && m.packet.pathLen < c.len && hops > 0
    requires Handle(c, m.to, map[], m.packet).sent == []
    ensures Visits(c, m, hops) == [m.to]
  {}

  lemma SliceStep(path: seq<Node>, j: nat, k: nat)
    requires j < k <= |path|
    ensures path[j..k] == [path[j]] + path[j + 1..k]
  {}

  /** Packet p as it arrives at slot j of its path, one ttl unit spent for each slot. */
  function At(p: Packet, j: nat): Message
    requires j < |p.path|
  {
    Message(p.path[j], p.(ttl := p.ttl - j))
  }

  /** What the node in slot j does with it: the last one keeps it, the others pass it on. */
  ghost predicate Hops(c: Config, p: Packet, j: nat) {
    && j <= p.pathLen < |p.path| == c.len
    && Handle(c, p.path[j], map[], At(p, j).packet).sent == if j == p.pathLen then [] else [At(p, j + 1)]
  }

  /** One more node visited, or the last one. */
  lemma VisitsFrom(c: Config, p: Packet, j: nat, hops: nat)
    requires Hops(c, p, j) && hops > 0 && c.len > 0
    ensures if j == p.pathLen then Visits(c, At(p, j), hops) == [p.path[j]]
            else Visits(c, At(p, j), hops) == [p.path[j]] + Visits(c, At(p, j + 1), hops - 1)
  {
    if j == p.pathLen {
      VisitsLast(c, At(p, j), hops);
    } else {
      VisitsStep(c, At(p, j), At(p, j + 1), hops);
    }
  }

  /** From slot j on, all slots are visited, in order. */
  ghost predicate VisitsRest(c: Config, p: Packet, j: nat, hops: nat) {
    && j <= p.pathLen < |p.path| == c.len
    && Visits(c, At(p, j), hops) == p.path[j..p.pathLen + 1]
  }

  lemma VisitsEnd(c: Config, p: Packet, hops: nat)
    requires Hops(c, p, p.pathLen) && hops > 0
    ensures VisitsRest(c, p, p.pathLen, hops)
  {
    VisitsFrom(c, p, p.pathLen, hops);
  }

  lemma VisitsMore(c: Config, p: Packet, j: nat, hops: nat)
    requires j < p.pathLen && Hops(c, p, j) && hops > 0 && VisitsRest(c, p, j + 1, hops - 1)
    ensures VisitsRest(c, p, j, hops)
  {
    VisitsFrom(c, p, j, hops);
    SliceStep(p.path, j, p.pathLen + 1);
  }

  ghost predicate HopsFrom(c: Config, p: Packet, j: nat) {
    forall i: nat :: j <= i <= p.pathLen ==> Hops(c, p, i)
  }

  lemma FirstHop(c: Config, p: Packet, j: nat)
    requires HopsFrom(c, p, j) && j <= p.pathLen
    ensures Hops(c, p, j) && HopsFrom(c, p, j + 1)
  {}

  lemma {:induction false} VisitsAll(c: Config, p: Packet, j: nat, hops: nat)
    requires j <= p.pathLen && hops >= p.pathLen + 1 - j && HopsFrom(c, p, j)
    ensures VisitsRest(c, p, j, hops)
    decreases hops
  {
    FirstHop(c, p, j);
    if j == p.pathLen {
      VisitsEnd(c, p, hops);
    } else {
      VisitsAll(c, p, j + 1, hops - 1);
      VisitsMore(c, p, j, hops);
    }
  }

  lemma ReplyHop(c: Config, p: Packet, j: nat)
    requires c.len >= 2 && 1 <= j <= p.pathLen < |p.path| && p.ttl == c.len + 1 && ReplyOk(c, At(p, j))
    ensures Hops(c, p, j)
    ensures j < p.pathLen ==> ReplyOk(c, At(p, j + 1))
  {
    if j != p.pathLen { ReplyAdvances(c, At(p, j)); }
  }

  lemma {:induction false} ReplyHops(c: Config, p: Packet, j: nat)
    requires c.len >= 2 && 1 <= j <= p.pathLen < |p.path| && p.ttl == c.len + 1 && ReplyOk(c, At(p, 1))
    ensures ReplyOk(c, At(p, j)) && Hops(c, p, j)
  {
    if j > 1 { ReplyHops(c, p, j - 1); ReplyHop(c, p, j - 1); }
    ReplyHop(c, p, j);
  }

  /** The path of a discovery, backwards. */
  function Backwards(p: Packet): seq<Node>
    requires p.pathLen < |p.path|
  {
    seq(p.pathLen + 1, i requires 0 <= i <= p.pathLen => p.path[p.pathLen - i])
  }

  lemma AnswerPath(c: Config, p: Packet, self: Node)
    requires |p.path| == c.len && p.pathLen + 1 < c.len
    ensures Reverse(Zeros(c.len), p.path[p.pathLen + 1 := self], p.pathLen + 1)[1..p.pathLen + 2] == Backwards(p)
  {}

  /** A reply that has just been sent visits its path behind the destination. */
  lemma ReplyVisits(c: Config, r: Message, hops: nat)
    requires c.len >= 2 && ReplyOk(c, r) && r.packet.ttl == c.len && hops >= r.packet.pathLen
    ensures |r.packet.path| == c.len && 1 <= r.packet.pathLen < c.len
    ensures Visits(c, r, hops) == r.packet.path[1..r.packet.pathLen + 1]
  {
    var q := r.packet.(ttl := c.len + 1);
    assert At(q, 1) == r;
    forall j: nat | 1 <= j <= q.pathLen ensures Hops(c, q, j) { ReplyHops(c, q, j); }
    VisitsAll(c, q, 1, hops);
  }

  /** The answer to a discovery travels exactly the path the discovery took, in reverse,
      from the destination's neighbour to the initiator. */
  lemma ReplyTravelsReversed(c: Config, m: Message, hops: nat)
    requires c.len >= 2 && DiscoveryOk(c, m) && m.packet.dest == m.to && m.packet.ttl >= 2
    requires hops >= m.packet.pathLen + 1
    ensures var sent := OnDiscovery(c, m.to, map[], m.packet).sent;
            && |sent| == 1 && |sent[0].packet.path| == c.len && sent[0].packet.pathLen < c.len
            && Visits(c, sent[0], hops) == Backwards(m.packet)
  {
    var p := m.packet;
    ReplyStarts(c, m.to, p, p.path[p.pathLen + 1 := m.to]);
    AnswerPath(c, p, m.to);
    ReplyVisits(c, OnDiscovery(c, m.to, map[], p).sent[0], hops);
  }

  lemma DataHop(c: Config, p: Packet, j: nat)
    requires c.len >= 2 && 1 <= j <= p.pathLen < |p.path| && DataOk(c, At(p, j))
    ensures Hops(c, p, j)
    ensures j < p.pathLen ==> DataOk(c, At(p, j + 1))
  {
    if p.path[j] != p.dest { DataAdvances(c, At(p, j), j); }
  }

  lemma {:induction false} DataHops(c: Config, p: Packet, j: nat)
    requires c.len >= 2 && 1 <= j <= p.pathLen < |p.path| && DataOk(c, At(p, 1))
    ensures DataOk(c, At(p, j)) && Hops(c, p, j)
  {
    if j > 1 { DataHops(c, p, j - 1); DataHop(c, p, j - 1); }
    DataHop(c, p, j);
  }

  lemma RouteVisited(c: Config, e: Entry, d: Node, hops: nat)
    requires c.len >= 2 && 1 <= e.pathLen && SimplePath(c, e.path, e.pathLen) && e.path[e.pathLen] == d
    requires hops >= e.pathLen
    ensures Visits(c, Message(e.path[1], Packet(Data, d, 0, c.len, e.pathLen, e.path)), hops) ==
            e.path[1..e.pathLen + 1]
  {
    var p := Packet(Data, d, 0, c.len + 1, e.pathLen, e.path);
    assert e.path[1..e.pathLen + 1][0] == e.path[1];
    assert At(p, 1) == Message(e.path[1], Packet(Data, d, 0, c.len, e.pathLen, e.path));
    assert DataOk(c, At(p, 1));
    forall j: nat | 1 <= j <= p.pathLen ensures Hops(c, p, j) { DataHops(c, p, j); }
    VisitsAll(c, p, 1, hops);
  }

  /** Sending data on a cached route adds one packet to those under way, which visits exactly the
      nodes of the route, in order, and is delivered after as many hops as the route has links. */
  lemma DataFollowsRoute(c: Config, run: seq<Net>, k: nat, u: Node, d: Node, hops: nat) returns (m: Message)
    requires IsRun(c, run) && k < |run| && d in CacheOf(run[k], u) && CacheOf(run[k], u)[d].flag == Found
    requires hops >= CacheOf(run[k], u)[d].pathLen
    ensures Typed(run[k])
    ensures Step(run[k], SendData(u, d)) == Some(run[k].(messages := run[k].messages + [m]))
    ensures var e := CacheOf(run[k], u)[d];
            && m.packet.kind.Data? && m.packet.dest == d && m.packet.pathLen < |m.packet.path| == c.len == |e.path|
            && 1 <= e.pathLen < c.len && e.path[e.pathLen] == d
            && Visits(c, m, hops) == e.path[1..e.pathLen + 1]
  {
    RunInv(c, run, k);
    InvTyped(run[k]);
    CachedRoutes(c, run, k, u, d);
    var e := CacheOf(run[k], u)[d];
    m := Message(e.path[1], Packet(Data, d, 0, c.len, e.pathLen, e.path));
    RouteVisited(c, e, d, hops);
  }

  // ---- Floods end --------------------------------------------------------------------------------

  function Power(base: nat, e: nat): nat {
    if e == 0 then 1 else base * Power(base, e - 1)
  }

  function MessageWeight(base: nat, m: Message): nat {
    if m.packet.kind.Discovery? && m.packet.ttl >= 0 then Power(base, m.packet.ttl) else 0
  }

  function Weight(base: nat, ms: seq<Message>): nat {
    if ms == [] then 0 else Weight(base, ms[..|ms|-1]) + MessageWeight(base, ms[|ms|-1])
  }

  lemma {:induction false} WeightAppend(base: nat, a: seq<Message>, b: seq<Message>)
    ensures Weight(base, a + b) == Weight(base, a) + Weight(base, b)
  {
    if b == [] {
      assert a + b == a;
    } else {
      WeightAppend(base, a, b[..|b|-1]);
      assert (a + b)[..|a + b|-1] == a + b[..|b|-1];
    }
  }

  lemma WeightWithout(base: nat, ms: seq<Message>, i: nat)
    requires i < |ms|
    ensures Weight(base, Without(ms, i)) == Weight(base, ms) - MessageWeight(base, ms[i])
  {
    WeightAppend(base, ms[..i], ms[i + 1..]);
    WeightAppend(base, ms[..i], [ms[i]]);
    WeightAppend(base, ms[..i] + [ms[i]], ms[i + 1..]);
    assert ms == ms[..i] + [ms[i]] + ms[i + 1..];
    assert [ms[i]][..0] == [];
  }

  lemma {:induction false} WeightUniform(base: nat, ms: seq<Message>, w: nat)
    requires forall i :: 0 <= i < |ms| ==> MessageWeight(base, ms[i]) == w
    ensures Weight(base, ms) == |ms| * w
  {
    if ms == [] {
    } else {
      WeightUniform(base, ms[..|ms|-1], w);
      assert |ms| * w == (|ms| - 1) * w + w;
    }
  }

  lemma {:induction false} PowerPositive(base: nat, e: nat)
    requires base > 0
    ensures Power(base, e) > 0
  {
    if e == 0 {
    } else {
      PowerPositive(base, e - 1);
    }
  }

  /** No node has as many neighbours as `base`. */
  ghost predicate FewNeighbours(c: Config, base: nat) {
    forall u :: |Neighbours(c, u)| < base
  }

  lemma RebroadcastWeight(c: Config, base: nat, self: Node, q: Packet)
    requires FewNeighbours(c, base) && q.kind.Discovery? && q.ttl >= 0
    ensures Weight(base, Broadcast(c, self, q)) < Power(base, q.ttl + 1)
  {
    var ms, w := Broadcast(c, self, q), Power(base, q.ttl);
    WeightUniform(base, ms, w);
    PowerPositive(base, q.ttl);
    assert |ms| < base by { assert |Neighbours(c, self)| < base; }
    assert |ms| * w < base * w by { SmallerFactor(|ms|, base, w); }
  }

  lemma SmallerFactor(a: nat, b: nat, w: nat)
    requires a < b && w > 0
    ensures a * w < b * w
  {
    assert b * w == a * w + (b - a) * w;
    assert (b - a) * w >= w by { assert (b - a) * w == (b - a - 1) * w + w; }
  }

  lemma ForwardWeight(base: nat, self: Node, p: Packet)
    requires !p.kind.Discovery?
    ensures Weight(base, Forward(self, p)) == 0
  {
    WeightUniform(base, Forward(self, p), 0);
  }

  lemma HandledWeight(c: Config, base: nat, m: Message, cache: map<Node, Entry>)
    requires c.len >= 2 && NoZeroNeighbour(c) && MessageOk(c, m) && FewNeighbours(c, base)
    requires PacketTyped(c, m.packet) && forall d :: d in cache ==> |cache[d].path| == c.len
    ensures var sent := Handle(c, m.to, cache, m.packet).sent;
            if m.packet.kind.Discovery? then Weight(base, sent) < MessageWeight(base, m) else Weight(base, sent) == 0
  {
    var p := m.packet;
    var sent := Handle(c, m.to, cache, p).sent;
    if p.kind.Discovery? {
      assert |Neighbours(c, m.to)| < base;
      PowerPositive(base, p.ttl);
      if p.dest != m.to && p.ttl > 1 && m.to !in p.path {
        var path := p.path[p.pathLen + 1 := m.to];
        RebroadcastWeight(c, base, m.to, Packet(Discovery, p.dest, p.id, p.ttl - 1, p.pathLen + 1, path));
      } else {
        WeightUniform(base, sent, 0);
      }
    } else if p.dest != m.to {
      ForwardWeight(base, m.to, p.(ttl := p.ttl - 1));
    }
  }

  /** Each receipt of a discovery packet, whether it is answered, dropped or rebroadcast,
      lowers the weight of the flood; other receipts and losses never raise it. */
  lemma ReceiptLowersWeight(n: Net, base: nat, a: Action)
    requires Inv(n) && Typed(n) && FewNeighbours(n.config, base)
    requires a.Receive? || a.Lose?
    requires Step(n, a).Some?
    ensures Weight(base, Step(n, a).value.messages) <= Weight(base, n.messages)
    ensures a.Receive? && n.messages[a.i].packet.kind.Discovery? ==>
            Weight(base, Step(n, a).value.messages) < Weight(base, n.messages)
  {
    var m := n.messages[a.i];
    WeightWithout(base, n.messages, a.i);
    if a.Receive? {
      assert MessageOk(n.config, m) && PacketTyped(n.config, m.packet);
      HandledWeight(n.config, base, m, CacheOf(n, m.to));
      WeightAppend(base, Without(n.messages, a.i), Handle(n.config, m.to, CacheOf(n, m.to), m.packet).sent);
    }
  }

  /** The receipts and losses `acts` lead from n to the last state, without a new search. */
  ghost predicate Quiet(n: Net, acts: seq<Action>)
    decreases |acts|
  {
    acts != [] ==>
      && Typed(n) && (acts[0].Receive? || acts[0].Lose?) && Step(n, acts[0]).Some?
      && Quiet(Step(n, acts[0]).value, acts[1..])
  }

  predicate IsDiscovery(n: Net, a: Action) {
    a.Receive? && a.i < |n.messages| && n.messages[a.i].packet.kind.Discovery?
  }

  ghost function Receipts(n: Net, acts: seq<Action>): nat
    requires Quiet(n, acts)
    decreases |acts|
  {
    if acts == [] then 0
    else (if IsDiscovery(n, acts[0]) then 1 else 0)
         + Receipts(Step(n, acts[0]).value, acts[1..])
  }

  lemma QuietStep(n: Net, base: nat, a: Action)
    requires Inv(n) && Typed(n) && FewNeighbours(n.config, base) && (a.Receive? || a.Lose?) && Step(n, a).Some?
    ensures var n' := Step(n, a).value;
            && Inv(n') && FewNeighbours(n'.config, base)
            && Weight(base, n'.messages) + (if IsDiscovery(n, a) then 1 else 0) <= Weight(base, n.messages)
  {
    ReceiptLowersWeight(n, base, a);
    StepKeepsInv(n, a);
  }

  /** Every flood ends: however its packets are received, reordered or lost, the number of
      receipts of discovery packets is bounded by the weight of those under way. */
  lemma {:induction false} FloodsEnd(n: Net, base: nat, acts: seq<Action>)
    requires Inv(n) && FewNeighbours(n.config, base) && Quiet(n, acts)
    ensures Receipts(n, acts) <= Weight(base, n.messages)
    decreases |acts|
  {
    if acts == [] {
    } else {
      QuietStep(n, base, acts[0]);
      FloodsEnd(Step(n, acts[0]).value, base, acts[1..]);
    }
  }

  // ---- The overrun is reachable -----------------------------------------------------------------

  /** A line of nodes 1, 2, ..., len + 1, each heard by the next one. */
  function Line(len: nat): Config {
    Config(len, 1, LineLinks(len))
  }

  function LineLinks(k: nat): (links: map<Node, seq<Node>>)
    ensures forall u :: u in links <==> 1 <= u <= k
    ensures forall u :: u in links ==> links[u] == [u + 1]
  {
    if k == 0 then map[] else LineLinks(k - 1)[k := [k + 1]]
  }

  /** The discovery packet from node 1 to node len + 1 after j receipts. */
  function LinePacket(len: nat, j: nat): Message
    requires j < len
  {
    Message(j + 2, Packet(Discovery, len + 1, 1, len - j, j, seq(len, i => if i <= j then i + 1 else NOBODY)))
  }

  lemma ExtendRun(c: Config, run: seq<Net>, a: Action) returns (run': seq<Net>)
    requires IsRun(c, run) && Typed(run[|run| - 1]) && Step(run[|run| - 1], a).Some?
    ensures IsRun(c, run') && run' == run + [Step(run[|run| - 1], a).value]
  {
    run' := run + [Step(run[|run| - 1], a).value];
    assert Next(run[|run| - 1], run'[|run|]);
    assert run'[0] == run[0];
  }

  lemma LineForwards(len: nat, j: nat, cache: map<Node, Entry>)
    requires j + 1 < len
    ensures var m := LinePacket(len, j);
            OnDiscovery(Line(len), m.to, cache, m.packet) == Outcome(cache, [LinePacket(len, j + 1)], false)
  {
    var m := LinePacket(len, j);
    var q := m.packet.path[j + 1 := m.to];
    assert q == LinePacket(len, j + 1).packet.path;
    assert Neighbours(Line(len), m.to) == [m.to + 1];
    assert Broadcast(Line(len), m.to, LinePacket(len, j + 1).packet) == [LinePacket(len, j + 1)];
  }

  lemma {:induction false} LineRun(len: nat, j: nat) returns (run: seq<Net>)
    requires len >= 2 && j < len
    ensures IsRun(Line(len), run)
    ensures run[|run| - 1].messages == [LinePacket(len, j)] && !run[|run| - 1].overrun
  {
    var c := Line(len);
    if j == 0 {
      run := [Net(c, map[], [], false)];
      assert Neighbours(c, 1) == [2];
      run := ExtendRun(c, run, Lookup(1, len + 1));
      assert Alone(len, 1) == LinePacket(len, 0).packet.path;
      assert Search(c, 1, len + 1, 1) == [LinePacket(len, 0)];
    } else {
      run := LineRun(len, j - 1);
      var n := run[|run| - 1];
      RunInv(c, run, |run| - 1);
      InvTyped(n);
      var m := n.messages[0];
      LineForwards(len, j - 1, CacheOf(n, m.to));
      run := ExtendRun(c, run, Receive(0));
      assert Without(n.messages, 0) == [];
      assert run[|run| - 1].messages == [] + [LinePacket(len, j)];
    }
  }

  /** For every length limit there is a network in which a search writes past the path array. */
  lemma OverrunHappens(len: nat) returns (run: seq<Net>)
    requires len >= 2
    ensures IsRun(Line(len), run) && run[|run| - 1].overrun
  {
    run := LineRun(len, len - 1);
    var n := run[|run| - 1];
    RunInv(Line(len), run, |run| - 1);
    InvTyped(n);
    ReceiveKeeps(n, 0);
    run := ExtendRun(Line(len), run, Receive(0));
  }
}

/** A search as a whole: which reply completes which cache entry, and how the flood, the answer
    and its way home find every route that is short enough. */
module MinirouteDiscovery {
  import opened Options
  import opened Miniroute
  import opened MinirouteResults

  // ---- One reply -----------------------------------------------------------------------------

  /** The reply is home, and its destination is searched under its id with at most two
      broadcasts out. */
  ghost predicate Completes(n: Net, i: nat)
    requires i < |n.messages|
  {
    var p := n.messages[i].packet;
    && n.messages[i].to == p.dest && |p.path| > 0 && p.path[0] in CacheOf(n, p.dest)
    && CacheOf(n, p.dest)[p.path[0]].flag == Searching
    && CacheOf(n, p.dest)[p.path[0]].retries <= 2
    && CacheOf(n, p.dest)[p.path[0]].id == p.id
  }

  /** Slot by slot the path of a reply, backwards. */
  ghost predicate ReadBackwards(e: Entry, p: Packet) {
    && e.pathLen == p.pathLen < |p.path| == |e.path|
    && (forall j :: 0 <= j <= p.pathLen ==> e.path[j] == p.path[p.pathLen - j])
  }

  /** In every run, a reply that completes a search leaves a found entry with its path read
      backwards, and touches no other entry; any other reply changes no cache. */
  lemma ReplyCompletes(c: Config, run: seq<Net>, k: nat, i: nat)
    requires IsRun(c, run) && k < |run| && i < |run[k].messages| && run[k].messages[i].packet.kind.Reply?
    ensures Typed(run[k])
    ensures var n, n', p := run[k], Step(run[k], Receive(i)).value, run[k].messages[i].packet;
            if Completes(n, i) then
              var u, d := p.dest, p.path[0];
              && d in CacheOf(n', u) && CacheOf(n', u)[d].flag == Found && ReadBackwards(CacheOf(n', u)[d], p)
              && CacheOf(n', u) - {d} == CacheOf(n, u) - {d}
              && (forall v :: v != u ==> CacheOf(n', v) == CacheOf(n, v))
            else forall v :: CacheOf(n', v) == CacheOf(n, v)
  {
    RunInv(c, run, k);
    InvTyped(run[k]);
    var m := run[k].messages[i];
    assert MessageOk(c, m);
    assert CacheOk(c, m.to, CacheOf(run[k], m.to));
    if !Completes(run[k], i) { IdleReply(c, m, CacheOf(run[k], m.to)); }
  }

  lemma IdleReply(c: Config, m: Message, cache: map<Node, Entry>)
    requires c.len >= 2 && ReplyOk(c, m) && forall d :: d in cache ==> |cache[d].path| == c.len
    requires m.to == m.packet.dest && m.packet.path[0] in cache ==>
               var e := cache[m.packet.path[0]]; e.flag != Searching || e.retries > 2 || e.id != m.packet.id
    ensures OnReply(c, m.to, cache, m.packet).cache == cache
  {}

  // ---- The way home ----------------------------------------------------------------------------

  ghost predicate SameCaches(n: Net, n': Net) {
    forall v :: CacheOf(n', v) == CacheOf(n, v)
  }

  /** The owner's entry for d waits for a reply with this id. */
  ghost predicate Awaits(n: Net, u: Node, d: Node, id: int) {
    && d in CacheOf(n, u) && CacheOf(n, u)[d].flag == Searching
    && CacheOf(n, u)[d].retries <= 2 && CacheOf(n, u)[d].id == id
  }

  lemma Received(c: Config, run: seq<Net>, i: nat) returns (run': seq<Net>)
    requires IsRun(c, run) && i < |run[|run| - 1].messages|
    ensures Inv(run[|run| - 1]) && Typed(run[|run| - 1]) && run[|run| - 1].config == c
    ensures IsRun(c, run') && run' == run + [Step(run[|run| - 1], Receive(i)).value]
  {
    RunInv(c, run, |run| - 1);
    InvTyped(run[|run| - 1]);
    run' := ExtendRun(c, run, Receive(i));
  }

  /** What a receipt does to the net when the node keeps its cache and sends `sent`. */
  lemma ReceiptSends(n: Net, i: nat, sent: seq<Message>)
    requires Inv(n) && Typed(n) && i < |n.messages|
    requires var m := n.messages[i];
             var o := Handle(n.config, m.to, CacheOf(n, m.to), m.packet);
             o.cache == CacheOf(n, m.to) && o.sent == sent
    ensures var n' := Step(n, Receive(i)).value;
            SameCaches(n, n') && n'.messages == Without(n.messages, i) + sent
  {}

  lemma ReplyMovesOn(n: Net, i: nat, q: Packet, j: nat)
    requires Inv(n) && Typed(n) && i < |n.messages| && 1 <= j < q.pathLen < |q.path| && q.ttl == n.config.len + 1
    requires q.kind.Reply? && n.messages[i] == At(q, j)
    ensures var n' := Step(n, Receive(i)).value;
            SameCaches(n, n') && |n'.messages| > 0 && n'.messages[|n'.messages| - 1] == At(q, j + 1)
  {
    var m, cache := n.messages[i], CacheOf(n, n.messages[i].to);
    assert MessageOk(n.config, m);
    ReplyAdvances(n.config, m);
    assert Handle(n.config, m.to, cache, m.packet).sent == [At(q, j + 1)];
    ReceiptSends(n, i, [At(q, j + 1)]);
  }

  lemma ReplyIsHome(n: Net, i: nat, q: Packet)
    requires Inv(n) && Typed(n) && i < |n.messages| && 1 <= q.pathLen < |q.path| && q.ttl == n.config.len + 1
    requires q.kind.Reply? && n.messages[i] == At(q, q.pathLen) && Awaits(n, q.dest, q.path[0], q.id)
    ensures |q.path| == n.config.len
    ensures var n', u, d := Step(n, Receive(i)).value, q.dest, q.path[0];
            && d in CacheOf(n', u)
            && CacheOf(n', u)[d] == CacheOf(n, u)[d].(flag := Found, pathLen := q.pathLen, path := Route(n.config, q))
  {
    var m, u, d := n.messages[i], q.dest, q.path[0];
    assert MessageOk(n.config, m);
    assert CacheOk(n.config, u, CacheOf(n, u)) && EntryOk(n.config, u, d, CacheOf(n, u)[d]);
    assert Reverse(CacheOf(n, u)[d].path, q.path, q.pathLen) == Route(n.config, q);
  }

  /** The reply q is under way to slot j of its path, as message i, and e is the entry that waits
      for it. */
  ghost predicate ComingHome(n: Net, i: nat, q: Packet, j: nat, e: Entry) {
    && i < |n.messages| && 1 <= j <= q.pathLen < |q.path| && q.ttl == n.config.len + 1
    && q.kind.Reply? && n.messages[i] == At(q, j)
    && Awaits(n, q.dest, q.path[0], q.id) && CacheOf(n, q.dest)[q.path[0]] == e
  }

  lemma OneHopHome(c: Config, run: seq<Net>, i: nat, q: Packet, j: nat, e: Entry) returns (run': seq<Net>, i': nat)
    requires IsRun(c, run) && ComingHome(run[|run| - 1], i, q, j, e) && j < q.pathLen
    ensures IsRun(c, run') && run <= run' && ComingHome(run'[|run'| - 1], i', q, j + 1, e)
  {
    run' := Received(c, run, i);
    ReplyMovesOn(run[|run| - 1], i, q, j);
    i' := |run'[|run'| - 1].messages| - 1;
  }

  /** The entry is completed as the reply says. */
  ghost predicate Completed(n: Net, q: Packet, e: Entry) {
    && |q.path| == n.config.len > q.pathLen && q.path[0] in CacheOf(n, q.dest)
    && CacheOf(n, q.dest)[q.path[0]] == e.(flag := Found, pathLen := q.pathLen, path := Route(n.config, q))
  }

  lemma LastHopHome(c: Config, run: seq<Net>, i: nat, q: Packet, e: Entry) returns (run': seq<Net>)
    requires IsRun(c, run) && ComingHome(run[|run| - 1], i, q, q.pathLen, e)
    ensures IsRun(c, run') && run <= run' && Completed(run'[|run'| - 1], q, e)
  {
    run' := Received(c, run, i);
    ReplyIsHome(run[|run| - 1], i, q);
  }

  /** A reply that only its receivers take off the network completes the search it answers. */
  lemma {:induction false} ReplyGoesHome(c: Config, run: seq<Net>, i: nat, q: Packet, j: nat, e: Entry)
    returns (run': seq<Net>)
    requires IsRun(c, run) && ComingHome(run[|run| - 1], i, q, j, e)
    ensures IsRun(c, run') && run <= run' && Completed(run'[|run'| - 1], q, e)
    decreases q.pathLen - j
  {
    if j == q.pathLen {
      run' := LastHopHome(c, run, i, q, e);
    } else {
      var next, i' := OneHopHome(c, run, i, q, j, e);
      run' := ReplyGoesHome(c, next, i', q, j + 1, e);
    }
  }

  /** The reply with which the destination of a discovery answers, before its first hop. */
  function Answer(c: Config, m: Message): Packet
    requires |m.packet.path| == c.len && m.packet.pathLen + 1 < c.len
  {
    var path := m.packet.path[m.packet.pathLen + 1 := m.to];
    Packet(Reply, path[0], m.packet.id, c.len + 1, m.packet.pathLen + 1,
           Reverse(Zeros(c.len), path, m.packet.pathLen + 1))
  }

  lemma AnswerIsSent(n: Net, i: nat, e: Entry)
    requires Inv(n) && Typed(n) && i < |n.messages|
    requires var m := n.messages[i];
             && m.packet.kind.Discovery? && m.to == m.packet.dest && m.packet.ttl >= 2
             && Awaits(n, m.packet.path[0], m.to, m.packet.id) && CacheOf(n, m.packet.path[0])[m.to] == e
    ensures |n.messages[i].packet.path| == n.config.len && n.messages[i].packet.pathLen + 1 < n.config.len
    ensures var n', m, q := Step(n, Receive(i)).value, n.messages[i], Answer(n.config, n.messages[i]);
            && |n'.messages| > 0 && n'.config == n.config && ComingHome(n', |n'.messages| - 1, q, 1, e)
            && q.dest == m.packet.path[0] && q.path[0] == m.to
            && Route(n.config, q) == m.packet.path[m.packet.pathLen + 1 := m.to]
  {
    var c, m := n.config, n.messages[i];
    var p := m.packet;
    assert MessageOk(c, m);
    var path := p.path[p.pathLen + 1 := m.to];
    ReplyStarts(c, m.to, p, path);
    ReverseTwice(Zeros(c.len), Zeros(c.len), path, p.pathLen + 1);
    ReceiptSends(n, i, [At(Answer(c, m), 1)]);
  }

  /** A discovery that has reached its destination with a hop to spare is answered, and the answer
      leaves the initiator, while it still awaits it, with exactly the path of the discovery
      followed by the destination. */
  lemma DiscoveryIsAnswered(c: Config, run: seq<Net>, i: nat, e: Entry) returns (run': seq<Net>)
    requires IsRun(c, run) && i < |run[|run| - 1].messages|
    requires var m := run[|run| - 1].messages[i];
             && m.packet.kind.Discovery? && m.to == m.packet.dest && m.packet.ttl >= 2 && |m.packet.path| > 0
             && Awaits(run[|run| - 1], m.packet.path[0], m.to, m.packet.id)
             && CacheOf(run[|run| - 1], m.packet.path[0])[m.to] == e
    ensures IsRun(c, run') && run <= run'
    ensures var m := run[|run| - 1].messages[i];
            var p := m.packet;
            && p.pathLen + 1 < |p.path| && m.to in CacheOf(run'[|run'| - 1], p.path[0])
            && CacheOf(run'[|run'| - 1], p.path[0])[m.to]
               == e.(flag := Found, pathLen := p.pathLen + 1, path := p.path[p.pathLen + 1 := m.to])
  {
    run' := Received(c, run, i);
    AnswerIsSent(run[|run| - 1], i, e);
    RunInv(c, run, |run| - 1);
    run' := ReplyGoesHome(c, run', |run'[|run'| - 1].messages| - 1, Answer(c, run[|run| - 1].messages[i]), 1, e);
    RunInv(c, run', |run'| - 1);
  }

  // ---- The flood -------------------------------------------------------------------------------

  /** The path up to slot j. */
  function UpTo(path: seq<Node>, j: nat): seq<Node> {
    seq(|path|, i requires 0 <= i < |path| => if i <= j then path[i] else NOBODY)
  }

  /** A search for the end of the path, under way from its slot j to the next. */
  function Flood(c: Config, path: seq<Node>, k: nat, id: int, j: nat): Message
    requires j < k < |path|
  {
    Message(path[j + 1], Packet(Discovery, path[k], id, c.len - j, j, UpTo(path, j)))
  }

  lemma BroadcastReaches(c: Config, u: Node, v: Node, p: Packet)
    requires Linked(c, u, v)
    ensures Message(v, p) in Broadcast(c, u, p)
  {
    var k :| 0 <= k < |Neighbours(c, u)| && Neighbours(c, u)[k] == v;
    assert Broadcast(c, u, p)[k] == Message(v, p);
  }

  /** A node in the middle of the path passes the search on to the next one. */
  lemma FloodMovesOn(n: Net, i: nat, path: seq<Node>, k: nat, id: int, j: nat)
    requires Inv(n) && Typed(n) && i < |n.messages| && SimplePath(n.config, path, k) && j + 1 < k
    requires n.messages[i] == Flood(n.config, path, k, id, j)
    ensures var n' := Step(n, Receive(i)).value;
            SameCaches(n, n') && Flood(n.config, path, k, id, j + 1) in n'.messages
  {
    var c, m := n.config, n.messages[i];
    var q := Flood(c, path, k, id, j + 1).packet;
    assert m.to !in m.packet.path;
    assert m.packet.path[j + 1 := m.to] == UpTo(path, j + 1);
    BroadcastReaches(c, path[j + 1], path[j + 2], q);
    ReceiptSends(n, i, Broadcast(c, path[j + 1], q));
  }

  ghost predicate UnderWay(n: Net, m: Message) {
    m in n.messages
  }

  lemma FloodHop(c: Config, run: seq<Net>, path: seq<Node>, k: nat, id: int, j: nat) returns (run': seq<Net>)
    requires IsRun(c, run) && SimplePath(c, path, k) && j + 1 < k
    requires UnderWay(run[|run| - 1], Flood(c, path, k, id, j))
    ensures IsRun(c, run') && run <= run' && SameCaches(run[|run| - 1], run'[|run'| - 1])
    ensures UnderWay(run'[|run'| - 1], Flood(c, path, k, id, j + 1))
  {
    var i: nat :| i < |run[|run| - 1].messages| && run[|run| - 1].messages[i] == Flood(c, path, k, id, j);
    run' := Received(c, run, i);
    FloodMovesOn(run[|run| - 1], i, path, k, id, j);
  }

  lemma CachesChain(a: Net, b: Net, c: Net)
    requires SameCaches(a, b) && SameCaches(b, c)
    ensures SameCaches(a, c)
  {}

  /** The search reaches the last node of the path; all caches stay as they were. */
  lemma {:induction false} FloodArrives(c: Config, run: seq<Net>, path: seq<Node>, k: nat, id: int, j: nat)
    returns (run': seq<Net>)
    requires IsRun(c, run) && SimplePath(c, path, k) && j < k
    requires UnderWay(run[|run| - 1], Flood(c, path, k, id, j))
    ensures IsRun(c, run') && run <= run' && SameCaches(run[|run| - 1], run'[|run'| - 1])
    ensures UnderWay(run'[|run'| - 1], Flood(c, path, k, id, k - 1))
    decreases k - j
  {
    if j == k - 1 {
      run' := run;
    } else {
      var next := FloodHop(c, run, path, k, id, j);
      run' := FloodArrives(c, next, path, k, id, j + 1);
      CachesChain(run[|run| - 1], next[|next| - 1], run'[|run'| - 1]);
    }
  }

  // ---- Searching -------------------------------------------------------------------------------

  /** Looking up a destination that is not cached, with room in the cache, records a search under
      id 1 and sends it to every neighbour. */
  lemma LookupSearches(n: Net, u: Node, d: Node, v: Node)
    requires Typed(n) && u != NOBODY && d != NOBODY && u != d && d !in CacheOf(n, u)
    requires |CacheOf(n, u)| < n.config.capacity && Linked(n.config, u, v)
    ensures Step(n, Lookup(u, d)).Some?
    ensures var n' := Step(n, Lookup(u, d)).value;
            && CacheOf(n', u) == CacheOf(n, u)[d := Entry(Searching, 0, Alone(n.config.len, u), 1, 1)]
            && Message(v, Packet(Discovery, d, 1, n.config.len, 0, Alone(n.config.len, u))) in n'.messages
  {
    BroadcastReaches(n.config, u, v, Packet(Discovery, d, 1, n.config.len, 0, Alone(n.config.len, u)));
  }

  /** The alarm of a search that may go on sends it again to every neighbour, under the next id. */
  lemma AlarmSearchesAgain(n: Net, u: Node, d: Node, waiters: bool, v: Node)
    requires Typed(n) && d in CacheOf(n, u) && CacheOf(n, u)[d].flag == Searching && CacheOf(n, u)[d].retries <= 2
    requires Linked(n.config, u, v)
    ensures Step(n, Alarm(u, d, waiters)).Some?
    ensures var n', e := Step(n, Alarm(u, d, waiters)).value, CacheOf(n, u)[d];
            && CacheOf(n', u) == CacheOf(n, u)[d := e.(id := e.id + 1, retries := e.retries + 1)]
            && Message(v, Packet(Discovery, d, e.id + 1, n.config.len, 0, e.path)) in n'.messages
  {
    var e := CacheOf(n, u)[d];
    BroadcastReaches(n.config, u, v, Packet(Discovery, d, e.id + 1, n.config.len, 0, e.path));
  }

  /** The alarm behind the third broadcast ends the search: the entry stays as a failure for the
      threads that wait on it, or goes if there is none. Nothing is sent. */
  lemma AlarmEndsSearch(n: Net, u: Node, d: Node, waiters: bool)
    requires Typed(n) && d in CacheOf(n, u) && CacheOf(n, u)[d].flag == Searching && CacheOf(n, u)[d].retries >= 3
    ensures Step(n, Alarm(u, d, waiters)).Some?
    ensures var n' := Step(n, Alarm(u, d, waiters)).value;
            && n'.messages == n.messages && CacheOf(n', u) - {d} == CacheOf(n, u) - {d}
            && (if waiters then d in CacheOf(n', u) && CacheOf(n', u)[d].flag == GaveUp else d !in CacheOf(n', u))
  {}

  /** Evicting an entry forgets it and nothing else; a lost packet is gone and nothing else. */
  lemma EvictedOrLost(n: Net, u: Node, d: Node, i: nat)
    requires Typed(n)
    ensures Step(n, Evict(u, d)).Some? ==>
              && d in CacheOf(n, u) && CacheOf(n, u)[d].flag != Searching
              && CacheOf(Step(n, Evict(u, d)).value, u) == CacheOf(n, u) - {d}
              && (forall v :: v != u ==> CacheOf(Step(n, Evict(u, d)).value, v) == CacheOf(n, v))
              && Step(n, Evict(u, d)).value.messages == n.messages
    ensures i < |n.messages| ==>
              Step(n, Lose(i)) == Some(n.(messages := n.messages[..i] + n.messages[i + 1..]))
  {}

  /** A search from the first node of the path for the last one, with one or two broadcasts out. */
  lemma SearchBegins(c: Config, path: seq<Node>, k: nat, again: bool) returns (run: seq<Net>)
    requires c.len >= 2 && NoZeroNeighbour(c) && c.capacity >= 1 && SimplePath(c, path, k) && k >= 1
    ensures IsRun(c, run)
    ensures var n, id := run[|run| - 1], if again then 2 else 1;
            && UnderWay(n, Flood(c, path, k, id, 0)) && path[k] in CacheOf(n, path[0])
            && CacheOf(n, path[0])[path[k]] == Entry(Searching, 0, UpTo(path, 0), id, id)
  {
    var u, d, n0 := path[0], path[k], Net(c, map[], [], false);
    assert Alone(c.len, u) == UpTo(path, 0);
    assert Linked(c, path[0], path[1]);
    run := [n0];
    LookupSearches(n0, u, d, path[1]);
    run := ExtendRun(c, run, Lookup(u, d));
    if again {
      RunInv(c, run, 1);
      InvTyped(run[1]);
      AlarmSearchesAgain(run[1], u, d, true, path[1]);
      run := ExtendRun(c, run, Alarm(u, d, true));
    }
  }

  /** In every network, for every path without repetitions that fits into a path array, there is a
      run in which a search from its first node for its last one caches exactly this path, in
      answer to the first broadcast or to the second. */
  lemma EveryRouteCanBeFound(c: Config, path: seq<Node>, k: nat, again: bool) returns (run: seq<Net>)
    requires c.len >= 2 && NoZeroNeighbour(c) && c.capacity >= 1 && SimplePath(c, path, k) && k >= 1
    ensures IsRun(c, run) && path[k] in CacheOf(run[|run| - 1], path[0])
    ensures var id := if again then 2 else 1;
            CacheOf(run[|run| - 1], path[0])[path[k]] == Entry(Found, k, path, id, id)
  {
    var id := if again then 2 else 1;
    run := SearchBegins(c, path, k, again);
    run := FloodArrives(c, run, path, k, id, 0);
    var n := run[|run| - 1];
    var i: nat :| i < |n.messages| && n.messages[i] == Flood(c, path, k, id, k - 1);
    run := DiscoveryIsAnswered(c, run, i, Entry(Searching, 0, UpTo(path, 0), id, id));
    assert UpTo(path, k - 1)[k := path[k]] == path;
  }
}

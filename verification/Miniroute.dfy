/** Source routing as in miniroute.c: route discovery by flooding, replies along
    the reversed path, the route cache, and hop-by-hop forwarding of data. */
module Miniroute {
  import opened Options

  // Addresses; the zero address fills the unused part of a path.
  type Node = nat
  const NOBODY: Node := 0

  // A search is repeated while its retry count is at most this.
  const MAX_RETRIES := 2

  datatype Kind = Discovery | Reply | Data

  datatype Packet = Packet(kind: Kind, dest: Node, id: int, ttl: int, pathLen: nat, path: seq<Node>)

  /** A packet under way to its next receiver. */
  datatype Message = Message(to: Node, packet: Packet)

  datatype Flag = Searching | Found | GaveUp

  datatype Entry = Entry(flag: Flag, pathLen: nat, path: seq<Node>, retries: nat, id: int)

  /** `len` is the number of slots of a path, `nbrs` who receives a node's broadcasts. */
  datatype Config = Config(len: nat, capacity: nat, nbrs: map<Node, seq<Node>>)

  function Neighbours(c: Config, u: Node): seq<Node> {
    if u in c.nbrs then c.nbrs[u] else []
  }

  predicate Linked(c: Config, u: Node, v: Node) {
    v in Neighbours(c, u)
  }

  function Broadcast(c: Config, u: Node, p: Packet): seq<Message> {
    seq(|Neighbours(c, u)|, k requires 0 <= k < |Neighbours(c, u)| => Message(Neighbours(c, u)[k], p))
  }

  // ---- Path arrays ------------------------------------------------------------

  /** What copying path backwards into `into` gives: slot i holds path[n - i] up to n. */
  function Reverse(into: seq<Node>, path: seq<Node>, n: nat): seq<Node>
    requires n < |path| == |into|
  {
    seq(|into|, i requires 0 <= i < |into| => if i <= n then path[n - i] else into[i])
  }

  function Zeros(len: nat): seq<Node> {
    seq(len, i => NOBODY)
  }

  /** A path that holds only its first node. */
  function Alone(len: nat, u: Node): seq<Node>
    requires len > 0
  {
    Zeros(len)[0 := u]
  }

  /** The first slot that holds u, or -1. */
  function Find(path: seq<Node>, u: Node): int {
    if path == [] then -1
    else if path[0] == u then 0
    else var r := Find(path[1..], u); if r == -1 then -1 else r + 1
  }

  lemma {:induction false} FindFirst(path: seq<Node>, u: Node)
    ensures var r := Find(path, u);
            && -1 <= r < |path|
            && (r >= 0 ==> path[r] == u)
            && (forall j :: 0 <= j < (if r < 0 then |path| else r) ==> path[j] != u)
  {
    if path != [] && path[0] != u {
      FindFirst(path[1..], u);
      var r := Find(path[1..], u);
      forall j | 0 <= j < (if Find(path, u) < 0 then |path| else Find(path, u)) ensures path[j] != u {
        if j > 0 { assert path[1..][j - 1] == path[j]; }
      }
    }
  }

  /** Reversing twice gives the path back. */
  lemma ReverseTwice(into: seq<Node>, into2: seq<Node>, path: seq<Node>, n: nat)
    requires n < |path| == |into| == |into2|
    requires forall i :: n < i < |path| ==> into2[i] == path[i]
    ensures Reverse(into2, Reverse(into, path, n), n) == path
  {}

  // ---- Handlers ------------------------------------------------------------------

  /** What one node does with a routing or data packet: its new cache, the packets it
      sends, and whether it wrote past the end of the path array. */
  datatype Outcome = Outcome(cache: map<Node, Entry>, sent: seq<Message>, overrun: bool)

  /** A discovery packet arrives at `self`. */
  function OnDiscovery(c: Config, self: Node, cache: map<Node, Entry>, p: Packet): Outcome
    requires p.kind.Discovery? && |p.path| == c.len > 0
  {
    var ttl := p.ttl - 1;
    if p.dest == self then
      if p.pathLen + 1 < c.len then
        var path := p.path[p.pathLen + 1 := self];
        var back := Reverse(Zeros(c.len), path, p.pathLen + 1);
        Outcome(cache, [Message(back[1], Packet(Reply, path[0], p.id, c.len, p.pathLen + 1, back))], false)
      else Outcome(cache, [], true)
    else if ttl == 0 || ttl == -1 then Outcome(cache, [], false)
    else if self in p.path then Outcome(cache, [], false)
    else if p.pathLen + 1 < c.len then
      var path := p.path[p.pathLen + 1 := self];
      Outcome(cache, Broadcast(c, self, Packet(Discovery, p.dest, p.id, ttl, p.pathLen + 1, path)), false)
    else Outcome(cache, [], true)
  }

  /** A reply arrives: at the initiator it completes the cache entry it answers. */
  function OnReply(c: Config, self: Node, cache: map<Node, Entry>, p: Packet): Outcome
    requires p.kind.Reply? && |p.path| == c.len > 0 && p.pathLen < c.len
    requires forall d :: d in cache ==> |cache[d].path| == c.len
  {
    if p.dest == self then
      var d := p.path[0];
      if d !in cache then Outcome(cache, [], false)
      else
        var e := cache[d];
        if e.flag != Searching || e.retries > MAX_RETRIES || e.id != p.id then Outcome(cache, [], false)
        else
          var found := e.(flag := Found, pathLen := p.pathLen, path := Reverse(e.path, p.path, p.pathLen));
          Outcome(cache[d := found], [], false)
    else
      var ttl := p.ttl - 1;
      if ttl <= 0 then Outcome(cache, [], false)
      else Outcome(cache, Forward(self, p.(ttl := ttl)), false)
  }

  /** Data that is not for this node goes to the next one on its path. */
  function OnData(self: Node, cache: map<Node, Entry>, p: Packet): Outcome
    requires p.kind.Data?
  {
    if p.dest == self then Outcome(cache, [], false)
    else Outcome(cache, Forward(self, p.(ttl := p.ttl - 1)), false)
  }

  /** To the slot behind the one that holds this node. */
  function Forward(self: Node, p: Packet): seq<Message> {
    var k := Find(p.path, self) + 1;
    if 0 <= k < |p.path| then [Message(p.path[k], p)] else []
  }

  // ---- The network -------------------------------------------------------------------

  datatype Net = Net(config: Config, caches: map<Node, map<Node, Entry>>, messages: seq<Message>, overrun: bool)

  function CacheOf(n: Net, u: Node): map<Node, Entry> {
    if u in n.caches then n.caches[u] else map[]
  }

  /** What can happen: a thread looks up a destination that is not cached; the search alarm of
      an entry goes off (with or without threads waiting on it); an entry is evicted; a
      packet is received or lost; data is sent on a cached route. */
  datatype Action =
    | Lookup(u: Node, d: Node)
    | Alarm(u: Node, d: Node, waiters: bool)
    | Evict(u: Node, d: Node)
    | SendData(u: Node, d: Node)
    | Receive(i: nat)
    | Lose(i: nat)

  function Search(c: Config, u: Node, d: Node, id: int): seq<Message>
    requires c.len > 0
  {
    Broadcast(c, u, Packet(Discovery, d, id, c.len, 0, Alone(c.len, u)))
  }

  function Without(s: seq<Message>, i: nat): seq<Message>
    requires i < |s|
  {
    s[..i] + s[i + 1..]
  }

  ghost predicate Typed(n: Net) {
    && n.config.len >= 2
    && (forall i :: 0 <= i < |n.messages| ==> PacketTyped(n.config, n.messages[i].packet))
    && (forall u, d :: d in CacheOf(n, u) ==> |CacheOf(n, u)[d].path| == n.config.len)
  }

  ghost predicate PacketTyped(c: Config, p: Packet) {
    |p.path| == c.len && p.pathLen < c.len
  }

  function Handle(c: Config, self: Node, cache: map<Node, Entry>, p: Packet): Outcome
    requires |p.path| == c.len > 0 && p.pathLen < c.len
    requires forall d :: d in cache ==> |cache[d].path| == c.len
  {
    match p.kind
    case Discovery => OnDiscovery(c, self, cache, p)
    case Reply => OnReply(c, self, cache, p)
    case Data => OnData(self, cache, p)
  }

  function Step(n: Net, a: Action): Option<Net>
    requires Typed(n)
  {
    var c := n.config;
    match a
    case Lookup(u, d) =>
      var cache := CacheOf(n, u);
      if u == NOBODY || d == NOBODY || u == d || d in cache then None
      else
        var e := Entry(Searching, 0, Alone(c.len, u), 1, 1);
        var caches := if |cache| < c.capacity then n.caches[u := cache[d := e]] else n.caches;
        Some(n.(caches := caches, messages := n.messages + Search(c, u, d, 1)))
    case Alarm(u, d, waiters) =>
      var cache := CacheOf(n, u);
      if d !in cache || cache[d].flag != Searching then None
      else
        var e := cache[d].(id := cache[d].id + 1);
        if e.retries > MAX_RETRIES then
          Some(n.(caches := n.caches[u := if waiters then cache[d := e.(flag := GaveUp)] else cache - {d}]))
        else
          Some(n.(caches := n.caches[u := cache[d := e.(retries := e.retries + 1)]],
                  messages := n.messages + Broadcast(c, u, Packet(Discovery, d, e.id, c.len, 0, e.path))))
    case Evict(u, d) =>
      var cache := CacheOf(n, u);
      if d !in cache || cache[d].flag == Searching then None
      else Some(n.(caches := n.caches[u := cache - {d}]))
    case SendData(u, d) =>
      var cache := CacheOf(n, u);
      if d !in cache || cache[d].flag != Found then None
      else
        var e := cache[d];
        Some(n.(messages := n.messages + [Message(e.path[1], Packet(Data, d, 0, c.len, e.pathLen, e.path))]))
    case Receive(i) =>
      if i >= |n.messages| then None
      else
        var m := n.messages[i];
        var o := Handle(c, m.to, CacheOf(n, m.to), m.packet);
        Some(n.(caches := n.caches[m.to := o.cache], messages := Without(n.messages, i) + o.sent,
                overrun := n.overrun || o.overrun))
    case Lose(i) =>
      if i >= |n.messages| then None else Some(n.(messages := Without(n.messages, i)))
  }

  // ---- Invariants ---------------------------------------------------------------------

  /** path[0..k] are distinct nodes, each linked to the next, with nothing behind them. */
  ghost predicate SimplePath(c: Config, path: seq<Node>, k: nat) {
    && k < |path| == c.len
    && (forall i :: 0 <= i <= k ==> path[i] != NOBODY)
    && (forall i, j :: 0 <= i < j <= k ==> path[i] != path[j])
    && (forall i :: 0 <= i < k ==> Linked(c, path[i], path[i + 1]))
    && (forall i :: k < i < c.len ==> path[i] == NOBODY)
  }

  ghost predicate DiscoveryOk(c: Config, m: Message) {
    var p := m.packet;
    && p.kind.Discovery?
    && SimplePath(c, p.path, p.pathLen)
    && p.ttl >= 1 && p.ttl + p.pathLen == c.len
    && p.dest != NOBODY && p.dest !in p.path
    && m.to != NOBODY && Linked(c, p.path[p.pathLen], m.to)
  }

  /** The route a reply reports: its path read backwards. */
  function Route(c: Config, p: Packet): seq<Node>
    requires |p.path| == c.len > p.pathLen
  {
    Reverse(Zeros(c.len), p.path, p.pathLen)
  }

  /** A reply is at the node its ttl says: one hop further for each unit spent. */
  ghost predicate ReplyOk(c: Config, m: Message) {
    var p := m.packet;
    && p.kind.Reply?
    && 1 <= p.pathLen < c.len == |p.path|
    && SimplePath(c, Route(c, p), p.pathLen)
    && SimpleBackwards(p.path, p.pathLen)
    && p.dest == p.path[p.pathLen]
    && c.len + 1 - p.pathLen <= p.ttl <= c.len
    && m.to == p.path[c.len + 1 - p.ttl]
  }

  ghost predicate SimpleBackwards(path: seq<Node>, k: nat)
    requires k < |path|
  {
    && (forall i :: 0 <= i <= k ==> path[i] != NOBODY)
    && (forall i, j :: 0 <= i < j <= k ==> path[i] != path[j])
    && (forall i :: k < i < |path| ==> path[i] == NOBODY)
  }

  ghost predicate DataOk(c: Config, m: Message) {
    var p := m.packet;
    && p.kind.Data?
    && 1 <= p.pathLen
    && SimplePath(c, p.path, p.pathLen)
    && p.dest == p.path[p.pathLen]
    && m.to in p.path[1..p.pathLen + 1]
  }

  ghost predicate MessageOk(c: Config, m: Message) {
    match m.packet.kind
    case Discovery => DiscoveryOk(c, m)
    case Reply => ReplyOk(c, m)
    case Data => DataOk(c, m)
  }

  ghost predicate EntryOk(c: Config, u: Node, d: Node, e: Entry) {
    && u != NOBODY && d != NOBODY && u != d
    && |e.path| == c.len
    && (if e.flag == Found then
          1 <= e.pathLen && SimplePath(c, e.path, e.pathLen) && e.path[0] == u && e.path[e.pathLen] == d
        else c.len > 0 && e.path == Alone(c.len, u))
  }

  ghost predicate CacheOk(c: Config, u: Node, cache: map<Node, Entry>) {
    forall d :: d in cache ==> EntryOk(c, u, d, cache[d])
  }

  ghost predicate MessagesOk(c: Config, ms: seq<Message>) {
    forall i :: 0 <= i < |ms| ==> MessageOk(c, ms[i])
  }

  ghost predicate NoZeroNeighbour(c: Config) {
    forall u, v :: Linked(c, u, v) ==> v != NOBODY
  }

  ghost predicate Inv(n: Net) {
    && n.config.len >= 2
    && NoZeroNeighbour(n.config)
    && MessagesOk(n.config, n.messages)
    && (forall u :: CacheOk(n.config, u, CacheOf(n, u)))
  }

  lemma InvTyped(n: Net)
    requires Inv(n)
    ensures Typed(n)
  {
    forall i | 0 <= i < |n.messages| ensures PacketTyped(n.config, n.messages[i].packet) {
      assert MessageOk(n.config, n.messages[i]);
    }
    forall u, d | d in CacheOf(n, u) ensures |CacheOf(n, u)[d].path| == n.config.len {
      assert CacheOk(n.config, u, CacheOf(n, u));
      assert EntryOk(n.config, u, d, CacheOf(n, u)[d]);
    }
  }
}

/** How often a search of miniroute.c is broadcast, and which of its broadcasts can be
    answered. */
module MinirouteRetries {
  import opened Options
  import opened Miniroute
  import opened MinirouteResults

  /** A search has been broadcast `retries` times, the last time under that number; a route
      answers one of the broadcasts but the last. */
  ghost predicate RetryOk(e: Entry) {
    && (e.flag == Searching ==> 1 <= e.id == e.retries <= MAX_RETRIES + 1)
    && (e.flag == Found ==> 1 <= e.id <= MAX_RETRIES)
  }

  ghost predicate CacheRetries(cache: map<Node, Entry>) {
    forall d :: d in cache ==> RetryOk(cache[d])
  }

  ghost predicate RetriesOk(n: Net) {
    forall u :: CacheRetries(CacheOf(n, u))
  }

  lemma ReplyKeepsRetries(c: Config, self: Node, cache: map<Node, Entry>, p: Packet)
    requires p.kind.Reply? && |p.path| == c.len > 0 && p.pathLen < c.len
    requires forall d :: d in cache ==> |cache[d].path| == c.len
    requires CacheRetries(cache)
    ensures CacheRetries(OnReply(c, self, cache, p).cache)
    ensures p.id > MAX_RETRIES ==> OnReply(c, self, cache, p).cache == cache
  {}

  lemma HandleKeepsRetries(c: Config, self: Node, cache: map<Node, Entry>, p: Packet)
    requires |p.path| == c.len > 0 && p.pathLen < c.len
    requires forall d :: d in cache ==> |cache[d].path| == c.len
    requires CacheRetries(cache)
    ensures CacheRetries(Handle(c, self, cache, p).cache)
    ensures p.kind.Reply? && p.id > MAX_RETRIES ==> Handle(c, self, cache, p).cache == cache
  {
    if p.kind.Reply? { ReplyKeepsRetries(c, self, cache, p); }
  }

  lemma CacheChange(n: Net, n': Net, u: Node, cache: map<Node, Entry>)
    requires RetriesOk(n) && CacheRetries(cache) && n'.caches == n.caches[u := cache]
    ensures RetriesOk(n')
  {
    forall v ensures CacheRetries(CacheOf(n', v)) { assert CacheRetries(CacheOf(n, v)); }
  }

  lemma SameCaches(n: Net, n': Net)
    requires RetriesOk(n) && n'.caches == n.caches
    ensures RetriesOk(n')
  {
    forall v ensures CacheRetries(CacheOf(n', v)) { assert CacheRetries(CacheOf(n, v)); }
  }

  lemma LookupRetries(n: Net, u: Node, d: Node)
    requires Typed(n) && RetriesOk(n) && Step(n, Lookup(u, d)).Some?
    ensures RetriesOk(Step(n, Lookup(u, d)).value)
  {
    var n', cache := Step(n, Lookup(u, d)).value, CacheOf(n, u);
    assert CacheRetries(cache);
    if |cache| < n.config.capacity {
      CacheChange(n, n', u, cache[d := Entry(Searching, 0, Alone(n.config.len, u), 1, 1)]);
    } else {
      SameCaches(n, n');
    }
  }

  lemma AlarmRetries(n: Net, u: Node, d: Node, waiters: bool)
    requires Typed(n) && RetriesOk(n) && Step(n, Alarm(u, d, waiters)).Some?
    ensures RetriesOk(Step(n, Alarm(u, d, waiters)).value)
  {
    var n', cache := Step(n, Alarm(u, d, waiters)).value, CacheOf(n, u);
    assert CacheRetries(cache) && RetryOk(cache[d]);
    CacheChange(n, n', u, n'.caches[u]);
  }

  lemma ReceiveRetries(n: Net, i: nat)
    requires Typed(n) && RetriesOk(n) && Step(n, Receive(i)).Some?
    ensures RetriesOk(Step(n, Receive(i)).value)
  {
    var m := n.messages[i];
    assert CacheRetries(CacheOf(n, m.to)) && PacketTyped(n.config, m.packet);
    HandleKeepsRetries(n.config, m.to, CacheOf(n, m.to), m.packet);
    CacheChange(n, Step(n, Receive(i)).value, m.to, Handle(n.config, m.to, CacheOf(n, m.to), m.packet).cache);
  }

  lemma StepKeepsRetries(n: Net, a: Action)
    requires Typed(n) && RetriesOk(n) && Step(n, a).Some?
    ensures RetriesOk(Step(n, a).value)
  {
    match a
    case Lookup(u, d) => LookupRetries(n, u, d);
    case Alarm(u, d, waiters) => AlarmRetries(n, u, d, waiters);
    case Evict(u, d) =>
      assert CacheRetries(CacheOf(n, u));
      CacheChange(n, Step(n, a).value, u, CacheOf(n, u) - {d});
    case SendData(u, d) => SameCaches(n, Step(n, a).value);
    case Receive(i) => ReceiveRetries(n, i);
    case Lose(i) => SameCaches(n, Step(n, a).value);
  }

  lemma NextKeepsRetries(n: Net, n': Net)
    requires RetriesOk(n) && Next(n, n')
    ensures RetriesOk(n')
  {
    var a :| Step(n, a) == Some(n');
    StepKeepsRetries(n, a);
  }

  lemma {:induction false} RunRetries(c: Config, run: seq<Net>, k: nat)
    requires IsRun(c, run) && k < |run|
    ensures RetriesOk(run[k])
  {
    if k == 0 {
    } else {
      RunRetries(c, run, k - 1);
      NextKeepsRetries(run[k - 1], run[k]);
    }
  }

  /** In every reachable state a search has been broadcast at most three times, and a cached route
      answers its first or second broadcast. */
  lemma BroadcastsBounded(c: Config, run: seq<Net>, k: nat, u: Node, d: Node)
    requires IsRun(c, run) && k < |run| && d in CacheOf(run[k], u)
    ensures var e := CacheOf(run[k], u)[d];
            && (e.flag == Searching ==> 1 <= e.id == e.retries <= 3)
            && (e.flag == Found ==> 1 <= e.id <= 2)
  {
    RunRetries(c, run, k);
    assert CacheRetries(CacheOf(run[k], u));
  }

  /** The third broadcast can never be answered: a reply to it changes no cache, whenever and
      wherever it arrives. */
  lemma LastBroadcastIsUnanswered(c: Config, run: seq<Net>, k: nat, i: nat)
    requires IsRun(c, run) && k < |run| && i < |run[k].messages| && Typed(run[k])
    requires run[k].messages[i].packet.kind.Reply? && run[k].messages[i].packet.id >= 3
    ensures var n' := Step(run[k], Receive(i)).value;
            forall u :: CacheOf(n', u) == CacheOf(run[k], u)
  {
    RunRetries(c, run, k);
    var n, m := run[k], run[k].messages[i];
    assert CacheRetries(CacheOf(n, m.to)) && PacketTyped(n.config, m.packet);
    HandleKeepsRetries(n.config, m.to, CacheOf(n, m.to), m.packet);
  }
}

/** One node's routing layer as it runs: path arrays filled by loops and a cache
    updated in place, proved against the functions of Miniroute. */
module MinirouteNode {
  import opened Miniroute

  method Unpack(path: seq<Node>) returns (a: array<Node>)
    ensures fresh(a) && a[..] == path
  {
    a := new Node[|path|](i requires 0 <= i < |path| => path[i]);
  }

  /** Copies original[n], ..., original[0] into the first n + 1 slots of copy. */
  method ReversePath(copy: array<Node>, original: array<Node>, n: nat)
    requires copy != original && n < copy.Length == original.Length
    modifies copy
    ensures copy[..] == Reverse(old(copy[..]), original[..], n)
  {
    var i := 0;
    while i <= n
      invariant i <= n + 1
      invariant forall k :: 0 <= k < i ==> copy[k] == original[n - k]
      invariant forall k :: i <= k < copy.Length ==> copy[k] == old(copy[k])
    {
      copy[i] := original[n - i];
      i := i + 1;
    }
  }

  class Router {
    const config: Config
    const self: Node
    var cache: map<Node, Entry>

    constructor (config: Config, self: Node)
      ensures this.config == config && this.self == self && cache == map[]
    {
      this.config := config;
      this.self := self;
      cache := map[];
    }

    /** The first slot that holds this node's address, or -1. */
    method FindSelf(path: array<Node>) returns (r: int)
      ensures r == Find(path[..], self)
    {
      FindFirst(path[..], self);
      var i := 0;
      while i < path.Length
        invariant i <= path.Length
        invariant forall k :: 0 <= k < i ==> path[k] != self
      {
        if path[i] == self { return i; }
        i := i + 1;
      }
      return -1;
    }

    method PathContainsSelf(path: array<Node>) returns (r: bool)
      ensures r == (self in path[..])
    {
      var i := 0;
      while i < path.Length
        invariant i <= path.Length
        invariant self !in path[..i]
      {
        if path[i] == self { return true; }
        assert path[..i + 1] == path[..i] + [path[i]];
        i := i + 1;
      }
      assert path[..i] == path[..];
      return false;
    }

    method SendForward(p: Packet) returns (sent: seq<Message>)
      ensures sent == Forward(self, p)
    {
      var path := Unpack(p.path);
      var k := FindSelf(path);
      FindFirst(p.path, self);
      sent := if k + 1 < path.Length then [Message(path[k + 1], p)] else [];
    }

    method ReceiveDiscovery(p: Packet) returns (sent: seq<Message>, overrun: bool)
      requires p.kind.Discovery? && |p.path| == config.len > 0
      ensures Outcome(cache, sent, overrun) == OnDiscovery(config, self, cache, p)
    {
      sent, overrun := [], false;
      var ttl := p.ttl - 1;
      var path := Unpack(p.path);
      var pathLen := p.pathLen;
      if p.dest == self {
        pathLen := pathLen + 1;
        if pathLen >= path.Length { return [], true; }
        path[pathLen] := self;
        var replyPath := Unpack(Zeros(config.len));
        ReversePath(replyPath, path, pathLen);
        sent := [Message(replyPath[1], Packet(Reply, path[0], p.id, config.len, pathLen, replyPath[..]))];
      } else if ttl == 0 || ttl == -1 {
      } else {
        var looped := PathContainsSelf(path);
        if !looped {
          pathLen := pathLen + 1;
          if pathLen >= path.Length { return [], true; }
          path[pathLen] := self;
          sent := Broadcast(config, self, Packet(Discovery, p.dest, p.id, ttl, pathLen, path[..]));
        }
      }
    }

    method ReceiveReply(p: Packet) returns (sent: seq<Message>)
      requires p.kind.Reply? && |p.path| == config.len > 0 && p.pathLen < config.len
      requires forall d :: d in cache ==> |cache[d].path| == config.len
      modifies `cache
      ensures Outcome(cache, sent, false) == OnReply(config, self, old(cache), p)
    {
      sent := [];
      if p.dest == self {
        var d := p.path[0];
        if d in cache {
          var e := cache[d];
          if !(e.flag != Searching || e.retries > MAX_RETRIES || e.id != p.id) {
            var path := Unpack(e.path);
            var received := Unpack(p.path);
            ReversePath(path, received, p.pathLen);
            cache := cache[d := e.(pathLen := p.pathLen, path := path[..], flag := Found)];
          }
        }
      } else {
        var ttl := p.ttl - 1;
        if ttl > 0 { sent := SendForward(p.(ttl := ttl)); }
      }
    }

    method ReceiveData(p: Packet) returns (sent: seq<Message>)
      requires p.kind.Data?
      ensures Outcome(cache, sent, false) == OnData(self, cache, p)
    {
      sent := [];
      if p.dest != self { sent := SendForward(p.(ttl := p.ttl - 1)); }
    }

    method ReceivePacket(p: Packet) returns (sent: seq<Message>, overrun: bool)
      requires |p.path| == config.len > 0 && p.pathLen < config.len
      requires forall d :: d in cache ==> |cache[d].path| == config.len
      modifies `cache
      ensures Outcome(cache, sent, overrun) == Handle(config, self, old(cache), p)
    {
      overrun := false;
      match p.kind {
        case Discovery => sent, overrun := ReceiveDiscovery(p);
        case Reply => sent := ReceiveReply(p);
        case Data => sent := ReceiveData(p);
      }
    }
  }
}

/**
 tunnelEndpoints and firstRequestTimeout (internal/probe/probe.go): a worklist search through the
 outbounds' dependency graph, which may have cycles and may name outbounds that do not exist.
 */
module TunnelGraph {
  /** `handshakes` is true for OpenVPN and OpenConnect, whose handshake a probe awaits first. */
  datatype Endpoint = Endpoint(tag: string, handshakes: bool)

  /** The outbounds found by tag, with their dependencies, and the endpoints found by tag. */
  datatype Box = Box(outbounds: map<string, seq<string>>, endpoints: map<string, Endpoint>) {
    ghost predicate Valid() {
      forall t :: t in endpoints ==> endpoints[t].tag == t
    }
  }

  /** Consecutive dependencies, every one of them a found outbound. */
  ghost predicate Path(b: Box, p: seq<string>) {
    && p != []
    && (forall i :: 0 <= i < |p| ==> p[i] in b.outbounds)
    && (forall i :: 0 <= i < |p| - 1 ==> p[i + 1] in b.outbounds[p[i]])
  }

  ghost predicate Reaches(b: Box, start: string, t: string) {
    exists p :: Path(b, p) && p[0] == start && p[|p| - 1] == t
  }

  /** Every tag a search from `start` can ever push. */
  ghost function Universe(b: Box, start: string): set<string> {
    {start} + b.outbounds.Keys + set t, d | t in b.outbounds && d in b.outbounds[t] :: d
  }

  /** t is the start or a dependency of something reached: what makes it worth looking at. */
  ghost predicate Noted(b: Box, start: string, t: string) {
    t == start || exists y :: Reaches(b, start, y) && y in b.outbounds && t in b.outbounds[y]
  }

  lemma NotedReaches(b: Box, start: string, t: string)
    requires Noted(b, start, t) && t in b.outbounds
    ensures Reaches(b, start, t)
  {
    if t == start {
      assert Path(b, [t]);
    } else {
      var y :| Reaches(b, start, y) && y in b.outbounds && t in b.outbounds[y];
      var p :| Path(b, p) && p[0] == start && p[|p| - 1] == y;
      var q := p + [t];
      assert Path(b, q) && q[0] == start && q[|q| - 1] == t;
    }
  }

  /** A set that holds the start and is closed under dependencies of found outbounds holds all that is reached. */
  lemma {:induction false} ClosedHoldsPath(b: Box, seen: set<string>, p: seq<string>)
    requires Path(b, p) && p[0] in seen
    requires forall v, d :: v in seen && v in b.outbounds && d in b.outbounds[v] ==> d in seen
    ensures p[|p| - 1] in seen
  {
    if |p| > 1 {
      assert p[1] in b.outbounds[p[0]];
      var q := p[1..];
      forall i | 0 <= i < |q| - 1 ensures q[i + 1] in b.outbounds[q[i]] {
        assert p[i + 2] in b.outbounds[p[i + 1]];
      }
      ClosedHoldsPath(b, seen, q);
    }
  }

  /** When the stack is empty, the visited outbounds are exactly the reached ones. */
  lemma VisitedIsReached(b: Box, start: string, seen: set<string>, t: string)
    requires start in seen && (forall v :: v in seen ==> Noted(b, start, v))
    requires forall v, d :: v in seen && v in b.outbounds && d in b.outbounds[v] ==> d in seen
    ensures t in seen && t in b.outbounds <==> Reaches(b, start, t)
  {
    if Reaches(b, start, t) {
      var p :| Path(b, p) && p[0] == start && p[|p| - 1] == t;
      ClosedHoldsPath(b, seen, p);
    }
    if t in seen && t in b.outbounds { NotedReaches(b, start, t); }
  }

  ghost predicate NoRepeats(es: seq<Endpoint>) {
    forall i, j :: 0 <= i < j < |es| ==> es[i].tag != es[j].tag
  }

  ghost predicate Lists(es: seq<Endpoint>, t: string) {
    exists k :: 0 <= k < |es| && es[k].tag == t
  }

  /** Dependencies of what has been visited are visited or still on the stack. */
  ghost predicate Frontier(b: Box, visited: set<string>, pending: seq<string>) {
    forall v, d :: v in visited && v in b.outbounds && d in b.outbounds[v] ==> d in visited || d in pending
  }

  /** The list so far is exactly the visited endpoints that are found outbounds. */
  ghost predicate Collected(b: Box, visited: set<string>, es: seq<Endpoint>) {
    && NoRepeats(es)
    && (forall k :: 0 <= k < |es| ==> es[k].tag in b.endpoints && es[k] == b.endpoints[es[k].tag])
    && (forall t :: Lists(es, t) <==> t in visited && t in b.outbounds && t in b.endpoints)
  }

  lemma CollectOne(b: Box, visited: set<string>, es: seq<Endpoint>, t: string)
    requires b.Valid() && Collected(b, visited, es) && t !in visited
    ensures t in b.outbounds && t in b.endpoints ==> Collected(b, visited + {t}, es + [b.endpoints[t]])
    ensures !(t in b.outbounds && t in b.endpoints) ==> Collected(b, visited + {t}, es)
  {
    if t in b.outbounds && t in b.endpoints {
      var more := es + [b.endpoints[t]];
      assert !Lists(es, t);
      forall u ensures Lists(more, u) <==> Lists(es, u) || u == t {
        if Lists(es, u) {
          var k :| 0 <= k < |es| && es[k].tag == u;
          assert more[k].tag == u;
        }
        assert more[|es|].tag == t;
      }
      forall i, j | 0 <= i < j < |more| ensures more[i].tag != more[j].tag {
        assert i < |es| && es[i].tag == more[i].tag;
      }
    }
  }

  /**
   Terminates on any finite graph, cyclic or not, and returns each endpoint reachable through found
   outbounds exactly once and nothing else.
   */
  method TunnelEndpoints(b: Box, tag: string) returns (tunnels: seq<Endpoint>)
    requires b.Valid()
    ensures NoRepeats(tunnels)
    ensures forall k :: 0 <= k < |tunnels| ==>
      tunnels[k].tag in b.endpoints && tunnels[k] == b.endpoints[tunnels[k].tag]
    ensures forall t :: Lists(tunnels, t) <==> Reaches(b, tag, t) && t in b.endpoints
  {
    var visited: set<string> := {};
    var pending := [tag];
    tunnels := [];
    while |pending| > 0
      invariant tag in visited || tag in pending
      invariant visited <= Universe(b, tag)
      invariant forall t :: t in pending ==> t in Universe(b, tag) && Noted(b, tag, t)
      invariant forall t :: t in visited ==> Noted(b, tag, t)
      invariant Frontier(b, visited, pending)
      invariant Collected(b, visited, tunnels)
      decreases Universe(b, tag) - visited, |pending|
    {
      var t := pending[|pending| - 1];
      ghost var stack := pending;
      pending := pending[..|pending| - 1];
      assert forall x :: x in stack <==> x == t || x in pending;
      if t in visited { continue; }
      CollectOne(b, visited, tunnels, t);
      visited := visited + {t};
      if t !in b.outbounds { continue; }
      NotedReaches(b, tag, t);
      if t in b.endpoints { tunnels := tunnels + [b.endpoints[t]]; }
      pending := pending + b.outbounds[t];
    }
    forall t ensures Lists(tunnels, t) <==> Reaches(b, tag, t) && t in b.endpoints {
      VisitedIsReached(b, tag, visited, t);
    }
  }

  const TUNNEL_STARTUP_TIMEOUT: int := 5_000_000_000    // nanoseconds

  /** Some reachable tunnel holds its first dial until it is up, instead of having been awaited. */
  ghost predicate HoldsFirstDial(b: Box, tag: string) {
    exists t :: t in b.endpoints && Reaches(b, tag, t) && !b.endpoints[t].handshakes
  }

  /** The startup allowance is added exactly when the connection is cold and some reachable tunnel has no handshake. */
  method FirstRequestTimeout(b: Box, tag: string, cold: bool, timeout: int) returns (r: int)
    requires b.Valid()
    ensures r == timeout + if cold && HoldsFirstDial(b, tag) then 5_000_000_000 else 0
  {
    if !cold { return timeout; }
    var tunnels := TunnelEndpoints(b, tag);
    for i := 0 to |tunnels|
      invariant forall k :: 0 <= k < i ==> tunnels[k].handshakes
    {
      assert Lists(tunnels, tunnels[i].tag);
      if !tunnels[i].handshakes { return timeout + TUNNEL_STARTUP_TIMEOUT; }
    }
    assert forall t :: t in b.endpoints && Reaches(b, tag, t) ==> Lists(tunnels, t);
    return timeout;
  }
}

/**
 The structural part of the correctness validator: K1 (balanced gateway counts), K2 (degrees),
 K3 (reachability) and K7 (branch partitions). Every flattening of a block term passes K1 to K3;
 the converse fails, because K1 only counts gateways. An edge to a node that does not exist breaks
 no rule, but the data-flow analysis stumbles over it.
 */
module Validator {
  import opened Model
  import opened Partition
  import opened DataFlow

  function OfType(g: Schema, t: NodeType): set<Id> {
    set n | n in g.nodes && g.nodes[n] == t
  }

  /** `_check_k1_gateways` */
  predicate K1(g: Schema) {
    && |OfType(g, AND_SPLIT)| == |OfType(g, AND_JOIN)|
    && |OfType(g, XOR_SPLIT)| == |OfType(g, XOR_JOIN)|
  }

  lemma RetypedCount(g: Schema, h: Schema, n: Id, t: NodeType)
    requires n in g.nodes && t != ACTIVITY && h.nodes == g.nodes[n := ACTIVITY]
    ensures |OfType(h, t)| == |OfType(g, t)| - if g.nodes[n] == t then 1 else 0
  {
    if g.nodes[n] == t { assert n in OfType(g, t); }
    assert OfType(h, t) == OfType(g, t) - {n};
  }

  /** K1 counts every gateway: one of them less, and the counts differ. */
  lemma K1Counts(g: Schema, h: Schema, n: Id)
    requires K1(g) && n in g.nodes && g.nodes[n] in {AND_SPLIT, AND_JOIN, XOR_SPLIT, XOR_JOIN} && h.nodes == g.nodes[n := ACTIVITY]
    ensures !K1(h)
  {
    RetypedCount(g, h, n, AND_SPLIT);
    RetypedCount(g, h, n, AND_JOIN);
    RetypedCount(g, h, n, XOR_SPLIT);
    RetypedCount(g, h, n, XOR_JOIN);
  }

  predicate DegreesOk(t: NodeType, ins: nat, outs: nat) {
    match t
    case START => ins == 0 && outs == 1
    case END => ins == 1 && outs == 0
    case ACTIVITY => ins == 1 && outs == 1
    case SUBPROCESS => ins == 1 && outs == 1
    case AND_SPLIT => ins == 1 && outs >= 2
    case XOR_SPLIT => ins == 1 && outs >= 2
    case AND_JOIN => ins >= 2 && outs == 1
    case XOR_JOIN => ins >= 2 && outs == 1
  }

  /** `_check_k2_endpoints_and_degrees` */
  predicate K2(g: Schema) {
    && |OfType(g, START)| == 1 && |OfType(g, END)| == 1
    && forall n :: n in g.nodes ==> DegreesOk(g.nodes[n], |Incoming(g.edges, n)|, |Outgoing(g.edges, n)|)
  }

  /** `n` is the only node of its type. */
  ghost predicate IsOnly(g: Schema, t: NodeType, n: Id) {
    n in g.nodes && g.nodes[n] == t && forall m :: m in g.nodes && g.nodes[m] == t ==> m == n
  }

  lemma OneOfType(g: Schema, t: NodeType)
    ensures |OfType(g, t)| == 1 <==> exists n :: IsOnly(g, t, n)
  {
    var all := OfType(g, t);
    if |all| == 1 {
      var n :| n in all;
      assert |all - {n}| == 0;
      assert all == {n} + (all - {n}) == {n};
      forall m | m in g.nodes && g.nodes[m] == t ensures m == n { assert m in all; }
      assert IsOnly(g, t, n);
    }
    if n :| IsOnly(g, t, n) { assert all == {n}; }
  }

  /** The ways into and out of a node by its role: none into START, none out of END, several into joins and out of splits only. */
  predicate RoleFits(t: NodeType, ins: nat, outs: nat) {
    && (ins == 0 <==> t == START) && (ins >= 2 <==> t in {AND_JOIN, XOR_JOIN})
    && (outs == 0 <==> t == END) && (outs >= 2 <==> t in {AND_SPLIT, XOR_SPLIT})
  }

  lemma RoleDegrees(t: NodeType, ins: nat, outs: nat)
    ensures DegreesOk(t, ins, outs) <==> RoleFits(t, ins, outs)
  {}

  /** K2 by the roles of the nodes: one START and one END, and as many ways in and out of every node as its role allows. */
  lemma K2Means(g: Schema)
    ensures K2(g) <==>
              && (exists s :: IsOnly(g, START, s)) && (exists e :: IsOnly(g, END, e))
              && forall n :: n in g.nodes ==> RoleFits(g.nodes[n], |Incoming(g.edges, n)|, |Outgoing(g.edges, n)|)
  {
    OneOfType(g, START);
    OneOfType(g, END);
    forall n | n in g.nodes
      ensures DegreesOk(g.nodes[n], |Incoming(g.edges, n)|, |Outgoing(g.edges, n)|) <==> RoleFits(g.nodes[n], |Incoming(g.edges, n)|, |Outgoing(g.edges, n)|)
    {
      RoleDegrees(g.nodes[n], |Incoming(g.edges, n)|, |Outgoing(g.edges, n)|);
    }
  }

  /** A walk along edges. */
  ghost predicate IsWalk(edges: seq<Edge>, walk: seq<Id>) {
    |walk| >= 1 && forall i, j :: 0 <= i && j == i + 1 && j < |walk| ==> Edge(walk[i], walk[j]) in edges
  }

  ghost predicate Reaches(edges: seq<Edge>, a: Id, b: Id) {
    exists walk :: IsWalk(edges, walk) && walk[0] == a && walk[|walk| - 1] == b
  }

  /** `n` can be reached from START and can reach END. */
  ghost predicate OnSomeWay(g: Schema, n: Id) {
    && (forall s :: s in g.nodes && g.nodes[s].START? ==> Reaches(g.edges, s, n))
    && (forall e :: e in g.nodes && g.nodes[e].END? ==> Reaches(g.edges, n, e))
  }

  /** `_check_k3_reachability` */
  ghost predicate K3(g: Schema) {
    forall n :: n in g.nodes ==> OnSomeWay(g, n)
  }

  function Targets(edges: seq<Edge>): seq<Id> {
    if edges == [] then [] else [edges[0].target] + Targets(edges[1..])
  }

  function BranchTargets(bs: seq<XorBranch>): seq<Id> {
    if bs == [] then [] else [bs[0].target] + BranchTargets(bs[1..])
  }

  /** `_check_k7_xor_decisions`, without the data-flow part. */
  predicate K7(g: Schema) {
    && g.decisions.Keys == OfType(g, XOR_SPLIT)
    && forall n :: n in g.decisions ==>
         && multiset(BranchTargets(g.decisions[n].branches)) == multiset(Targets(Outgoing(g.edges, n)))
         && |g.decisions[n].branches| >= 2
         && Tiles(g.decisions[n])
  }

  /** The structural rules, and that the data-flow analysis behind K7 meets known nodes only. */
  ghost predicate Structural(g: Schema) {
    K1(g) && K2(g) && K3(g) && K7(g) && Resolves(g)
  }

  /** `rest` stands for the rule families beyond the control-flow structure. */
  ghost predicate Valid(g: Schema, rest: Schema -> bool) {
    Structural(g) && rest(g)
  }

  // --- the breadth-first search behind K3 --------------------------------------

  lemma ReachesSelf(edges: seq<Edge>, a: Id)
    ensures Reaches(edges, a, a)
  {
    assert IsWalk(edges, [a]);
  }

  lemma ReachesStep(edges: seq<Edge>, a: Id, e: Edge)
    requires Reaches(edges, a, e.source) && e in edges
    ensures Reaches(edges, a, e.target)
  {
    var walk :| IsWalk(edges, walk) && walk[0] == a && walk[|walk| - 1] == e.source;
    assert IsWalk(edges, walk + [e.target]);
  }

  lemma ReachesFirst(edges: seq<Edge>, e: Edge, b: Id)
    requires Reaches(edges, e.target, b) && e in edges
    ensures Reaches(edges, e.source, b)
  {
    var walk :| IsWalk(edges, walk) && walk[0] == e.target && walk[|walk| - 1] == b;
    var longer := [e.source] + walk;
    assert forall i :: 0 < i < |longer| ==> Edge(longer[i - 1], longer[i]) in edges;
    assert IsWalk(edges, longer);
  }

  lemma ReachesTransitive(edges: seq<Edge>, a: Id, b: Id, c: Id)
    requires Reaches(edges, a, b) && Reaches(edges, b, c)
    ensures Reaches(edges, a, c)
  {
    var walk :| IsWalk(edges, walk) && walk[0] == b && walk[|walk| - 1] == c;
    for i := 0 to |walk| - 1
      invariant Reaches(edges, a, walk[i])
    {
      ReachesStep(edges, a, Edge(walk[i], walk[i + 1]));
    }
  }

  /** A set closed under edges contains everything its members reach. */
  lemma ClosedContains(edges: seq<Edge>, closed: set<Id>, a: Id, b: Id)
    requires a in closed && Reaches(edges, a, b)
    requires forall e :: e in edges && e.source in closed ==> e.target in closed
    ensures b in closed
  {
    var walk :| IsWalk(edges, walk) && walk[0] == a && walk[|walk| - 1] == b;
    for i := 0 to |walk| - 1
      invariant walk[i] in closed
    {
      assert Edge(walk[i], walk[i + 1]) in edges;
    }
  }

  function Ends(edges: seq<Edge>): set<Id> {
    set e | e in edges :: e.target
  }

  /** The inner loop of `_bfs`: mark and enqueue the successors not seen yet. */
  method Visit(out: seq<Edge>, seen: set<Id>, queue: seq<Id>) returns (seen': set<Id>, queue': seq<Id>)
    ensures seen' == seen + Ends(out)
    ensures queue <= queue' && forall n :: n in queue' <==> n in queue || n in seen' - seen
    ensures seen' == seen ==> queue' == queue
  {
    seen', queue' := seen, queue;
    for i := 0 to |out|
      invariant seen' == seen + Ends(out[..i])
      invariant queue <= queue' && forall n :: n in queue' <==> n in queue || n in seen' - seen
      invariant seen' == seen ==> queue' == queue
    {
      assert Ends(out[..i + 1]) == Ends(out[..i]) + {out[i].target} by { assert out[..i + 1] == out[..i] + [out[i]]; }
      if out[i].target !in seen' {
        seen' := seen' + {out[i].target};
        queue' := queue' + [out[i].target];
      }
    }
    assert out[..|out|] == out;
  }

  /** `_bfs`: exactly the ids reachable from `start`. */
  method Search(edges: seq<Edge>, start: Id) returns (seen: set<Id>)
    ensures forall n :: n in seen <==> Reaches(edges, start, n)
  {
    seen := {start};
    var queue := [start];
    ReachesSelf(edges, start);
    while queue != []
      invariant start in seen && seen <= {start} + Ends(edges)
      invariant forall n :: n in seen ==> Reaches(edges, start, n)
      invariant forall n :: n in queue ==> n in seen
      invariant forall e :: e in edges && e.source in seen && e.source !in queue ==> e.target in seen
      decreases ({start} + Ends(edges)) - seen, |queue|
    {
      var out := Outgoing(edges, queue[0]);
      forall e | e in out ensures Reaches(edges, start, e.target) { ReachesStep(edges, start, e); }
      ghost var current, tail := queue[0], queue[1..];
      assert queue == [current] + tail;
      forall e | e in edges && e.source == current ensures e.target in Ends(out) { assert e in out; }
      seen, queue := Visit(out, seen, queue[1..]);
    }
    forall n | Reaches(edges, start, n) ensures n in seen { ClosedContains(edges, seen, start, n); }
  }

  function Reversed(edges: seq<Edge>): seq<Edge> {
    if edges == [] then [] else [Edge(edges[0].target, edges[0].source)] + Reversed(edges[1..])
  }

  lemma ReversedEdge(edges: seq<Edge>, a: Id, b: Id)
    ensures Edge(a, b) in edges <==> Edge(b, a) in Reversed(edges)
  {}

  lemma ReversedReach(edges: seq<Edge>, a: Id, b: Id)
    requires Reaches(edges, a, b)
    ensures Reaches(Reversed(edges), b, a)
  {
    var walk :| IsWalk(edges, walk) && walk[0] == a && walk[|walk| - 1] == b;
    ReachesSelf(Reversed(edges), b);
    var i := |walk| - 1;
    while i > 0
      invariant 0 <= i < |walk| && Reaches(Reversed(edges), b, walk[i])
    {
      ReversedEdge(edges, walk[i - 1], walk[i]);
      ReachesStep(Reversed(edges), b, Edge(walk[i], walk[i - 1]));
      i := i - 1;
    }
  }

  lemma ReversedTwice(edges: seq<Edge>)
    ensures Reversed(Reversed(edges)) == edges
  {}

  /** `_check_k3_reachability` */
  method CheckReachability(g: Schema) returns (ok: bool)
    requires |OfType(g, START)| == 1 && |OfType(g, END)| == 1
    ensures ok <==> K3(g)
  {
    var starts, ends := OfType(g, START), OfType(g, END);
    var start := TheOne(starts);
    var end := TheOne(ends);
    assert forall n :: n in starts <==> n in g.nodes && g.nodes[n].START?;
    assert forall n :: n in ends <==> n in g.nodes && g.nodes[n].END?;
    var forward := Search(g.edges, start);
    var backward := Search(Reversed(g.edges), end);
    forall n ensures n in backward <==> Reaches(g.edges, n, end) {
      if n in backward {
        ReversedReach(Reversed(g.edges), end, n);
        ReversedTwice(g.edges);
      }
      if Reaches(g.edges, n, end) { ReversedReach(g.edges, n, end); }
    }
    assert forall n :: OnSomeWay(g, n) <==> n in forward && n in backward;
    ok := forall n :: n in g.nodes ==> n in forward && n in backward;
  }

  /** The only member of a one-element set. */
  method TheOne(s: set<Id>) returns (x: Id)
    requires |s| == 1
    ensures s == {x}
  {
    x :| x in s;
    assert |s - {x}| == 0;
    assert s == {x} + (s - {x});
  }

  /** How a schema that is not valid is refused. */
  ghost function Refusal(g: Schema): Error {
    if Resolves(g) then Incorrect("findings") else KeyMissing
  }

  /** What `raise_if_invalid` makes of a candidate. */
  ghost function Committed(c: Schema, rest: Schema -> bool): Result<Schema> {
    if Valid(c, rest) then Ok(c) else Err(Refusal(c))
  }

  /** `raise_if_invalid`; the analysis of K7 runs, and may fail, whatever the other rules find. */
  method RaiseIfInvalid(g: Schema, rest: Schema -> bool) returns (r: Result<Schema>)
    ensures r == Committed(g, rest)
  {
    var before := MustWrittenBefore(g, map[]);
    if before.None? { return Err(KeyMissing); }
    if K1(g) && K2(g) && K7(g) && rest(g) {
      var reachable := CheckReachability(g);
      if reachable { return Ok(g); }
    }
    return Err(Incorrect("findings"));
  }
}

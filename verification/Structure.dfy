/**
 Block structure and the structural rules: every flattening passes K1, K2 and K3, so the change
 operations are never refused for these; but the rules admit graphs that are no flattening.
 */
module Structure {
  import opened Model
  import opened Blocks
  import opened Marking
  import opened Validator
  import opened DataFlow

  // --- degrees -------------------------------------------------------------------

  function EdgeList(b: Block, src: Id, dst: Id): seq<Edge> {
    match b
    case Done => [Edge(src, dst)]
    case Task(id, _, next) => [Edge(src, id)] + EdgeList(next, id, dst)
    case Gateway(_, s, j, branches, next) => [Edge(src, s)] + EdgeList(branches, s, j) + EdgeList(next, j, dst)
    case NoBranch => []
    case Branch(body, more) => EdgeList(body, src, dst) + EdgeList(more, src, dst)
  }

  lemma EdgeListBag(b: Block, src: Id, dst: Id)
    ensures multiset(EdgeList(b, src, dst)) == EdgeBag(b, src, dst)
  {}

  lemma {:induction false} OutgoingConcat(a: seq<Edge>, b: seq<Edge>, n: Id)
    ensures Outgoing(a + b, n) == Outgoing(a, n) + Outgoing(b, n)
  {
    if a == [] {
      assert a + b == b;
    } else {
      assert (a + b)[1..] == a[1..] + b;
      OutgoingConcat(a[1..], b, n);
    }
  }

  lemma {:induction false} IncomingConcat(a: seq<Edge>, b: seq<Edge>, n: Id)
    ensures Incoming(a + b, n) == Incoming(a, n) + Incoming(b, n)
  {
    if a == [] {
      assert a + b == b;
    } else {
      assert (a + b)[1..] == a[1..] + b;
      IncomingConcat(a[1..], b, n);
    }
  }

  lemma {:induction false} OutgoingCount(es: seq<Edge>, n: Id, e: Edge)
    ensures multiset(Outgoing(es, n))[e] == if e.source == n then multiset(es)[e] else 0
  {
    if es != [] {
      assert es == [es[0]] + es[1..];
      OutgoingCount(es[1..], n, e);
    }
  }

  lemma {:induction false} IncomingCount(es: seq<Edge>, n: Id, e: Edge)
    ensures multiset(Incoming(es, n))[e] == if e.target == n then multiset(es)[e] else 0
  {
    if es != [] {
      assert es == [es[0]] + es[1..];
      IncomingCount(es[1..], n, e);
    }
  }

  /** Degrees do not depend on the order of the edge list. */
  lemma SameDegrees(es: seq<Edge>, fs: seq<Edge>, n: Id)
    requires multiset(es) == multiset(fs)
    ensures multiset(Outgoing(es, n)) == multiset(Outgoing(fs, n)) && |Outgoing(es, n)| == |Outgoing(fs, n)|
    ensures multiset(Incoming(es, n)) == multiset(Incoming(fs, n)) && |Incoming(es, n)| == |Incoming(fs, n)|
  {
    forall e
      ensures multiset(Outgoing(es, n))[e] == multiset(Outgoing(fs, n))[e]
      ensures multiset(Incoming(es, n))[e] == multiset(Incoming(fs, n))[e]
    {
      OutgoingCount(es, n, e);
      OutgoingCount(fs, n, e);
      IncomingCount(es, n, e);
      IncomingCount(fs, n, e);
    }
    assert |multiset(Outgoing(es, n))| == |Outgoing(es, n)| && |multiset(Outgoing(fs, n))| == |Outgoing(fs, n)|;
    assert |multiset(Incoming(es, n))| == |Incoming(es, n)| && |multiset(Incoming(fs, n))| == |Incoming(fs, n)|;
  }

  function One(b: bool): nat { if b then 1 else 0 }

  function OutDegree(b: Block, src: Id, dst: Id, n: Id): nat {
    match b
    case Done => One(n == src)
    case Task(id, _, next) => One(n == src) + OutDegree(next, id, dst, n)
    case Gateway(_, s, j, branches, next) => One(n == src) + OutDegree(branches, s, j, n) + OutDegree(next, j, dst, n)
    case NoBranch => 0
    case Branch(body, more) => OutDegree(body, src, dst, n) + OutDegree(more, src, dst, n)
  }

  function InDegree(b: Block, src: Id, dst: Id, n: Id): nat {
    match b
    case Done => One(n == dst)
    case Task(id, _, next) => One(n == id) + InDegree(next, id, dst, n)
    case Gateway(_, s, j, branches, next) => One(n == s) + InDegree(branches, s, j, n) + InDegree(next, j, dst, n)
    case NoBranch => 0
    case Branch(body, more) => InDegree(body, src, dst, n) + InDegree(more, src, dst, n)
  }

  lemma {:induction false} ListDegrees(b: Block, src: Id, dst: Id, n: Id)
    ensures |Outgoing(EdgeList(b, src, dst), n)| == OutDegree(b, src, dst, n)
    ensures |Incoming(EdgeList(b, src, dst), n)| == InDegree(b, src, dst, n)
  {
    match b
    case Done =>
    case Task(id, _, next) =>
      ListDegrees(next, id, dst, n);
      OutgoingConcat([Edge(src, id)], EdgeList(next, id, dst), n);
      IncomingConcat([Edge(src, id)], EdgeList(next, id, dst), n);
    case Gateway(_, s, j, branches, next) =>
      ListDegrees(branches, s, j, n);
      ListDegrees(next, j, dst, n);
      var first, inner, rest := [Edge(src, s)], EdgeList(branches, s, j), EdgeList(next, j, dst);
      OutgoingConcat(first, inner, n);
      OutgoingConcat(first + inner, rest, n);
      IncomingConcat(first, inner, n);
      IncomingConcat(first + inner, rest, n);
    case NoBranch =>
    case Branch(body, more) =>
      ListDegrees(body, src, dst, n);
      ListDegrees(more, src, dst, n);
      OutgoingConcat(EdgeList(body, src, dst), EdgeList(more, src, dst), n);
      IncomingConcat(EdgeList(body, src, dst), EdgeList(more, src, dst), n);
  }

  /** The degrees of a node outside the term. */
  lemma {:induction false} DegreesAway(b: Block, src: Id, dst: Id, n: Id)
    requires (IsChain(b) || IsBundle(b)) && n !in Ids(b)
    ensures OutDegree(b, src, dst, n) == if n != src then 0 else if IsChain(b) then 1 else Width(b)
    ensures InDegree(b, src, dst, n) == if n != dst then 0 else if IsChain(b) then 1 else Width(b)
  {
    match b
    case Done =>
    case Task(id, _, next) => DegreesAway(next, id, dst, n);
    case Gateway(_, s, j, branches, next) => DegreesAway(branches, s, j, n); DegreesAway(next, j, dst, n);
    case NoBranch =>
    case Branch(body, more) => DegreesAway(body, src, dst, n); DegreesAway(more, src, dst, n);
  }

  lemma {:induction false} DegreesInside(nodes: map<Id, NodeType>, b: Block, src: Id, dst: Id, n: Id)
    requires (IsChain(b) || IsBundle(b)) && Distinct(b) && Typed(nodes, b) && n in Ids(b)
    requires src !in Ids(b) && dst !in Ids(b)
    ensures n in nodes && DegreesOk(nodes[n], InDegree(b, src, dst, n), OutDegree(b, src, dst, n))
  {
    match b
    case Task(id, _, next) =>
      if n == id { DegreesAway(next, id, dst, n); } else { DegreesInside(nodes, next, id, dst, n); }
    case Gateway(_, s, j, branches, next) =>
      if n in Ids(branches) {
        DegreesInside(nodes, branches, s, j, n);
        DegreesAway(next, j, dst, n);
      } else {
        DegreesAway(branches, s, j, n);
        if n in Ids(next) { DegreesInside(nodes, next, j, dst, n); } else { DegreesAway(next, j, dst, n); }
      }
    case Branch(body, more) =>
      if n in Ids(body) {
        DegreesInside(nodes, body, src, dst, n);
        DegreesAway(more, src, dst, n);
      } else {
        DegreesAway(body, src, dst, n);
        DegreesInside(nodes, more, src, dst, n);
      }
    case _ =>
  }

  lemma FlatteningDegrees(g: Schema, p: Process, n: Id)
    requires Flattens(g, p)
    ensures |Outgoing(g.edges, n)| == OutDegree(p.body, p.start, p.end, n)
    ensures |Incoming(g.edges, n)| == InDegree(p.body, p.start, p.end, n)
  {
    EdgeListBag(p.body, p.start, p.end);
    SameDegrees(g.edges, EdgeList(p.body, p.start, p.end), n);
    ListDegrees(p.body, p.start, p.end, n);
  }

  lemma FlatteningK2(g: Schema, p: Process)
    requires Flattens(g, p)
    ensures K2(g)
  {
    TypedEnds(g, p);
    assert OfType(g, START) == {p.start} && OfType(g, END) == {p.end};
    forall n | n in g.nodes ensures DegreesOk(g.nodes[n], |Incoming(g.edges, n)|, |Outgoing(g.edges, n)|) {
      FlatteningDegrees(g, p, n);
      if n in Ids(p.body) {
        DegreesInside(g.nodes, p.body, p.start, p.end, n);
      } else {
        DegreesAway(p.body, p.start, p.end, n);
      }
    }
  }

  // --- gateway counts ----------------------------------------------------------------

  function Splits(b: Block, logic: Logic): set<Id> {
    match b
    case Task(_, _, next) => Splits(next, logic)
    case Gateway(l, s, _, branches, next) => (if l == logic then {s} else {}) + Splits(branches, logic) + Splits(next, logic)
    case Branch(body, more) => Splits(body, logic) + Splits(more, logic)
    case _ => {}
  }

  function Joins(b: Block, logic: Logic): set<Id> {
    match b
    case Task(_, _, next) => Joins(next, logic)
    case Gateway(l, _, j, branches, next) => (if l == logic then {j} else {}) + Joins(branches, logic) + Joins(next, logic)
    case Branch(body, more) => Joins(body, logic) + Joins(more, logic)
    case _ => {}
  }

  lemma {:induction false} GatewaysInside(b: Block, logic: Logic)
    ensures Splits(b, logic) <= Ids(b) && Joins(b, logic) <= Ids(b)
  {
    match b
    case Task(_, _, next) => GatewaysInside(next, logic);
    case Gateway(_, _, _, branches, next) => GatewaysInside(branches, logic); GatewaysInside(next, logic);
    case Branch(body, more) => GatewaysInside(body, logic); GatewaysInside(more, logic);
    case _ =>
  }

  lemma UnionCard(a: set<Id>, b: set<Id>)
    requires a !! b
    ensures |a + b| == |a| + |b|
  {}

  lemma OwnGateway(own: bool, n: Id, a: set<Id>, b: set<Id>)
    requires n !in a && n !in b
    ensures |(if own then {n} else {}) + a + b| == (if own then 1 else 0) + |a + b|
  {
    assert (if own then {n} else {}) + a + b == (if own then {n} else {}) + (a + b);
  }

  lemma GatewayPairs(b: Block, logic: Logic)
    requires b.Gateway? && Distinct(b) && |Splits(b.branches, logic)| == |Joins(b.branches, logic)|
    requires |Splits(b.next, logic)| == |Joins(b.next, logic)|
    ensures |Splits(b, logic)| == |Joins(b, logic)|
  {
    PairsAdd(b.branches, b.next, logic);
    GatewaysInside(b.branches, logic);
    GatewaysInside(b.next, logic);
    OwnGateway(b.logic == logic, b.split, Splits(b.branches, logic), Splits(b.next, logic));
    OwnGateway(b.logic == logic, b.join, Joins(b.branches, logic), Joins(b.next, logic));
  }

  lemma {:induction false} GatewaysPair(b: Block, logic: Logic)
    requires Distinct(b)
    ensures |Splits(b, logic)| == |Joins(b, logic)|
  {
    match b
    case Task(_, _, next) => GatewaysPair(next, logic);
    case Gateway(_, _, _, branches, next) =>
      GatewaysPair(branches, logic);
      GatewaysPair(next, logic);
      GatewayPairs(b, logic);
    case Branch(body, more) =>
      GatewaysPair(body, logic);
      GatewaysPair(more, logic);
      PairsAdd(body, more, logic);
    case _ =>
  }

  lemma PairsAdd(a: Block, b: Block, logic: Logic)
    requires Ids(a) !! Ids(b)
    ensures |Splits(a, logic) + Splits(b, logic)| == |Splits(a, logic)| + |Splits(b, logic)|
    ensures |Joins(a, logic) + Joins(b, logic)| == |Joins(a, logic)| + |Joins(b, logic)|
  {
    GatewaysInside(a, logic);
    GatewaysInside(b, logic);
    UnionCard(Splits(a, logic), Splits(b, logic));
    UnionCard(Joins(a, logic), Joins(b, logic));
  }

  lemma {:induction false} GatewayTypes(nodes: map<Id, NodeType>, b: Block, logic: Logic, n: Id)
    requires (IsChain(b) || IsBundle(b)) && Distinct(b) && Typed(nodes, b) && n in Ids(b)
    ensures n in nodes
    ensures n in Splits(b, logic) <==> nodes[n] == logic.SplitType()
    ensures n in Joins(b, logic) <==> nodes[n] == logic.JoinType()
  {
    match b
    case Task(id, _, next) =>
      GatewaysInside(next, logic);
      if n != id { GatewayTypes(nodes, next, logic, n); }
    case Gateway(_, s, j, branches, next) =>
      GatewaysInside(branches, logic);
      GatewaysInside(next, logic);
      if n in Ids(branches) { GatewayTypes(nodes, branches, logic, n); }
      if n in Ids(next) { GatewayTypes(nodes, next, logic, n); }
    case Branch(body, more) =>
      GatewaysInside(body, logic);
      GatewaysInside(more, logic);
      if n in Ids(body) { GatewayTypes(nodes, body, logic, n); } else { GatewayTypes(nodes, more, logic, n); }
    case _ =>
  }

  lemma FlatteningGateways(g: Schema, p: Process, logic: Logic)
    requires Flattens(g, p)
    ensures |OfType(g, logic.SplitType())| == |OfType(g, logic.JoinType())|
  {
    GatewaysInside(p.body, logic);
    forall n | n in Ids(p.body)
      ensures n in Splits(p.body, logic) <==> g.nodes[n] == logic.SplitType()
      ensures n in Joins(p.body, logic) <==> g.nodes[n] == logic.JoinType()
    { GatewayTypes(g.nodes, p.body, logic, n); }
    assert OfType(g, logic.SplitType()) == Splits(p.body, logic);
    assert OfType(g, logic.JoinType()) == Joins(p.body, logic);
    GatewaysPair(p.body, logic);
  }

  lemma FlatteningK1(g: Schema, p: Process)
    requires Flattens(g, p)
    ensures K1(g)
  {
    FlatteningGateways(g, p, AND);
    FlatteningGateways(g, p, XOR);
  }

  // --- reachability ----------------------------------------------------------------------

  lemma {:induction false} Crosses(b: Block, src: Id, dst: Id, edges: seq<Edge>)
    requires (IsChain(b) || (IsBundle(b) && b.Branch?)) && EdgeBag(b, src, dst) <= multiset(edges)
    ensures Reaches(edges, src, dst)
  {
    match b
    case Done =>
      assert Edge(src, dst) in multiset(edges);
      ReachesSelf(edges, src);
      ReachesStep(edges, src, Edge(src, dst));
    case Task(id, _, next) =>
      assert Edge(src, id) in multiset(edges);
      Crosses(next, id, dst, edges);
      ReachesFirst(edges, Edge(src, id), dst);
    case Gateway(_, s, j, branches, next) =>
      assert Edge(src, s) in multiset(edges);
      Crosses(branches, s, j, edges);
      Crosses(next, j, dst, edges);
      ReachesTransitive(edges, s, j, dst);
      ReachesFirst(edges, Edge(src, s), dst);
    case Branch(body, more) => Crosses(body, src, dst, edges);
  }

  lemma {:induction false} OnTheWay(b: Block, src: Id, dst: Id, edges: seq<Edge>, n: Id)
    requires (IsChain(b) || IsBundle(b)) && EdgeBag(b, src, dst) <= multiset(edges) && n in Ids(b)
    ensures Reaches(edges, src, n) && Reaches(edges, n, dst)
  {
    match b
    case Task(id, _, next) =>
      assert Edge(src, id) in multiset(edges);
      if n == id {
        ReachesSelf(edges, src);
        ReachesStep(edges, src, Edge(src, id));
        Crosses(next, id, dst, edges);
      } else {
        OnTheWay(next, id, dst, edges, n);
        ReachesFirst(edges, Edge(src, id), n);
      }
    case Gateway(_, s, j, branches, next) =>
      assert Edge(src, s) in multiset(edges);
      ReachesSelf(edges, s);
      Crosses(branches, s, j, edges);
      Crosses(next, j, dst, edges);
      if n in Ids(branches) { OnTheWay(branches, s, j, edges, n); }
      if n in Ids(next) {
        OnTheWay(next, j, dst, edges, n);
        ReachesTransitive(edges, s, j, n);
      } else {
        if n == s { ReachesTransitive(edges, s, j, dst); } else if n in Ids(branches) { ReachesTransitive(edges, n, j, dst); }
      }
      ReachesFirst(edges, Edge(src, s), n);
    case Branch(body, more) =>
      if n in Ids(body) { OnTheWay(body, src, dst, edges, n); } else { OnTheWay(more, src, dst, edges, n); }
    case _ =>
  }

  lemma FlatteningK3(g: Schema, p: Process)
    requires Flattens(g, p)
    ensures K3(g)
  {
    TypedEnds(g, p);
    ReachesSelf(g.edges, p.start);
    ReachesSelf(g.edges, p.end);
    Crosses(p.body, p.start, p.end, g.edges);
    forall n | n in Ids(p.body) ensures Reaches(g.edges, p.start, n) && Reaches(g.edges, n, p.end) {
      OnTheWay(p.body, p.start, p.end, g.edges, n);
    }
  }

  /** The rules K1, K2 and K3 never refuse a block-structured schema, and the data-flow analysis never fails on it. */
  lemma FlatteningIsStructural(g: Schema, p: Process)
    requires Flattens(g, p)
    ensures K1(g) && K2(g) && K3(g) && Resolves(g)
  {
    FlatteningK1(g, p);
    FlatteningK2(g, p);
    FlatteningK3(g, p);
    EndsConnected(g, p);
    JoinedResolves(g);
  }

  // --- what the rules do not exclude --------------------------------------------------

  /** The same graph with one XOR join and one AND join exchanged. */
  function SwapJoins(g: Schema, j: Id, k: Id): Schema {
    g.(nodes := g.nodes[j := AND_JOIN][k := XOR_JOIN])
  }

  lemma SwapTypes(g: Schema, j: Id, k: Id)
    requires j in g.nodes && g.nodes[j].XOR_JOIN? && k in g.nodes && g.nodes[k].AND_JOIN?
    ensures forall t: NodeType :: !t.IsJoin() ==> OfType(SwapJoins(g, j, k), t) == OfType(g, t)
    ensures OfType(SwapJoins(g, j, k), AND_JOIN) == OfType(g, AND_JOIN) - {k} + {j}
    ensures OfType(SwapJoins(g, j, k), XOR_JOIN) == OfType(g, XOR_JOIN) - {j} + {k}
  {}

  lemma SwapK1(g: Schema, j: Id, k: Id)
    requires j in g.nodes && g.nodes[j].XOR_JOIN? && k in g.nodes && g.nodes[k].AND_JOIN? && K1(g)
    ensures K1(SwapJoins(g, j, k))
  {
    SwapTypes(g, j, k);
    assert k in OfType(g, AND_JOIN) && j in OfType(g, XOR_JOIN);
    assert |OfType(g, AND_JOIN) - {k}| == |OfType(g, AND_JOIN)| - 1;
    assert |OfType(g, XOR_JOIN) - {j}| == |OfType(g, XOR_JOIN)| - 1;
  }

  lemma SwapK2(g: Schema, j: Id, k: Id)
    requires j in g.nodes && g.nodes[j].XOR_JOIN? && k in g.nodes && g.nodes[k].AND_JOIN? && K2(g)
    ensures K2(SwapJoins(g, j, k))
  {
    SwapTypes(g, j, k);
  }

  lemma SwapK3(g: Schema, j: Id, k: Id)
    requires j in g.nodes && g.nodes[j].XOR_JOIN? && k in g.nodes && g.nodes[k].AND_JOIN? && K3(g)
    ensures K3(SwapJoins(g, j, k))
  {
    var h := SwapJoins(g, j, k);
    forall n | n in h.nodes ensures OnSomeWay(h, n) { assert OnSomeWay(g, n); }
  }

  lemma SwapK7(g: Schema, j: Id, k: Id)
    requires j in g.nodes && g.nodes[j].XOR_JOIN? && k in g.nodes && g.nodes[k].AND_JOIN? && K7(g)
    ensures K7(SwapJoins(g, j, k))
  {
    SwapTypes(g, j, k);
  }

  /** Exchanging the joins of an XOR block and an AND block goes unnoticed by K1, K2, K3 and K7. */
  lemma MismatchedJoinsPass(g: Schema, p: Process, j: Id, k: Id)
    requires Flattens(g, p) && K7(g)
    requires j in g.nodes && g.nodes[j].XOR_JOIN? && k in g.nodes && g.nodes[k].AND_JOIN?
    ensures Structural(SwapJoins(g, j, k))
  {
    FlatteningIsStructural(g, p);
    EndsConnected(g, p);
    JoinedResolves(SwapJoins(g, j, k));
    SwapK1(g, j, k);
    SwapK2(g, j, k);
    SwapK3(g, j, k);
    SwapK7(g, j, k);
  }

  /**
   But no instance of the exchanged graph can ever complete: an AND join behind an XOR split
   always sees a FALSE. The rules do not guarantee block structure, and without it no soundness.
   `b` is the part of the main chain that starts with the XOR block; the AND join lies before it.
   */
  lemma MismatchedJoinsNeverComplete(g: Schema, p: Process, b: Block, src: Id, k: Id, x: Instance, u: Port, v: Port)
    requires Flattens(g, p) && IsChain(b) && b.Gateway? && b.logic.XOR?
    requires Embedded(g.nodes, multiset(g.edges), b, src, p.end)
    requires k in g.nodes && g.nodes[k].AND_JOIN? && k !in Ids(b)
    requires u in Ports(b.branches, b.split, b.join) && v in Ports(b.branches, b.split, b.join) && u.exit != v.exit
    requires Inv(SwapJoins(g, b.join, k), x)
    ensures !x.done
  {
    var h := SwapJoins(g, b.join, k);
    if x.done {
      TypedEnds(g, p);
      var e := EndSawTrue(h, x, p.end);
      LastEdge(g, p, b, src, e);
      SwapEmbedded(g, b, src, p.end, k);
      var q := ChainPort(b.next, b.join, p.end);
      Through(h, x, b.next, b.join, p.end, q);
      JoinSawBoth(h, x, b, u, v);
    }
  }

  lemma EndSawTrue(h: Schema, x: Instance, end: Id) returns (e: Edge)
    requires Inv(h, x) && x.done && end in h.nodes && forall n :: n in h.nodes ==> (h.nodes[n].END? <==> n == end)
    ensures e in h.edges && e.target == end && x.edgeStates[e] == TRUE_SIGNALED
  {
    assert NodeOk(h, x, end);
    e :| e in h.edges && e.target == end && x.edgeStates[e] == TRUE_SIGNALED;
  }

  /** All chains that end at END share its one incoming edge. */
  lemma LastEdge(g: Schema, p: Process, b: Block, src: Id, e: Edge)
    requires Flattens(g, p) && IsChain(b) && b.Gateway? && EdgeBag(b, src, p.end) <= multiset(g.edges)
    requires e in g.edges && e.target == p.end
    ensures e == Edge(Last(b.next, b.join), p.end)
  {
    var q := ChainPort(b, src, p.end);
    assert q.exit in multiset(g.edges) && e in multiset(g.edges);
    ExitEdge(p.body, p.start, p.end, e);
    ExitEdge(p.body, p.start, p.end, q.exit);
  }

  lemma {:induction false} RetypeElsewhere(nodes: map<Id, NodeType>, b: Block, n: Id, t: NodeType)
    requires Typed(nodes, b) && n !in Ids(b)
    ensures Typed(nodes[n := t], b)
  {
    match b
    case Task(_, _, next) => RetypeElsewhere(nodes, next, n, t);
    case Gateway(_, _, _, branches, next) => RetypeElsewhere(nodes, branches, n, t); RetypeElsewhere(nodes, next, n, t);
    case Branch(body, more) => RetypeElsewhere(nodes, body, n, t); RetypeElsewhere(nodes, more, n, t);
    case _ =>
  }

  lemma SwapEmbedded(g: Schema, b: Block, src: Id, dst: Id, k: Id)
    requires b.Gateway? && Embedded(g.nodes, multiset(g.edges), b, src, dst) && k !in Ids(b)
    ensures Embedded(SwapJoins(g, b.join, k).nodes, multiset(g.edges), b.branches, b.split, b.join)
    ensures Embedded(SwapJoins(g, b.join, k).nodes, multiset(g.edges), b.next, b.join, dst)
  {
    EmbeddedGateway(g.nodes, multiset(g.edges), b, src, dst);
    RetypeElsewhere(g.nodes, b.branches, b.join, AND_JOIN);
    RetypeElsewhere(g.nodes[b.join := AND_JOIN], b.branches, k, XOR_JOIN);
    RetypeElsewhere(g.nodes, b.next, b.join, AND_JOIN);
    RetypeElsewhere(g.nodes[b.join := AND_JOIN], b.next, k, XOR_JOIN);
  }

  /** An AND join cannot complete behind two branches of an XOR split. */
  lemma JoinSawBoth(h: Schema, x: Instance, b: Block, u: Port, v: Port)
    requires Inv(h, x) && b.Gateway? && IsBundle(b.branches)
    requires Embedded(h.nodes, multiset(h.edges), b.branches, b.split, b.join)
    requires b.split in h.nodes && h.nodes[b.split].XOR_SPLIT? && b.join in h.nodes && h.nodes[b.join].AND_JOIN?
    requires u in Ports(b.branches, b.split, b.join) && v in Ports(b.branches, b.split, b.join) && u.exit != v.exit
    ensures x.nodeStates[b.join] != COMPLETED
  {
    var s, j := b.split, b.join;
    PortEdges(b.branches, s, j, u);
    PortEdges(b.branches, s, j, v);
    Through(h, x, b.branches, s, j, u);
    Through(h, x, b.branches, s, j, v);
    assert NodeOk(h, x, j);
    if x.nodeStates[j] == COMPLETED {
      assert x.edgeStates[u.entry] == Told(h, x, u.entry) && x.edgeStates[v.entry] == Told(h, x, v.entry);
      assert u.entry == v.entry;
      PortByEntry(b.branches, s, j, u, v);
    }
  }
}

/**
 The corner case of deletion: a gateway dissolves although its other branch is empty. The candidate
 has edges to nodes that are gone. Which rules see that? K1 and K2 never do; K3 and K7 do, unless the
 gateway was the whole content of a branch of an AND gateway. Only the data-flow analysis fails on
 every such candidate.
 */
module Remnant {
  import opened Model
  import opened Blocks
  import opened Edits
  import opened Marking
  import opened Partition
  import opened Validator
  import opened DataFlow
  import opened Structure
  import opened Operations
  import opened Deletion

  /** The edges of the dissolved gateway. */
  function Gone(q: Block, src: Id, h: Id, n: Id): multiset<Edge>
    requires q.Gateway?
  {
    multiset{Edge(src, q.split), Edge(q.split, n), Edge(n, q.join), Edge(q.split, q.join), Edge(q.join, h)}
  }

  /** A gateway at its site, with the step `n` in one branch and nothing in the other. */
  ghost predicate Emptied(g: Schema, q: Block, src: Id, dst: Id, n: Id) {
    SoleAt(g, q, src, dst, n) && Width(q.branches) == 2 && Survivor(q, n).Done?
  }

  lemma EmptiedBag(g: Schema, q: Block, src: Id, dst: Id, n: Id)
    requires Emptied(g, q, src, dst, n)
    ensures EdgeBag(q, src, dst) == Gone(q, src, First(q.next, dst), n) + Inner(q.next, dst)
  {
    TwoLeft(g, q, src, dst, n);
    EntryAndInner(q.next, q.join, dst);
    assert EdgeBag(Done, q.split, q.join) == multiset{Edge(q.split, q.join)};
  }

  /** Exactly these edges touch the nodes that go. */
  lemma EmptiedEdge(g: Schema, q: Block, src: Id, dst: Id, n: Id, e: Edge)
    requires Emptied(g, q, src, dst, n) && Touches(e, {n, q.split, q.join})
    ensures multiset(g.edges)[e] == Gone(q, src, First(q.next, dst), n)[e]
  {
    SoleForm(g, q, src, dst, n);
    EmptiedBag(g, q, src, dst, n);
    assert Touches(e, Ids(q));
    if e in Inner(q.next, dst) { InnerEnds(q.next, dst, e); }
  }

  /** A graph from which three nodes go, entered by `a -> t` and left by `k -> b` only, and the graph that is left. */
  ghost predicate Cut(g: Schema, c: Schema, n: Id, t: Id, k: Id, a: Id, b: Id) {
    && n in g.nodes && t in g.nodes && k in g.nodes && a in g.nodes && b in g.nodes
    && a !in {n, t, k} && b !in {n, t, k} && n != t && n != k && t != k
    && multiset(g.edges)[Edge(a, t)] == 1 && multiset(g.edges)[Edge(k, b)] == 1
    && (forall e :: e in g.edges && e.source !in {n, t, k} && e.target in {n, t, k} ==> e == Edge(a, t))
    && (forall e :: e in g.edges && e.source in {n, t, k} && e.target !in {n, t, k} ==> e == Edge(k, b))
    && c.nodes == g.nodes - {n, t, k} && c.decisions == g.decisions - {n, t, k}
    && c.edges == Detached(g.edges, {n, t, k}) + [Edge(a, k)] + [Edge(t, b)]
  }

  /** `c` is what deleting `n` proposes in the corner case. */
  ghost predicate IsCandidate(g: Schema, p: Process, n: Id, c: Schema) {
    LeavesNothing(p, n) &&
    var q := SoleBlock(p, n);
    var s := SiteOf(p.body, p.start, p.end, q.split);
    IsRemnant(g, q, s.before, s.after, n, c) && c.decisions == g.decisions - {n, q.split, q.join}
  }

  /** The nodes around the dissolved gateway. */
  function NodeBefore(p: Process, n: Id): Id
    requires SoleBlock(p, n).Gateway?
  {
    SiteOf(p.body, p.start, p.end, SoleBlock(p, n).split).before
  }

  function NodeBehind(p: Process, n: Id): Id
    requires SoleBlock(p, n).Gateway?
  {
    var s := SiteOf(p.body, p.start, p.end, SoleBlock(p, n).split);
    First(Rest(s.chain), s.after)
  }

  lemma EmptiedInside(g: Schema, p: Process, n: Id)
    requires Flattens(g, p) && LeavesNothing(p, n)
    ensures var q := SoleBlock(p, n);
            var s := SiteOf(p.body, p.start, p.end, q.split);
            && Emptied(g, q, s.before, s.after, n) && {n, q.split, q.join} <= Ids(p.body)
            && NodeBehind(p, n) == First(q.next, s.after)
  {
    var q := SoleBlock(p, n);
    var s := SiteOf(p.body, p.start, p.end, q.split);
    SoleIsAt(g, p, n, q);
    SoleForm(g, q, s.before, s.after, n);
  }

  lemma EmptiedCuts(g: Schema, c: Schema, q: Block, src: Id, dst: Id, n: Id)
    requires Emptied(g, q, src, dst, n) && IsRemnant(g, q, src, dst, n, c) && c.decisions == g.decisions - {n, q.split, q.join}
    requires {n, q.split, q.join} <= g.nodes.Keys && src in g.nodes && First(q.next, dst) in g.nodes
    ensures Cut(g, c, n, q.split, q.join, src, First(q.next, dst))
  {
    AroundRemnant(g, q, src, dst, n);
    SoleAway(g, q, src, dst, n);
    DetachedTwice(g.edges, {n}, {q.split, q.join});
    assert {n} + {q.split, q.join} == {n, q.split, q.join};
    forall e: Edge | Touches(e, {n, q.split, q.join}) ensures multiset(g.edges)[e] == Gone(q, src, First(q.next, dst), n)[e] {
      EmptiedEdge(g, q, src, dst, n, e);
    }
    GoneMeans(g, q, src, First(q.next, dst), n);
  }

  lemma CandidateCuts(g: Schema, p: Process, n: Id, c: Schema)
    requires Flattens(g, p) && IsCandidate(g, p, n, c)
    ensures Cut(g, c, n, SoleBlock(p, n).split, SoleBlock(p, n).join, NodeBefore(p, n), NodeBehind(p, n))
  {
    var q := SoleBlock(p, n);
    var s := SiteOf(p.body, p.start, p.end, q.split);
    EmptiedInside(g, p, n);
    AroundRemnant(g, q, s.before, s.after, n);
    EndsConnected(g, p);
    EmptiedCuts(g, c, q, s.before, s.after, n);
  }

  lemma GoneMeans(g: Schema, q: Block, a: Id, b: Id, n: Id)
    requires q.Gateway? && n != q.split && n != q.join && q.split != q.join && a !in {n, q.split, q.join} && b !in {n, q.split, q.join}
    requires forall e: Edge :: Touches(e, {n, q.split, q.join}) ==> multiset(g.edges)[e] == Gone(q, a, b, n)[e]
    ensures multiset(g.edges)[Edge(a, q.split)] == 1 && multiset(g.edges)[Edge(q.join, b)] == 1
    ensures forall e :: e in g.edges && e.source !in {n, q.split, q.join} && e.target in {n, q.split, q.join} ==> e == Edge(a, q.split)
    ensures forall e :: e in g.edges && e.source in {n, q.split, q.join} && e.target !in {n, q.split, q.join} ==> e == Edge(q.join, b)
  {
    assert Touches(Edge(a, q.split), {n, q.split, q.join}) && Touches(Edge(q.join, b), {n, q.split, q.join});
    forall e | e in g.edges && Touches(e, {n, q.split, q.join}) ensures e in Gone(q, a, b, n) { assert e in multiset(g.edges); }
  }

  // --- what the rules read off a cut graph -----------------------------------------------------

  lemma CutEdge(g: Schema, c: Schema, n: Id, t: Id, k: Id, a: Id, b: Id, e: Edge)
    requires Cut(g, c, n, t, k, a, b)
    ensures e in c.edges <==> (e in g.edges && !Touches(e, {n, t, k})) || e == Edge(a, k) || e == Edge(t, b)
  {
    DetachedIn(g.edges, {n, t, k}, e);
  }

  /** Edges that are kept keep their places. */
  lemma {:induction false} SameOut(es: seq<Edge>, gone: set<Id>, m: Id)
    requires forall e :: e in es && e.source == m ==> !Touches(e, gone)
    ensures Outgoing(Detached(es, gone), m) == Outgoing(es, m)
  {
    if es != [] {
      SameOut(es[1..], gone, m);
      OutgoingConcat(if Touches(es[0], gone) then [] else [es[0]], Detached(es[1..], gone), m);
    }
  }

  lemma {:induction false} SameIn(es: seq<Edge>, gone: set<Id>, m: Id)
    requires forall e :: e in es && e.target == m ==> !Touches(e, gone)
    ensures Incoming(Detached(es, gone), m) == Incoming(es, m)
  {
    if es != [] {
      SameIn(es[1..], gone, m);
      IncomingConcat(if Touches(es[0], gone) then [] else [es[0]], Detached(es[1..], gone), m);
    }
  }

  /** An edge that occurs once, counted before and after. */
  lemma OneCount(es: seq<Edge>, gone: set<Id>, lost: Edge, e: Edge)
    requires multiset(es)[lost] == 1 && (e in es ==> (Touches(e, gone) <==> e == lost))
    ensures multiset(es)[e] == multiset(Detached(es, gone))[e] + if e == lost then 1 else 0
  {
    DetachedCount(es, gone, e);
    assert e in multiset(es) <==> e in es;
    assert lost in multiset(es) && lost in es;
  }

  lemma OneMore(x: multiset<Edge>, y: multiset<Edge>, lost: Edge)
    requires forall e :: x[e] == y[e] + if e == lost then 1 else 0
    ensures |x| == |y| + 1
  {
    assert x == y + multiset{lost};
  }

  lemma OutLoses(es: seq<Edge>, gone: set<Id>, m: Id, lost: Edge)
    requires lost.source == m && multiset(es)[lost] == 1 && forall e :: e in es && e.source == m ==> (Touches(e, gone) <==> e == lost)
    ensures |Outgoing(Detached(es, gone), m)| + 1 == |Outgoing(es, m)|
  {
    var x, y := multiset(Outgoing(es, m)), multiset(Outgoing(Detached(es, gone), m));
    forall e ensures x[e] == y[e] + if e == lost then 1 else 0 {
      OutgoingCount(es, m, e);
      OutgoingCount(Detached(es, gone), m, e);
      if e.source == m { OneCount(es, gone, lost, e); }
    }
    OneMore(x, y, lost);
  }

  lemma InLoses(es: seq<Edge>, gone: set<Id>, m: Id, lost: Edge)
    requires lost.target == m && multiset(es)[lost] == 1 && forall e :: e in es && e.target == m ==> (Touches(e, gone) <==> e == lost)
    ensures |Incoming(Detached(es, gone), m)| + 1 == |Incoming(es, m)|
  {
    var x, y := multiset(Incoming(es, m)), multiset(Incoming(Detached(es, gone), m));
    forall e ensures x[e] == y[e] + if e == lost then 1 else 0 {
      IncomingCount(es, m, e);
      IncomingCount(Detached(es, gone), m, e);
      if e.target == m { OneCount(es, gone, lost, e); }
    }
    OneMore(x, y, lost);
  }

  lemma LastEdge(es: seq<Edge>, e: Edge, m: Id)
    ensures Outgoing(es + [e], m) == if e.source == m then Outgoing(es, m) + [e] else Outgoing(es, m)
    ensures Incoming(es + [e], m) == if e.target == m then Incoming(es, m) + [e] else Incoming(es, m)
  {
    OutgoingConcat(es, [e], m);
    IncomingConcat(es, [e], m);
    assert [e][1..] == [];
  }

  lemma LastTwo(kept: seq<Edge>, e: Edge, f: Edge, m: Id)
    ensures f.source != m ==> Outgoing(kept + [e] + [f], m) == if e.source == m then Outgoing(kept, m) + [e] else Outgoing(kept, m)
    ensures e.target != m ==> Incoming(kept + [e] + [f], m) == if f.target == m then Incoming(kept, m) + [f] else Incoming(kept, m)
  {
    LastEdge(kept, e, m);
    LastEdge(kept + [e], f, m);
  }

  lemma CutAt(g: Schema, c: Schema, n: Id, t: Id, k: Id, a: Id, b: Id, m: Id)
    requires Cut(g, c, n, t, k, a, b) && m in c.nodes
    ensures m !in {n, t, k} && multiset(g.edges)[Edge(a, t)] == 1 && multiset(g.edges)[Edge(k, b)] == 1
    ensures forall e :: e in g.edges && e.source == m ==> (Touches(e, {n, t, k}) <==> e == Edge(a, t))
    ensures forall e :: e in g.edges && e.target == m ==> (Touches(e, {n, t, k}) <==> e == Edge(k, b))
  {}

  /** Every node that is left has as many edges out of it as before, and but for `a` the same ones. */
  lemma CutOut(g: Schema, c: Schema, n: Id, t: Id, k: Id, a: Id, b: Id, m: Id)
    requires Cut(g, c, n, t, k, a, b) && m in c.nodes
    ensures |Outgoing(c.edges, m)| == |Outgoing(g.edges, m)| && (m != a ==> Outgoing(c.edges, m) == Outgoing(g.edges, m))
  {
    var gone := {n, t, k};
    CutAt(g, c, n, t, k, a, b, m);
    LastTwo(Detached(g.edges, gone), Edge(a, k), Edge(t, b), m);
    if m == a { OutLoses(g.edges, gone, m, Edge(a, t)); } else { SameOut(g.edges, gone, m); }
  }

  /** Every node that is left has as many edges into it as before. */
  lemma CutIn(g: Schema, c: Schema, n: Id, t: Id, k: Id, a: Id, b: Id, m: Id)
    requires Cut(g, c, n, t, k, a, b) && m in c.nodes
    ensures |Incoming(c.edges, m)| == |Incoming(g.edges, m)|
  {
    var gone := {n, t, k};
    CutAt(g, c, n, t, k, a, b, m);
    LastTwo(Detached(g.edges, gone), Edge(a, k), Edge(t, b), m);
    if m == b { InLoses(g.edges, gone, m, Edge(k, b)); } else { SameIn(g.edges, gone, m); }
  }

  // --- K1 and K2 never object ------------------------------------------------------------------

  /** The nodes that go: a step, a split and the join of its kind. */
  ghost predicate CutTypes(g: Schema, n: Id, t: Id, k: Id, logic: Logic) {
    && n in g.nodes && t in g.nodes && k in g.nodes
    && g.nodes[n].IsStep() && g.nodes[t] == logic.SplitType() && g.nodes[k] == logic.JoinType()
  }

  lemma CutCount(g: Schema, c: Schema, n: Id, t: Id, k: Id, logic: Logic, ty: NodeType)
    requires CutTypes(g, n, t, k, logic) && c.nodes == g.nodes - {n, t, k} && !ty.IsStep()
    ensures |OfType(g, ty)| == |OfType(c, ty)| + if ty == logic.SplitType() || ty == logic.JoinType() then 1 else 0
  {
    assert OfType(c, ty) == OfType(g, ty) - {n, t, k};
    if ty == logic.SplitType() {
      LessOne(OfType(g, ty), OfType(c, ty), {n, t, k}, t);
    } else if ty == logic.JoinType() {
      LessOne(OfType(g, ty), OfType(c, ty), {n, t, k}, k);
    } else {
      assert OfType(c, ty) == OfType(g, ty);
    }
  }

  /** Of the nodes that go only `x` is in the set. */
  lemma LessOne(s: set<Id>, s': set<Id>, gone: set<Id>, x: Id)
    requires s' == s - gone && x in s && x in gone && forall y :: y in s && y in gone ==> y == x
    ensures |s| == |s'| + 1
  {
    assert s == s' + {x};
  }

  lemma CutK1(g: Schema, c: Schema, n: Id, t: Id, k: Id, logic: Logic)
    requires CutTypes(g, n, t, k, logic) && c.nodes == g.nodes - {n, t, k} && K1(g)
    ensures K1(c)
  {
    CutCount(g, c, n, t, k, logic, AND_SPLIT);
    CutCount(g, c, n, t, k, logic, AND_JOIN);
    CutCount(g, c, n, t, k, logic, XOR_SPLIT);
    CutCount(g, c, n, t, k, logic, XOR_JOIN);
  }

  lemma CutK2(g: Schema, c: Schema, n: Id, t: Id, k: Id, a: Id, b: Id, logic: Logic)
    requires Cut(g, c, n, t, k, a, b) && CutTypes(g, n, t, k, logic) && K2(g)
    ensures K2(c)
  {
    CutCount(g, c, n, t, k, logic, START);
    CutCount(g, c, n, t, k, logic, END);
    forall m | m in c.nodes ensures DegreesOk(c.nodes[m], |Incoming(c.edges, m)|, |Outgoing(c.edges, m)|) {
      CutDegrees(g, c, n, t, k, a, b, m);
    }
  }

  lemma CutDegrees(g: Schema, c: Schema, n: Id, t: Id, k: Id, a: Id, b: Id, m: Id)
    requires Cut(g, c, n, t, k, a, b) && K2(g) && m in c.nodes
    ensures DegreesOk(c.nodes[m], |Incoming(c.edges, m)|, |Outgoing(c.edges, m)|)
  {
    CutOut(g, c, n, t, k, a, b, m);
    CutIn(g, c, n, t, k, a, b, m);
    assert DegreesOk(g.nodes[m], |Incoming(g.edges, m)|, |Outgoing(g.edges, m)|);
  }

  // --- K7 -----------------------------------------------------------------------------------------

  lemma {:induction false} TargetsIn(es: seq<Edge>, x: Id)
    ensures x in multiset(Targets(es)) <==> exists e :: e in es && e.target == x
  {
    if es != [] {
      TargetsIn(es[1..], x);
      assert Targets(es) == [es[0].target] + Targets(es[1..]);
      assert forall e :: e in es <==> e == es[0] || e in es[1..];
    }
  }

  lemma GoneIsNamed(g: Schema, a: Id, t: Id)
    requires K7(g) && a in g.nodes && g.nodes[a].XOR_SPLIT? && Edge(a, t) in g.edges
    ensures a in g.decisions && t in multiset(BranchTargets(g.decisions[a].branches))
  {
    assert a in OfType(g, XOR_SPLIT);
    assert Edge(a, t) in Outgoing(g.edges, a);
    TargetsIn(Outgoing(g.edges, a), t);
  }

  lemma GoneIsNoTarget(g: Schema, c: Schema, n: Id, t: Id, k: Id, a: Id, b: Id)
    requires Cut(g, c, n, t, k, a, b)
    ensures t !in multiset(Targets(Outgoing(c.edges, a)))
  {
    TargetsIn(Outgoing(c.edges, a), t);
    forall e | e in Outgoing(c.edges, a) ensures e.target != t { CutEdge(g, c, n, t, k, a, b, e); }
  }

  lemma DecisionStays(g: Schema, c: Schema, n: Id, t: Id, k: Id, a: Id, b: Id)
    requires Cut(g, c, n, t, k, a, b) && a in g.decisions
    ensures a in c.decisions && c.decisions[a] == g.decisions[a]
  {}

  /** Behind an XOR split its decision still names the gone split. */
  lemma XorBeforeBreaksK7(g: Schema, c: Schema, n: Id, t: Id, k: Id, a: Id, b: Id)
    requires Cut(g, c, n, t, k, a, b) && K7(g) && g.nodes[a].XOR_SPLIT?
    ensures !K7(c)
  {
    assert Edge(a, t) in multiset(g.edges);
    GoneIsNamed(g, a, t);
    GoneIsNoTarget(g, c, n, t, k, a, b);
    DecisionStays(g, c, n, t, k, a, b);
  }

  lemma OtherwiseK7(g: Schema, c: Schema, n: Id, t: Id, k: Id, a: Id, b: Id)
    requires Cut(g, c, n, t, k, a, b) && K7(g) && !g.nodes[a].XOR_SPLIT?
    ensures K7(c)
  {
    assert OfType(c, XOR_SPLIT) == OfType(g, XOR_SPLIT) - {n, t, k};
    forall m | m in c.decisions
      ensures multiset(BranchTargets(c.decisions[m].branches)) == multiset(Targets(Outgoing(c.edges, m)))
      ensures |c.decisions[m].branches| >= 2 && Tiles(c.decisions[m])
    {
      assert m in OfType(g, XOR_SPLIT);
      CutOut(g, c, n, t, k, a, b, m);
    }
  }

  // --- K3 -----------------------------------------------------------------------------------------

  /** Of at least two edges one is not the given one, which occurs once. */
  lemma OtherIn(es: seq<Edge>, lost: Edge) returns (e: Edge)
    requires |Incoming(es, lost.target)| >= 2 && multiset(es)[lost] == 1
    ensures e in es && e.target == lost.target && e != lost
  {
    var xs := Incoming(es, lost.target);
    IncomingCount(es, lost.target, lost);
    assert xs == [xs[0], xs[1]] + xs[2..];
    assert xs[0] in xs && xs[1] in xs;
    e := if xs[0] != lost then xs[0] else xs[1];
  }

  lemma OtherOut(es: seq<Edge>, lost: Edge) returns (e: Edge)
    requires |Outgoing(es, lost.source)| >= 2 && multiset(es)[lost] == 1
    ensures e in es && e.source == lost.source && e != lost
  {
    var xs := Outgoing(es, lost.source);
    OutgoingCount(es, lost.source, lost);
    assert xs == [xs[0], xs[1]] + xs[2..];
    assert xs[0] in xs && xs[1] in xs;
    e := if xs[0] != lost then xs[0] else xs[1];
  }

  /** The edges at a node that is left are kept, but for the two that lead into and out of the gateway. */
  lemma KeptAt(g: Schema, c: Schema, n: Id, t: Id, k: Id, a: Id, b: Id, m: Id, e: Edge)
    requires Cut(g, c, n, t, k, a, b) && m in c.nodes && e in g.edges && e.source in g.nodes && e.target in g.nodes
    ensures e.target == m && e != Edge(k, b) ==> e in c.edges && e.source in c.nodes
    ensures e.source == m && e != Edge(a, t) ==> e in c.edges && e.target in c.nodes
  {
    CutAt(g, c, n, t, k, a, b, m);
    CutEdge(g, c, n, t, k, a, b, e);
  }

  lemma TwoWaysIn(g: Schema, b: Id)
    requires K2(g) && b in g.nodes && g.nodes[b].IsJoin()
    ensures |Incoming(g.edges, b)| >= 2
  {
    assert DegreesOk(g.nodes[b], |Incoming(g.edges, b)|, |Outgoing(g.edges, b)|);
  }

  lemma TwoWaysOut(g: Schema, a: Id)
    requires K2(g) && a in g.nodes && g.nodes[a].IsSplit()
    ensures |Outgoing(g.edges, a)| >= 2
  {
    assert DegreesOk(g.nodes[a], |Incoming(g.edges, a)|, |Outgoing(g.edges, a)|);
  }

  /** If a join follows, every node that is left is still entered from one that is left. */
  lemma EntryLeft(g: Schema, c: Schema, n: Id, t: Id, k: Id, a: Id, b: Id, m: Id) returns (e: Edge)
    requires Cut(g, c, n, t, k, a, b) && K2(g) && Connected(g) && g.nodes[b].IsJoin() && m in c.nodes && !g.nodes[m].START?
    ensures e in g.edges && e in c.edges && e.target == m && e.source in c.nodes
  {
    if m == b {
      TwoWaysIn(g, b);
      e := OtherIn(g.edges, Edge(k, b));
    } else {
      assert Entered(g, m);
      e :| e in g.edges && e.target == m;
    }
    KeptAt(g, c, n, t, k, a, b, m, e);
  }

  lemma ExitLeft(g: Schema, c: Schema, n: Id, t: Id, k: Id, a: Id, b: Id, m: Id) returns (e: Edge)
    requires Cut(g, c, n, t, k, a, b) && K2(g) && Connected(g) && g.nodes[a].IsSplit() && m in c.nodes && !g.nodes[m].END?
    ensures e in g.edges && e in c.edges && e.source == m && e.target in c.nodes
  {
    if m == a {
      TwoWaysOut(g, a);
      e := OtherOut(g.edges, Edge(a, t));
    } else {
      assert Left(g, m);
      e :| e in g.edges && e.source == m;
    }
    KeptAt(g, c, n, t, k, a, b, m, e);
  }

  lemma {:induction false} ReachedStill(g: Schema, c: Schema, n: Id, t: Id, k: Id, a: Id, b: Id, rank: map<Id, nat>, start: Id, m: Id)
    requires Cut(g, c, n, t, k, a, b) && K2(g) && Connected(g) && g.nodes[b].IsJoin() && Ranked(g, rank)
    requires m in c.nodes && forall s :: s in g.nodes && g.nodes[s].START? ==> s == start
    ensures Reaches(c.edges, start, m)
    decreases rank[m]
  {
    if g.nodes[m].START? {
      ReachesSelf(c.edges, start);
    } else {
      var e := EntryLeft(g, c, n, t, k, a, b, m);
      ReachedStill(g, c, n, t, k, a, b, rank, start, e.source);
      ReachesStep(c.edges, start, e);
    }
  }

  lemma {:induction false} LeavesStill(g: Schema, c: Schema, n: Id, t: Id, k: Id, a: Id, b: Id, rank: map<Id, nat>, bound: nat, end: Id, m: Id)
    requires Cut(g, c, n, t, k, a, b) && K2(g) && Connected(g) && g.nodes[a].IsSplit() && Ranked(g, rank)
    requires m in c.nodes && (forall s :: s in g.nodes && g.nodes[s].END? ==> s == end) && (forall s :: s in rank ==> rank[s] < bound)
    ensures Reaches(c.edges, m, end)
    decreases bound - rank[m]
  {
    if g.nodes[m].END? {
      ReachesSelf(c.edges, end);
    } else {
      var e := ExitLeft(g, c, n, t, k, a, b, m);
      LeavesStill(g, c, n, t, k, a, b, rank, bound, end, e.target);
      ReachesFirst(c.edges, e, end);
    }
  }

  /** Between a split and a join K3 finds nothing. */
  lemma BetweenK3(g: Schema, p: Process, c: Schema, n: Id, t: Id, k: Id, a: Id, b: Id)
    requires Flattens(g, p) && Cut(g, c, n, t, k, a, b) && g.nodes[a].IsSplit() && g.nodes[b].IsJoin()
    ensures K3(c)
  {
    FlatteningK2(g, p);
    EveryNodeConnected(g, p);
    FlatteningIsAcyclic(g, p);
    TypedEnds(g, p);
    var rank :| Ranked(g, rank);
    var bound := Bounded(rank);
    forall m | m in c.nodes ensures OnSomeWay(c, m) {
      ReachedStill(g, c, n, t, k, a, b, rank, p.start, m);
      LeavesStill(g, c, n, t, k, a, b, rank, bound, p.end, m);
    }
  }

  lemma OnlyOne(es: seq<Edge>, e: Edge, f: Edge)
    requires |es| <= 1 && e in es && f in es
    ensures e == f
  {}

  lemma OneWayIn(g: Schema, b: Id, e: Edge, f: Edge)
    requires K2(g) && b in g.nodes && !g.nodes[b].IsJoin() && e in g.edges && f in g.edges && e.target == b == f.target
    ensures e == f
  {
    assert DegreesOk(g.nodes[b], |Incoming(g.edges, b)|, |Outgoing(g.edges, b)|);
    OnlyOne(Incoming(g.edges, b), e, f);
  }

  lemma OneWayOut(g: Schema, a: Id, e: Edge, f: Edge)
    requires K2(g) && a in g.nodes && !g.nodes[a].IsSplit() && e in g.edges && f in g.edges && e.source == a == f.source
    ensures e == f
  {
    assert DegreesOk(g.nodes[a], |Incoming(g.edges, a)|, |Outgoing(g.edges, a)|);
    OnlyOne(Outgoing(g.edges, a), e, f);
  }

  /** A node behind the gateway that is no join is entered from the gone split only. */
  lemma NotEntered(g: Schema, c: Schema, n: Id, t: Id, k: Id, a: Id, b: Id, e: Edge)
    requires Cut(g, c, n, t, k, a, b) && K2(g) && !g.nodes[b].IsJoin() && e in c.edges && e.source != t
    requires forall f :: f in g.edges ==> f.source in g.nodes && f.target in g.nodes
    ensures e.target != b && e.target in c.nodes.Keys + {k}
  {
    CutEdge(g, c, n, t, k, a, b, e);
    assert Edge(k, b) in multiset(g.edges);
    if e.target == b { OneWayIn(g, b, Edge(k, b), e); }
  }

  lemma AroundStays(g: Schema, c: Schema, n: Id, t: Id, k: Id, a: Id, b: Id)
    requires Cut(g, c, n, t, k, a, b)
    ensures a in c.nodes && b in c.nodes && k !in c.nodes && k != a && k != b && t !in c.nodes && t != k
  {}

  lemma EndsStay(g: Schema, p: Process, c: Schema, n: Id, t: Id, k: Id)
    requires Flattens(g, p) && c.nodes == g.nodes - {n, t, k} && {n, t, k} !! {p.start, p.end}
    ensures p.start in c.nodes && c.nodes[p.start].START? && p.end in c.nodes && c.nodes[p.end].END?
  {}

  lemma NotReached(c: Schema, start: Id, m: Id)
    requires m in c.nodes && start in c.nodes && c.nodes[start].START? && !Reaches(c.edges, start, m)
    ensures !K3(c)
  {
    assert !OnSomeWay(c, m);
  }

  lemma NotLeading(c: Schema, m: Id, end: Id)
    requires m in c.nodes && end in c.nodes && c.nodes[end].END? && !Reaches(c.edges, m, end)
    ensures !K3(c)
  {
    assert !OnSomeWay(c, m);
  }

  lemma CannotReach(g: Schema, c: Schema, n: Id, t: Id, k: Id, a: Id, b: Id, start: Id)
    requires Cut(g, c, n, t, k, a, b) && K2(g) && !g.nodes[b].IsJoin() && start in c.nodes && start != b
    requires forall f :: f in g.edges ==> f.source in g.nodes && f.target in g.nodes
    ensures !Reaches(c.edges, start, b)
  {
    var closed := c.nodes.Keys + {k} - {b};
    AroundStays(g, c, n, t, k, a, b);
    forall e | e in c.edges && e.source in closed ensures e.target in closed { NotEntered(g, c, n, t, k, a, b, e); }
    if Reaches(c.edges, start, b) { ClosedContains(c.edges, closed, start, b); }
  }

  lemma NoJoinBreaksK3(g: Schema, p: Process, c: Schema, n: Id, t: Id, k: Id, a: Id, b: Id)
    requires Flattens(g, p) && Cut(g, c, n, t, k, a, b) && {n, t, k} !! {p.start, p.end} && !g.nodes[b].IsJoin()
    ensures !K3(c)
  {
    FlatteningK2(g, p);
    EndsConnected(g, p);
    StartsElsewhere(g, p, k, b);
    EndsStay(g, p, c, n, t, k);
    AroundStays(g, c, n, t, k, a, b);
    CannotReach(g, c, n, t, k, a, b, p.start);
    NotReached(c, p.start, b);
  }

  lemma StartsElsewhere(g: Schema, p: Process, k: Id, b: Id)
    requires Flattens(g, p) && multiset(g.edges)[Edge(k, b)] == 1
    ensures b != p.start && k != p.end
  {
    EndsConnected(g, p);
    assert Edge(k, b) in multiset(g.edges);
  }

  /** A node in front of the gateway that is no split leads to the gone join only. */
  lemma NotLeft(g: Schema, c: Schema, n: Id, t: Id, k: Id, a: Id, b: Id, e: Edge)
    requires Cut(g, c, n, t, k, a, b) && K2(g) && !g.nodes[a].IsSplit() && e in c.edges && (e.source == a || e.source == k)
    ensures e.target == k
  {
    CutEdge(g, c, n, t, k, a, b, e);
    assert Edge(a, t) in multiset(g.edges);
    if e.source == a && e in g.edges { OneWayOut(g, a, Edge(a, t), e); }
  }

  lemma CannotLeave(g: Schema, c: Schema, n: Id, t: Id, k: Id, a: Id, b: Id, end: Id)
    requires Cut(g, c, n, t, k, a, b) && K2(g) && !g.nodes[a].IsSplit() && end in c.nodes && end != a
    ensures !Reaches(c.edges, a, end)
  {
    AroundStays(g, c, n, t, k, a, b);
    var closed := {a, k};
    forall e | e in c.edges && e.source in closed ensures e.target in closed { NotLeft(g, c, n, t, k, a, b, e); }
    if Reaches(c.edges, a, end) { ClosedContains(c.edges, closed, a, end); }
  }

  lemma NoSplitBreaksK3(g: Schema, p: Process, c: Schema, n: Id, t: Id, k: Id, a: Id, b: Id)
    requires Flattens(g, p) && Cut(g, c, n, t, k, a, b) && {n, t, k} !! {p.start, p.end} && !g.nodes[a].IsSplit()
    ensures !K3(c)
  {
    FlatteningK2(g, p);
    StartsElsewhere(g, p, a, t);
    EndsStay(g, p, c, n, t, k);
    AroundStays(g, c, n, t, k, a, b);
    CannotLeave(g, c, n, t, k, a, b, p.end);
    NotLeading(c, a, p.end);
  }

  // --- the exact condition --------------------------------------------------------------------------

  /** The gateway that dissolves is all there is between an AND split and a join. */
  ghost predicate FillsParallelBranch(g: Schema, p: Process, n: Id)
    requires SoleBlock(p, n).Gateway?
  {
    && NodeBefore(p, n) in g.nodes && g.nodes[NodeBefore(p, n)].AND_SPLIT?
    && NodeBehind(p, n) in g.nodes && g.nodes[NodeBehind(p, n)].IsJoin()
  }

  lemma CandidateTypes(g: Schema, p: Process, n: Id, c: Schema)
    requires Flattens(g, p) && IsCandidate(g, p, n, c)
    ensures var q := SoleBlock(p, n); CutTypes(g, n, q.split, q.join, q.logic) && {n, q.split, q.join} !! {p.start, p.end}
  {
    EmptiedInside(g, p, n);
    SiteFacts(g, p, n);
    var q := SoleBlock(p, n);
    SiteFacts(g, p, q.split);
  }

  lemma CandidateCounts(g: Schema, p: Process, n: Id, c: Schema)
    requires Flattens(g, p) && IsCandidate(g, p, n, c)
    ensures K1(c) && K2(c)
  {
    var q := SoleBlock(p, n);
    CandidateCuts(g, p, n, c);
    CandidateTypes(g, p, n, c);
    FlatteningK1(g, p);
    FlatteningK2(g, p);
    CutK1(g, c, n, q.split, q.join, q.logic);
    CutK2(g, c, n, q.split, q.join, NodeBefore(p, n), NodeBehind(p, n), q.logic);
  }

  lemma CandidateIsNoTerm(g: Schema, p: Process, n: Id, c: Schema)
    requires Flattens(g, p) && IsCandidate(g, p, n, c)
    ensures !exists p' :: Flattens(c, p')
  {
    assert Edge(NodeBefore(p, n), SoleBlock(p, n).join) in c.edges;
    DissolveEmptyFails(c, Edge(NodeBefore(p, n), SoleBlock(p, n).join));
  }

  /**
   What the rules see of the corner case: K1 and K2 nothing, whatever the gateway; K3 and K7 nothing
   either exactly if the gateway fills a branch of an AND gateway. The data-flow analysis fails always.
   */
  lemma RemnantPassesIff(g: Schema, p: Process, n: Id, c: Schema)
    requires Flattens(g, p) && K7(g) && IsCandidate(g, p, n, c)
    ensures K1(c) && K2(c) && !Resolves(c)
    ensures K3(c) && K7(c) <==> FillsParallelBranch(g, p, n)
    ensures !exists p' :: Flattens(c, p')
  {
    var q := SoleBlock(p, n);
    var a, b := NodeBefore(p, n), NodeBehind(p, n);
    CandidateCuts(g, p, n, c);
    CandidateTypes(g, p, n, c);
    CandidateCounts(g, p, n, c);
    RemnantFails(g, p, n, q, c);
    CandidateIsNoTerm(g, p, n, c);
    RulesIff(g, p, c, n, q.split, q.join, a, b);
  }

  lemma RulesIff(g: Schema, p: Process, c: Schema, n: Id, t: Id, k: Id, a: Id, b: Id)
    requires Flattens(g, p) && K7(g) && Cut(g, c, n, t, k, a, b) && {n, t, k} !! {p.start, p.end}
    ensures K3(c) && K7(c) <==> g.nodes[a].AND_SPLIT? && g.nodes[b].IsJoin()
  {
    if g.nodes[a].XOR_SPLIT? {
      XorBeforeBreaksK7(g, c, n, t, k, a, b);
    } else if !g.nodes[a].IsSplit() {
      NoSplitBreaksK3(g, p, c, n, t, k, a, b);
    } else if !g.nodes[b].IsJoin() {
      NoJoinBreaksK3(g, p, c, n, t, k, a, b);
    } else {
      OtherwiseK7(g, c, n, t, k, a, b);
      BetweenK3(g, p, c, n, t, k, a, b);
    }
  }
}

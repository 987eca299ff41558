/**
 Rule K7 read off the graph: the branches of a decision are counted against the edges of its split,
 and its cells against the values. Each change of the graph is judged by what it does to both.
 */
module Decisions {
  import opened Model
  import opened Partition
  import opened Validator

  /** The targets of the edges that leave `s` are counted by those edges. */
  lemma {:induction false} TargetsCount(es: seq<Edge>, s: Id, t: Id)
    ensures multiset(Targets(Outgoing(es, s)))[t] == multiset(es)[Edge(s, t)]
  {
    if es != [] {
      var e, rest := es[0], Outgoing(es[1..], s);
      TargetsCount(es[1..], s, t);
      FirstCounts(es, Edge(s, t));
      if e.source == s {
        assert Outgoing(es, s) == [e] + rest;
        MoreTargets(e, rest);
        assert e == Edge(s, t) <==> e.target == t;
      } else {
        assert Outgoing(es, s) == rest;
      }
    }
  }

  lemma FirstCounts(es: seq<Edge>, e: Edge)
    requires es != []
    ensures multiset(es)[e] == multiset(es[1..])[e] + if es[0] == e then 1 else 0
  {
    assert es == [es[0]] + es[1..];
  }

  lemma MoreTargets(e: Edge, es: seq<Edge>)
    ensures Targets([e] + es) == [e.target] + Targets(es)
  {
    assert ([e] + es)[1..] == es;
  }

  lemma {:induction false} BranchTargetAt(bs: seq<XorBranch>, i: nat)
    requires i < |bs|
    ensures |BranchTargets(bs)| == |bs| && BranchTargets(bs)[i] == bs[i].target
  {
    BranchTargetsLength(bs);
    if i > 0 { BranchTargetAt(bs[1..], i - 1); }
  }

  lemma BranchTargetsLength(bs: seq<XorBranch>)
    ensures |BranchTargets(bs)| == |bs|
  {}

  /** The decision `d` fits the split `n` of a graph with these edges. */
  ghost predicate Fits(edges: seq<Edge>, n: Id, d: XorDecision) {
    && |d.branches| >= 2 && Tiles(d)
    && forall t :: multiset(BranchTargets(d.branches))[t] == multiset(edges)[Edge(n, t)]
  }

  /** Exactly the XOR splits have decisions. */
  ghost predicate OnlySplits(g: Schema) {
    forall n :: n in g.decisions <==> n in g.nodes && g.nodes[n].XOR_SPLIT?
  }

  /** Exactly the XOR splits have decisions, and each of them fits. */
  ghost predicate AllFit(g: Schema) {
    OnlySplits(g) && forall n :: n in g.decisions ==> Fits(g.edges, n, g.decisions[n])
  }

  lemma KeysAreSplits(g: Schema)
    ensures OnlySplits(g) <==> g.decisions.Keys == OfType(g, XOR_SPLIT)
  {}

  /**
   K7: exactly the XOR splits have decisions; every edge of a split is the target of as many branches
   as it is there times, and the cells tile the domain.
   */
  lemma K7Iff(g: Schema)
    ensures K7(g) <==> AllFit(g)
  {
    KeysAreSplits(g);
    if K7(g) {
      forall n | n in g.decisions ensures Fits(g.edges, n, g.decisions[n]) { SameTargets(g.edges, n, g.decisions[n].branches); }
    }
    if AllFit(g) {
      forall n | n in g.decisions ensures multiset(BranchTargets(g.decisions[n].branches)) == multiset(Targets(Outgoing(g.edges, n))) {
        assert Fits(g.edges, n, g.decisions[n]);
        SameTargets(g.edges, n, g.decisions[n].branches);
      }
    }
  }

  lemma SameTargets(edges: seq<Edge>, n: Id, bs: seq<XorBranch>)
    ensures multiset(BranchTargets(bs)) == multiset(Targets(Outgoing(edges, n)))
       <==> forall t :: multiset(BranchTargets(bs))[t] == multiset(edges)[Edge(n, t)]
  {
    forall t ensures multiset(Targets(Outgoing(edges, n)))[t] == multiset(edges)[Edge(n, t)] { TargetsCount(edges, n, t); }
  }

  /** Under K7 every edge of a split is taken by some value. */
  lemma EveryBranchTaken(g: Schema, e: Edge) returns (v: Value)
    requires K7(g) && e in g.edges && e.source in g.nodes && g.nodes[e.source].XOR_SPLIT?
    ensures e.source in g.decisions && ResolveTarget(g.decisions[e.source], v) == Some(e.target)
  {
    K7Iff(g);
    assert OnlySplits(g);
    var d := g.decisions[e.source];
    assert Fits(g.edges, e.source, d);
    assert e == Edge(e.source, e.target) && e in multiset(g.edges);
    assert e.target in multiset(BranchTargets(d.branches));
    BranchTargetsLength(d.branches);
    var i :| 0 <= i < |d.branches| && BranchTargets(d.branches)[i] == e.target;
    BranchTargetAt(d.branches, i);
    TilesInhabited(d, i);
    v :| InCell(d, i, v);
    var k := ResolveFindsTheCell(d, v);
  }

  /** The edges out of `m` are the same. */
  ghost predicate SameWaysOut(edges: seq<Edge>, edges': seq<Edge>, m: Id) {
    forall t :: multiset(edges')[Edge(m, t)] == multiset(edges)[Edge(m, t)]
  }

  lemma SameWaysFit(edges: seq<Edge>, edges': seq<Edge>, m: Id, d: XorDecision)
    requires SameWaysOut(edges, edges', m)
    ensures Fits(edges, m, d) <==> Fits(edges', m, d)
  {}

  /** Splits whose edges and decisions stay the same are judged the same. */
  lemma SameSplitsFit(g: Schema, c: Schema)
    requires c.decisions == g.decisions
    requires forall n :: n in g.nodes && g.nodes[n].XOR_SPLIT? <==> n in c.nodes && c.nodes[n].XOR_SPLIT?
    requires forall n :: n in g.nodes && g.nodes[n].XOR_SPLIT? ==> SameWaysOut(g.edges, c.edges, n)
    ensures AllFit(c) <==> AllFit(g)
  {
    assert OnlySplits(g) <==> OnlySplits(c);
    if OnlySplits(g) {
      forall n | n in g.decisions ensures Fits(g.edges, n, g.decisions[n]) <==> Fits(c.edges, n, g.decisions[n]) {
        SameWaysFit(g.edges, c.edges, n, g.decisions[n]);
      }
    }
  }

  // --- one more split -----------------------------------------------------------------------

  /** A decision for one more split, whose edges are new; the other splits keep their edges. */
  lemma OneMoreSplit(g: Schema, c: Schema, s: Id, d: XorDecision)
    requires c.decisions == g.decisions[s := d] && s !in g.nodes && AllFit(g)
    requires forall n :: n in c.nodes && c.nodes[n].XOR_SPLIT? <==> n == s || (n in g.nodes && g.nodes[n].XOR_SPLIT?)
    requires forall n :: n in g.nodes && g.nodes[n].XOR_SPLIT? ==> SameWaysOut(g.edges, c.edges, n)
    ensures AllFit(c) <==> Fits(c.edges, s, d)
  {
    assert OnlySplits(c);
    forall n | n in g.decisions ensures Fits(c.edges, n, g.decisions[n]) { SameWaysFit(g.edges, c.edges, n, g.decisions[n]); }
  }

  lemma OneMoreSplitK7(g: Schema, c: Schema, s: Id, d: XorDecision)
    requires c.decisions == g.decisions[s := d] && s !in g.nodes && K7(g)
    requires forall n :: n in c.nodes && c.nodes[n].XOR_SPLIT? <==> n == s || (n in g.nodes && g.nodes[n].XOR_SPLIT?)
    requires forall n :: n in g.nodes && g.nodes[n].XOR_SPLIT? ==> SameWaysOut(g.edges, c.edges, n)
    ensures K7(c) <==> Fits(c.edges, s, d)
  {
    K7Iff(g);
    K7Iff(c);
    OneMoreSplit(g, c, s, d);
  }

  // --- one branch fewer ---------------------------------------------------------------------

  lemma {:induction false} DropCounts(bs: seq<XorBranch>, i: nat, t: Id)
    requires i < |bs|
    ensures multiset(BranchTargets(bs[..i] + bs[i + 1..]))[t] + (if bs[i].target == t then 1 else 0) == multiset(BranchTargets(bs))[t]
  {
    var cut := bs[..i] + bs[i + 1..];
    assert BranchTargets(bs) == [bs[0].target] + BranchTargets(bs[1..]);
    if i == 0 {
      assert cut == bs[1..];
    } else {
      DropCounts(bs[1..], i - 1, t);
      assert cut[0] == bs[0] && cut[1..] == bs[1..][..i - 1] + bs[1..][i..];
      assert BranchTargets(cut) == [bs[0].target] + BranchTargets(cut[1..]);
    }
  }

  /** The only branch with a target. */
  lemma OnlyBranch(bs: seq<XorBranch>, t: Id) returns (i: nat)
    requires multiset(BranchTargets(bs))[t] == 1
    ensures i < |bs| && forall k :: 0 <= k < |bs| ==> (bs[k].target == t <==> k == i)
  {
    BranchTargetsLength(bs);
    assert t in multiset(BranchTargets(bs));
    i :| 0 <= i < |bs| && BranchTargets(bs)[i] == t;
    BranchTargetAt(bs, i);
    forall k | 0 <= k < |bs| && bs[k].target == t ensures k == i {
      DropCounts(bs, i, t);
      if k != i {
        var cut, at := bs[..i] + bs[i + 1..], if k < i then k else k - 1;
        assert cut[at] == bs[k];
        BranchTargetAt(cut, at);
      }
    }
  }

  lemma TargetsLength(es: seq<Edge>)
    ensures |Targets(es)| == |es|
  {}

  lemma SameSize(a: seq<Id>, b: seq<Id>)
    requires multiset(a) == multiset(b)
    ensures |a| == |b|
  {
    assert |multiset(a)| == |a| && |multiset(b)| == |b|;
  }

  /** A split that loses one edge and the branch to its target fits exactly if that branch may go. */
  lemma OneFewer(edges: seq<Edge>, edges': seq<Edge>, s: Id, d: XorDecision, i: nat)
    requires Fits(edges, s, d) && i < |d.branches| && |Outgoing(edges', s)| >= 2
    requires forall t :: multiset(edges')[Edge(s, t)] + (if t == d.branches[i].target then 1 else 0) == multiset(edges)[Edge(s, t)]
    ensures Fits(edges', s, Drop(d, i)) <==> Droppable(d, i)
    ensures |d.branches| == |Outgoing(edges', s)| + 1
  {
    var cut := Drop(d, i).branches;
    forall t ensures multiset(BranchTargets(cut))[t] == multiset(edges')[Edge(s, t)] { DropCounts(d.branches, i, t); }
    SameTargets(edges', s, cut);
    SameSize(BranchTargets(cut), Targets(Outgoing(edges', s)));
    TargetsLength(Outgoing(edges', s));
    BranchTargetsLength(cut);
    DropTilesIff(d, i);
  }

  /** One split loses an edge and the branch to its target; the others keep their edges. */
  lemma DropFits(g: Schema, c: Schema, s: Id, i: nat)
    requires AllFit(g) && s in g.decisions && i < |g.decisions[s].branches| && c.decisions == g.decisions[s := Drop(g.decisions[s], i)]
    requires forall n :: n in g.nodes && g.nodes[n].XOR_SPLIT? <==> n in c.nodes && c.nodes[n].XOR_SPLIT?
    requires forall m :: m in g.decisions && m != s ==> SameWaysOut(g.edges, c.edges, m)
    requires forall t :: multiset(c.edges)[Edge(s, t)] + (if t == g.decisions[s].branches[i].target then 1 else 0) == multiset(g.edges)[Edge(s, t)]
    requires |Outgoing(c.edges, s)| >= 2
    ensures AllFit(c) <==> Droppable(g.decisions[s], i)
    ensures |g.decisions[s].branches| == |Outgoing(c.edges, s)| + 1
  {
    assert OnlySplits(c) && Fits(g.edges, s, g.decisions[s]);
    OneFewer(g.edges, c.edges, s, g.decisions[s], i);
    OthersFit(g, c, s);
  }

  lemma OthersFit(g: Schema, c: Schema, s: Id)
    requires AllFit(g) && forall m :: m in g.decisions && m != s ==> SameWaysOut(g.edges, c.edges, m)
    requires c.decisions.Keys == g.decisions.Keys && forall m :: m in g.decisions && m != s ==> c.decisions[m] == g.decisions[m]
    ensures forall m :: m in c.decisions && m != s ==> Fits(c.edges, m, c.decisions[m])
  {
    forall m | m in c.decisions && m != s ensures Fits(c.edges, m, c.decisions[m]) { SameWaysFit(g.edges, c.edges, m, g.decisions[m]); }
  }

  lemma StillNamed(edges: seq<Edge>, edges': seq<Edge>, s: Id, n: Id, d: XorDecision)
    requires Fits(edges, s, d) && Edge(s, n) in edges && Edge(s, n) !in edges'
    ensures !Fits(edges', s, d)
  {
    assert Edge(s, n) in multiset(edges) && multiset(edges')[Edge(s, n)] == 0;
  }

  /**
   Nodes go, and the edge from `before` to one of them is led past them; the other splits keep their
   edges. K7 stays exactly if `before` is no XOR split: its decision still names the node that is gone.
   */
  lemma LedPast(g: Schema, c: Schema, gone: set<Id>, before: Id, n: Id)
    requires AllFit(g) && c.nodes == g.nodes - gone && c.decisions == g.decisions - gone && before in g.nodes && before !in gone
    requires Edge(before, n) in g.edges && Edge(before, n) !in c.edges
    requires forall m :: m in g.decisions && m !in gone && m != before ==> SameWaysOut(g.edges, c.edges, m)
    ensures AllFit(c) <==> !g.nodes[before].XOR_SPLIT?
  {
    assert OnlySplits(c);
    if g.nodes[before].XOR_SPLIT? {
      assert before in c.decisions && c.decisions[before] == g.decisions[before] && Fits(g.edges, before, g.decisions[before]);
      StillNamed(g.edges, c.edges, before, n, g.decisions[before]);
    } else {
      forall m | m in c.decisions ensures Fits(c.edges, m, c.decisions[m]) { SameWaysFit(g.edges, c.edges, m, g.decisions[m]); }
    }
  }
}

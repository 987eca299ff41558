/**
 The nesting depth of a model: a Kahn-style pass over the flat graph. On block-structured schemas
 it visits every node. It returns the nesting depth of the block term exactly when no block is pushed
 beyond that depth by gateways with empty branches in front of it.
 */
module Metrics {
  import opened Model
  import opened Blocks
  import opened Edits
  import opened Partition
  import opened Marking
  import opened Structure
  import opened Deletion
  import DataFlow

  function Max(a: nat, b: nat): nat { if a >= b then a else b }

  // --- levels on a graph ------------------------------------------------------------------

  /** The depth an edge passes on: one more behind a split, one less in front of a join. */
  function Passed(nodes: map<Id, NodeType>, depth: map<Id, nat>, e: Edge): nat
    requires e.source in nodes && e.target in nodes && e.source in depth
  {
    var base := depth[e.source];
    if nodes[e.source].IsSplit() then base + 1
    else if nodes[e.target].IsJoin() then (if base >= 1 then base - 1 else 0)
    else base
  }

  /** All edges join nodes. */
  ghost predicate Joined(nodes: map<Id, NodeType>, es: seq<Edge>) {
    forall e :: e in es ==> e.source in nodes && e.target in nodes
  }

  /** The depth of `n` is the largest one its incoming edges in `es` pass on. */
  ghost predicate Levelled(nodes: map<Id, NodeType>, es: seq<Edge>, depth: map<Id, nat>, n: Id)
    requires Joined(nodes, es) && depth.Keys == nodes.Keys && n in nodes
  {
    && (forall e :: e in es && e.target == n ==> Passed(nodes, depth, e) <= depth[n])
    && (depth[n] == 0 || PassedOn(nodes, es, depth, n))
  }

  ghost predicate PassedOn(nodes: map<Id, NodeType>, es: seq<Edge>, depth: map<Id, nat>, n: Id)
    requires Joined(nodes, es) && depth.Keys == nodes.Keys && n in nodes
  {
    exists e :: e in es && e.target == n && Passed(nodes, depth, e) == depth[n]
  }

  /** The state of the pass; `used` are the edges taken so far, `visited` the nodes taken from the queue. */
  datatype State = State(indegree: map<Id, int>, depth: map<Id, nat>, queue: seq<Id>)

  ghost predicate Walking(nodes: map<Id, NodeType>, es: seq<Edge>, s: State, visited: set<Id>, used: seq<Edge>) {
    && Joined(nodes, es) && Joined(nodes, used) && s.indegree.Keys == nodes.Keys && s.depth.Keys == nodes.Keys
    && multiset(used) <= multiset(es) && (forall e :: e in used ==> e.source in visited)
    && Queued(nodes, s, visited) && Counted(nodes, es, s, used) && AllLevelled(nodes, used, s.depth)
  }

  /** The queue holds the nodes not visited yet that wait for no edge. */
  ghost predicate Queued(nodes: map<Id, NodeType>, s: State, visited: set<Id>)
    requires s.indegree.Keys == nodes.Keys
  {
    && visited <= nodes.Keys && NoRepeat(s.queue) && (forall n :: n in s.queue ==> n in nodes && n !in visited)
    && (forall n :: n in nodes ==> (n in s.queue || n in visited <==> s.indegree[n] == 0))
  }

  /** The counters hold the incoming edges not taken yet. */
  ghost predicate Counted(nodes: map<Id, NodeType>, es: seq<Edge>, s: State, used: seq<Edge>)
    requires s.indegree.Keys == nodes.Keys
  {
    forall n :: n in nodes ==> s.indegree[n] == |Incoming(es, n)| - |Incoming(used, n)|
  }

  ghost predicate AllLevelled(nodes: map<Id, NodeType>, es: seq<Edge>, depth: map<Id, nat>)
    requires Joined(nodes, es) && depth.Keys == nodes.Keys
  {
    forall n {:trigger Levelled(nodes, es, depth, n)} :: n in nodes ==> Levelled(nodes, es, depth, n)
  }

  /** Taking one edge out of the node at the head of the pass. */
  function Take(nodes: map<Id, NodeType>, s: State, e: Edge): State
    requires e.source in nodes && e.target in nodes && s.indegree.Keys == nodes.Keys && s.depth.Keys == nodes.Keys
  {
    State(s.indegree[e.target := s.indegree[e.target] - 1],
          s.depth[e.target := Max(s.depth[e.target], Passed(nodes, s.depth, e))],
          if s.indegree[e.target] == 1 then s.queue + [e.target] else s.queue)
  }

  lemma SubBag(a: multiset<Edge>, b: multiset<Edge>)
    requires a <= b
    ensures |a| <= |b| && (|a| == |b| ==> a == b)
  {
    assert b == a + (b - a);
    if |a| == |b| { assert |b - a| == 0; }
  }

  /** Fewer edges, fewer incoming edges; as many only if all are there. */
  lemma FewerIn(a: seq<Edge>, b: seq<Edge>, n: Id)
    requires multiset(a) <= multiset(b)
    ensures |Incoming(a, n)| <= |Incoming(b, n)|
    ensures |Incoming(a, n)| == |Incoming(b, n)| ==> forall e: Edge :: e.target == n ==> multiset(a)[e] == multiset(b)[e]
  {
    var x, y := multiset(Incoming(a, n)), multiset(Incoming(b, n));
    forall e ensures x[e] == (if e.target == n then multiset(a)[e] else 0) && y[e] == (if e.target == n then multiset(b)[e] else 0) {
      IncomingCount(a, n, e);
      IncomingCount(b, n, e);
    }
    SubBag(x, y);
    assert |x| == |Incoming(a, n)| && |y| == |Incoming(b, n)|;
    if |x| == |y| { forall e: Edge | e.target == n ensures multiset(a)[e] == multiset(b)[e] { assert x[e] == y[e]; } }
  }

  lemma InGrows(used: seq<Edge>, e: Edge, n: Id)
    ensures |Incoming(used + [e], n)| == |Incoming(used, n)| + if e.target == n then 1 else 0
  {
    IncomingConcat(used, [e], n);
    assert Incoming([e], n) == if e.target == n then [e] else [];
  }

  /** An edge that is left leads to a node that still waits. */
  lemma TargetWaits(nodes: map<Id, NodeType>, es: seq<Edge>, s: State, visited: set<Id>, used: seq<Edge>, e: Edge)
    requires Walking(nodes, es, s, visited, used) && e.target in nodes && multiset(used + [e]) <= multiset(es)
    ensures e.target !in s.queue && e.target !in visited && s.indegree[e.target] >= 1
  {
    var more := used + [e];
    FewerIn(used, es, e.target);
    assert multiset(more)[e] == multiset(used)[e] + 1;
    assert multiset(more)[e] <= multiset(es)[e];
  }

  /** The levels after taking an edge: its target's may rise, nothing is passed on from there yet. */
  lemma TakeLevels(nodes: map<Id, NodeType>, used: seq<Edge>, depth: map<Id, nat>, e: Edge, n: Id)
    requires Joined(nodes, used) && depth.Keys == nodes.Keys && n in nodes && e.source in nodes && e.target in nodes
    requires Levelled(nodes, used, depth, n) && e.source != e.target && forall f :: f in used ==> f.source != e.target
    ensures Joined(nodes, used + [e])
    ensures Levelled(nodes, used + [e], depth[e.target := Max(depth[e.target], Passed(nodes, depth, e))], n)
  {
    var depth' := depth[e.target := Max(depth[e.target], Passed(nodes, depth, e))];
    var more := used + [e];
    assert forall f :: f in more <==> f in used || f == e;
    assert forall f :: f in more ==> Passed(nodes, depth', f) == Passed(nodes, depth, f);
    if depth'[n] != 0 {
      if n == e.target && depth'[n] == Passed(nodes, depth, e) {
        assert e in more && Passed(nodes, depth', e) == depth'[n];
      } else {
        assert PassedOn(nodes, used, depth, n);
        var f :| f in used && f.target == n && Passed(nodes, depth, f) == depth[n];
        assert f in more;
      }
    }
  }

  lemma TakeQueued(nodes: map<Id, NodeType>, s: State, visited: set<Id>, e: Edge)
    requires s.indegree.Keys == nodes.Keys && s.depth.Keys == nodes.Keys && Queued(nodes, s, visited)
    requires e.source in nodes && e.target in nodes && e.target !in s.queue && e.target !in visited && s.indegree[e.target] >= 1
    ensures Queued(nodes, Take(nodes, s, e), visited)
  {
    var t := Take(nodes, s, e);
    forall n ensures n in t.queue <==> n in s.queue || (n == e.target && s.indegree[n] == 1) {}
  }

  lemma TakeCounted(nodes: map<Id, NodeType>, es: seq<Edge>, s: State, used: seq<Edge>, e: Edge)
    requires s.indegree.Keys == nodes.Keys && s.depth.Keys == nodes.Keys && Counted(nodes, es, s, used)
    requires e.source in nodes && e.target in nodes
    ensures Counted(nodes, es, Take(nodes, s, e), used + [e])
  {
    forall n | n in nodes ensures Take(nodes, s, e).indegree[n] == |Incoming(es, n)| - |Incoming(used + [e], n)| { InGrows(used, e, n); }
  }

  lemma TakeAllLevels(nodes: map<Id, NodeType>, s: State, used: seq<Edge>, e: Edge)
    requires s.indegree.Keys == nodes.Keys && s.depth.Keys == nodes.Keys && Joined(nodes, used) && AllLevelled(nodes, used, s.depth)
    requires e.source in nodes && e.target in nodes && e.source != e.target && forall f :: f in used ==> f.source != e.target
    ensures Joined(nodes, used + [e]) && AllLevelled(nodes, used + [e], Take(nodes, s, e).depth)
  {
    forall n | n in nodes ensures Joined(nodes, used + [e]) && Levelled(nodes, used + [e], Take(nodes, s, e).depth, n) {
      assert Levelled(nodes, used, s.depth, n);
      TakeLevels(nodes, used, s.depth, e, n);
    }
  }

  /** Taking an edge of a visited node keeps the walk in order and changes no visited depth. */
  lemma TakeKeeps(nodes: map<Id, NodeType>, es: seq<Edge>, s: State, visited: set<Id>, used: seq<Edge>, e: Edge)
    requires Walking(nodes, es, s, visited, used) && e.source in visited && e.target in nodes
    requires multiset(used + [e]) <= multiset(es)
    ensures Walking(nodes, es, Take(nodes, s, e), visited, used + [e])
    ensures forall n :: n in visited ==> Take(nodes, s, e).depth[n] == s.depth[n]
  {
    TargetWaits(nodes, es, s, visited, used, e);
    TakeQueued(nodes, s, visited, e);
    TakeCounted(nodes, es, s, used, e);
    TakeAllLevels(nodes, s, used, e);
  }

  /** Taking the head of the queue. */
  lemma PopKeeps(nodes: map<Id, NodeType>, es: seq<Edge>, s: State, visited: set<Id>, used: seq<Edge>)
    requires Walking(nodes, es, s, visited, used) && s.queue != []
    ensures Walking(nodes, es, s.(queue := s.queue[1..]), visited + {s.queue[0]}, used)
    ensures s.queue[0] in nodes && s.queue[0] !in visited
  {
    assert s.queue == [s.queue[0]] + s.queue[1..];
  }

  // --- the pass -------------------------------------------------------------------------------

  /** The edges between nodes of the schema; the others are skipped. */
  function Inside(nodes: map<Id, NodeType>, es: seq<Edge>): (r: seq<Edge>)
    ensures Joined(nodes, r)
    ensures Joined(nodes, es) ==> r == es
  {
    if es == [] then []
    else
      var rest := Inside(nodes, es[1..]);
      assert Joined(nodes, es) ==> Joined(nodes, es[1..]) && es == [es[0]] + es[1..];
      (if es[0].source in nodes && es[0].target in nodes then [es[0]] else []) + rest
  }

  ghost predicate TopologicallyRanked(es: seq<Edge>, rank: map<Id, nat>) {
    forall e :: e in es ==> e.source in rank && e.target in rank && rank[e.source] < rank[e.target]
  }

  /** The edges out of visited nodes have been taken, all of them. */
  ghost predicate Complete(es: seq<Edge>, visited: set<Id>, used: seq<Edge>) {
    forall e: Edge :: e.source in visited ==> multiset(used)[e] == multiset(es)[e]
  }

  /** Without a cycle no node is left waiting when the queue runs empty. */
  lemma {:induction false} VisitedAt(nodes: map<Id, NodeType>, es: seq<Edge>, rank: map<Id, nat>, s: State, visited: set<Id>, used: seq<Edge>, n: Id)
    requires Walking(nodes, es, s, visited, used) && Complete(es, visited, used) && s.queue == []
    requires TopologicallyRanked(es, rank) && n in nodes
    ensures n in visited
    decreases if n in rank then rank[n] else 0
  {
    if n !in visited {
      forall e: Edge | e.target == n ensures multiset(used)[e] == multiset(es)[e] {
        if e in es {
          VisitedAt(nodes, es, rank, s, visited, used, e.source);
        } else {
          assert multiset(es)[e] == 0 && multiset(used)[e] <= multiset(es)[e];
        }
      }
      SameIn(used, es, n);
    }
  }

  lemma SameIn(a: seq<Edge>, b: seq<Edge>, n: Id)
    requires forall e: Edge :: e.target == n ==> multiset(a)[e] == multiset(b)[e]
    ensures |Incoming(a, n)| == |Incoming(b, n)|
  {
    var x, y := multiset(Incoming(a, n)), multiset(Incoming(b, n));
    forall e ensures x[e] == y[e] {
      IncomingCount(a, n, e);
      IncomingCount(b, n, e);
    }
    assert x == y;
    assert |x| == |Incoming(a, n)| && |y| == |Incoming(b, n)|;
  }

  /** The next edge out of the current node has not been taken before. */
  lemma NextFits(es: seq<Edge>, used: seq<Edge>, current: Id, i: nat)
    requires multiset(used) <= multiset(es) && (forall e :: e in used ==> e.source != current) && i < |Outgoing(es, current)|
    ensures multiset(used + Outgoing(es, current)[..i] + [Outgoing(es, current)[i]]) <= multiset(es)
  {
    var out := Outgoing(es, current);
    var taken := out[..i] + [out[i]];
    assert out == taken + out[i + 1..];
    assert multiset(out) == multiset(taken) + multiset(out[i + 1..]);
    var more := used + out[..i] + [out[i]];
    assert multiset(more) == multiset(used) + multiset(taken);
    forall e ensures multiset(more)[e] <= multiset(es)[e] {
      OutgoingCount(es, current, e);
      if e.source == current { assert multiset(used)[e] == 0 by { assert e !in used; } } else { assert multiset(taken)[e] <= multiset(out)[e]; }
    }
  }

  lemma AllTaken(es: seq<Edge>, visited: set<Id>, used: seq<Edge>, current: Id)
    requires Complete(es, visited, used) && forall e :: e in used ==> e.source in visited
    requires current !in visited
    ensures Complete(es, visited + {current}, used + Outgoing(es, current))
  {
    var out := Outgoing(es, current);
    assert multiset(used + out) == multiset(used) + multiset(out);
    forall e: Edge | e.source in visited + {current} ensures multiset(used + out)[e] == multiset(es)[e] {
      OutgoingCount(es, current, e);
      if e.source == current { assert multiset(used)[e] == 0 by { assert e !in used; } }
    }
  }

  /** `r` is the largest depth of the given nodes. */
  ghost predicate IsPeak(depth: map<Id, nat>, of: set<Id>, r: nat) {
    && (forall n :: n in of && n in depth ==> depth[n] <= r)
    && (r == 0 || exists n :: n in of && n in depth && depth[n] == r)
  }

  lemma PeakGrows(depth: map<Id, nat>, of: set<Id>, r: nat, n: Id)
    requires IsPeak(depth, of, r) && n in depth
    ensures IsPeak(depth, of + {n}, Max(r, depth[n]))
  {
    if r > 0 && r >= depth[n] { var m :| m in of && m in depth && depth[m] == r; assert m in of + {n}; }
    if r < depth[n] { assert n in of + {n}; }
  }

  lemma PeakStays(depth: map<Id, nat>, depth': map<Id, nat>, of: set<Id>, r: nat)
    requires IsPeak(depth, of, r) && of <= depth.Keys && depth'.Keys == depth.Keys && forall n :: n in of ==> depth'[n] == depth[n]
    ensures IsPeak(depth', of, r)
  {
    if r > 0 { var m :| m in of && m in depth && depth[m] == r; assert depth'[m] == r; }
  }

  /** The counters hold the incoming edges among the first `i`. */
  ghost predicate CountsIn(indegree: map<Id, int>, es: seq<Edge>, i: nat)
    requires i <= |es|
  {
    forall n :: n in indegree ==> indegree[n] == |Incoming(es[..i], n)|
  }

  lemma CountNext(indegree: map<Id, int>, es: seq<Edge>, i: nat)
    requires i < |es| && CountsIn(indegree, es, i) && es[i].target in indegree
    ensures CountsIn(indegree[es[i].target := indegree[es[i].target] + 1], es, i + 1)
  {
    assert es[..i + 1] == es[..i] + [es[i]];
    forall n | n in indegree ensures |Incoming(es[..i + 1], n)| == indegree[n] + if es[i].target == n then 1 else 0 {
      InGrows(es[..i], es[i], n);
    }
  }

  lemma CountAll(indegree: map<Id, int>, es: seq<Edge>)
    requires CountsIn(indegree, es, |es|)
    ensures forall n :: n in indegree ==> indegree[n] == |Incoming(es, n)|
  {
    assert es[..|es|] == es;
  }

  /** The counting loop: the number of incoming edges of every node. */
  method CountIn(nodes: map<Id, NodeType>, es: seq<Edge>) returns (indegree: map<Id, int>)
    requires Joined(nodes, es)
    ensures indegree.Keys == nodes.Keys && forall n :: n in nodes ==> indegree[n] == |Incoming(es, n)|
  {
    indegree := map n | n in nodes :: 0;
    for i := 0 to |es|
      invariant indegree.Keys == nodes.Keys && CountsIn(indegree, es, i)
    {
      CountNext(indegree, es, i);
      indegree := indegree[es[i].target := indegree[es[i].target] + 1];
    }
    CountAll(indegree, es);
  }

  /** The inner loop's body. */
  method TakeOne(nodes: map<Id, NodeType>, state: State, e: Edge) returns (state': State)
    requires e.source in nodes && e.target in nodes && state.indegree.Keys == nodes.Keys && state.depth.Keys == nodes.Keys
    ensures state' == Take(nodes, state, e)
  {
    var indegree, queue := state.indegree, state.queue;
    var depth: map<Id, nat> := state.depth;
    var candidate := Passed(nodes, depth, e);
    depth := depth[e.target := Max(depth[e.target], candidate)];
    indegree := indegree[e.target := indegree[e.target] - 1];
    if indegree[e.target] == 0 { queue := queue + [e.target]; }
    return State(indegree, depth, queue);
  }

  /** The inner loop: the edges out of one node. */
  method TakeAll(nodes: map<Id, NodeType>, es: seq<Edge>, current: Id, state: State, ghost visited: set<Id>, ghost used: seq<Edge>)
    returns (state': State)
    requires Walking(nodes, es, state, visited, used) && current in visited
    requires forall e :: e in used ==> e.source != current
    ensures Walking(nodes, es, state', visited, used + Outgoing(es, current))
    ensures forall n :: n in visited ==> state'.depth[n] == state.depth[n]
  {
    var out := Outgoing(es, current);
    state' := state;
    assert used + out[..0] == used;
    for i := 0 to |out|
      invariant Walking(nodes, es, state', visited, used + out[..i])
      invariant forall n :: n in visited ==> state'.depth[n] == state.depth[n]
    {
      TakeNext(nodes, es, state', visited, used, current, i);
      state' := TakeOne(nodes, state', out[i]);
    }
    assert out[..|out|] == out;
  }

  lemma TakeNext(nodes: map<Id, NodeType>, es: seq<Edge>, s: State, visited: set<Id>, used: seq<Edge>, current: Id, i: nat)
    requires multiset(used) <= multiset(es) && (forall e :: e in used ==> e.source != current) && i < |Outgoing(es, current)|
    requires Walking(nodes, es, s, visited, used + Outgoing(es, current)[..i]) && current in visited
    ensures var e := Outgoing(es, current)[i];
            && e.source in nodes && e.target in nodes
            && Walking(nodes, es, Take(nodes, s, e), visited, used + Outgoing(es, current)[..i + 1])
            && forall n :: n in visited ==> Take(nodes, s, e).depth[n] == s.depth[n]
  {
    var e, taken := Outgoing(es, current)[i], used + Outgoing(es, current)[..i];
    NthOut(es, current, i);
    NextFits(es, used, current, i);
    TakeKeeps(nodes, es, s, visited, taken, e);
    OneMoreTaken(used, Outgoing(es, current), i);
  }

  lemma NthOut(es: seq<Edge>, n: Id, i: nat)
    requires i < |Outgoing(es, n)|
    ensures Outgoing(es, n)[i] in es && Outgoing(es, n)[i].source == n
  {
    assert Outgoing(es, n)[i] in Outgoing(es, n);
  }

  lemma OneMoreTaken(used: seq<Edge>, out: seq<Edge>, i: nat)
    requires i < |out|
    ensures used + out[..i + 1] == used + out[..i] + [out[i]]
  {}

  /** The main loop's invariant. */
  ghost predicate Going(nodes: map<Id, NodeType>, es: seq<Edge>, s: State, visited: set<Id>, used: seq<Edge>, peak: nat) {
    Walking(nodes, es, s, visited, used) && Complete(es, visited, used) && IsPeak(s.depth, visited, peak)
  }

  /** What the pass finds: levels that fit together, and the largest of them. */
  ghost predicate Found(nodes: map<Id, NodeType>, es: seq<Edge>, depth: map<Id, nat>, r: nat) {
    Joined(nodes, es) && depth.Keys == nodes.Keys && AllLevelled(nodes, es, depth) && IsPeak(depth, nodes.Keys, r)
  }

  ghost predicate IsLargestLevel(nodes: map<Id, NodeType>, es: seq<Edge>, r: nat) {
    exists depth :: Found(nodes, es, depth, r)
  }

  lemma VisitNext(nodes: map<Id, NodeType>, es: seq<Edge>, s: State, visited: set<Id>, used: seq<Edge>, peak: nat, t: State)
    requires Going(nodes, es, s, visited, used, peak) && s.queue != []
    requires var current := s.queue[0];
             && Walking(nodes, es, t, visited + {current}, used + Outgoing(es, current))
             && forall n :: n in visited + {current} ==> n in s.depth && n in t.depth && t.depth[n] == s.depth[n]
    ensures Going(nodes, es, t, visited + {s.queue[0]}, used + Outgoing(es, s.queue[0]), Max(peak, s.depth[s.queue[0]]))
  {
    var current := s.queue[0];
    PopKeeps(nodes, es, s, visited, used);
    AllTaken(es, visited, used, current);
    PeakGrows(s.depth, visited, peak, current);
    PeakStays(s.depth, t.depth, visited + {current}, Max(peak, s.depth[current]));
  }

  lemma LevelsCarry(nodes: map<Id, NodeType>, used: seq<Edge>, es: seq<Edge>, depth: map<Id, nat>, n: Id)
    requires Joined(nodes, used) && Joined(nodes, es) && depth.Keys == nodes.Keys && n in nodes && Levelled(nodes, used, depth, n)
    requires forall e :: e in used <==> e in es
    ensures Levelled(nodes, es, depth, n)
  {
    if depth[n] != 0 {
      var e :| e in used && e.target == n && Passed(nodes, depth, e) == depth[n];
      assert e in es;
    }
  }

  lemma AllUsed(es: seq<Edge>, visited: set<Id>, used: seq<Edge>)
    requires Complete(es, visited, used) && multiset(used) <= multiset(es) && forall e :: e in es ==> e.source in visited
    ensures forall e :: e in used <==> e in es
  {
    forall e ensures e in used <==> e in es {
      if e in es { assert multiset(used)[e] == multiset(es)[e]; }
      if e in used { assert multiset(used)[e] <= multiset(es)[e]; }
    }
  }

  lemma AllCarry(nodes: map<Id, NodeType>, used: seq<Edge>, es: seq<Edge>, depth: map<Id, nat>)
    requires Joined(nodes, used) && Joined(nodes, es) && depth.Keys == nodes.Keys && AllLevelled(nodes, used, depth)
    requires forall e :: e in used <==> e in es
    ensures AllLevelled(nodes, es, depth)
  {
    forall n | n in nodes ensures Levelled(nodes, es, depth, n) {
      assert Levelled(nodes, used, depth, n);
      LevelsCarry(nodes, used, es, depth, n);
    }
  }

  lemma PassEnds(nodes: map<Id, NodeType>, es: seq<Edge>, s: State, visited: set<Id>, used: seq<Edge>, peak: nat, rank: map<Id, nat>)
    requires Going(nodes, es, s, visited, used, peak) && s.queue == [] && TopologicallyRanked(es, rank)
    ensures visited == nodes.Keys && Found(nodes, es, s.depth, peak)
  {
    forall n | n in nodes ensures n in visited { VisitedAt(nodes, es, rank, s, visited, used, n); }
    AllUsed(es, visited, used);
    AllCarry(nodes, used, es, s.depth);
  }

  lemma PassStarts(nodes: map<Id, NodeType>, es: seq<Edge>, s: State)
    requires Joined(nodes, es) && s.indegree.Keys == nodes.Keys && forall n :: n in nodes ==> s.indegree[n] == |Incoming(es, n)|
    requires s.depth == map n | n in nodes :: 0
    requires NoRepeat(s.queue) && forall n :: n in s.queue <==> n in nodes && s.indegree[n] == 0
    ensures Going(nodes, es, s, {}, [], 0)
  {}

  /**
   `_nesting_depth`: on a graph without a cycle the pass visits every node, and the result is the
   largest of the levels, which are determined by the edges.
   */
  method Pass(nodes: map<Id, NodeType>, edges: seq<Edge>) returns (r: nat)
    ensures (exists rank :: TopologicallyRanked(Inside(nodes, edges), rank)) ==> IsLargestLevel(nodes, Inside(nodes, edges), r)
  {
    var es := Inside(nodes, edges);
    var indegree := CountIn(nodes, es);
    var queue := DataFlow.Zeros(indegree);
    var state := State(indegree, map n | n in nodes :: 0, queue);
    r := 0;
    ghost var visited: set<Id>, used: seq<Edge> := {}, [];
    PassStarts(nodes, es, state);
    while state.queue != []
      invariant Going(nodes, es, state, visited, used, r)
      decreases nodes.Keys - visited
    {
      ghost var before, peak := state, r;
      PopKeeps(nodes, es, state, visited, used);
      var current := state.queue[0];
      r := Max(r, state.depth[current]);
      state := TakeAll(nodes, es, current, state.(queue := state.queue[1..]), visited + {current}, used);
      VisitNext(nodes, es, before, visited, used, peak, state);
      visited, used := visited + {current}, used + Outgoing(es, current);
    }
    forall rank | TopologicallyRanked(es, rank) ensures IsLargestLevel(nodes, es, r) {
      PassEnds(nodes, es, state, visited, used, r, rank);
    }
  }

  // --- levels of a block term ---------------------------------------------------------------------

  /** The level at which a chain entered at `level` is left. */
  function Exit(b: Block, level: nat): nat
    decreases b, 0
  {
    match b
    case Task(_, _, next) => Exit(next, level)
    case Gateway(_, _, _, branches, next) => Exit(next, JoinLevel(branches, level))
    case _ => level
  }

  /** What a branch of a split at `level` passes on to the join: an empty branch one level more. */
  function Leaving(body: Block, level: nat): nat
    decreases body, 1
  {
    if !body.Task? && !body.Gateway? then level + 1
    else if Exit(body, level + 1) >= 1 then Exit(body, level + 1) - 1 else 0
  }

  function JoinLevel(b: Block, level: nat): nat
    decreases b, 0
  {
    if b.Branch? then Max(Leaving(b.body, level), JoinLevel(b.more, level)) else 0
  }

  /** The depths of the nodes of a term entered at `level`. */
  ghost predicate Depths(depth: map<Id, nat>, b: Block, level: nat) {
    match b
    case Done => true
    case Task(id, _, next) => id in depth && depth[id] == level && Depths(depth, next, level)
    case Gateway(_, s, j, branches, next) =>
      && s in depth && depth[s] == level && j in depth && depth[j] == JoinLevel(branches, level)
      && Depths(depth, branches, level + 1) && Depths(depth, next, JoinLevel(branches, level))
    case NoBranch => true
    case Branch(body, more) => Depths(depth, body, level) && Depths(depth, more, level)
  }

  /** A schema and levels that fit its edges. */
  ghost predicate Levels(g: Schema, depth: map<Id, nat>) {
    Joined(g.nodes, g.edges) && depth.Keys == g.nodes.Keys && AllLevelled(g.nodes, g.edges, depth)
  }

  lemma SoleLevel(g: Schema, depth: map<Id, nat>, e: Edge)
    requires Levels(g, depth) && e in g.edges && forall f :: f in g.edges && f.target == e.target ==> f == e
    ensures e.target in depth && depth[e.target] == Passed(g.nodes, depth, e)
  {
    assert Levelled(g.nodes, g.edges, depth, e.target);
  }

  /** What is known where a chain is entered. */
  ghost predicate EnteredAt(g: Schema, depth: map<Id, nat>, b: Block, src: Id, dst: Id, level: nat) {
    && Levels(g, depth) && IsChain(b) && Embedded(g.nodes, multiset(g.edges), b, src, dst)
    && (!b.Done? ==> src in g.nodes && First(b, dst) in g.nodes && Passed(g.nodes, depth, Edge(src, First(b, dst))) == level)
  }

  /** What is known where a chain is left: through a node that is no split, at its exit level. */
  ghost predicate LeftAt(g: Schema, depth: map<Id, nat>, b: Block, src: Id, level: nat) {
    !b.Done? ==> Last(b, src) in g.nodes && Last(b, src) in depth && !g.nodes[Last(b, src)].IsSplit() && depth[Last(b, src)] == Exit(b, level)
  }

  lemma HeadLevel(g: Schema, depth: map<Id, nat>, b: Block, src: Id, dst: Id, level: nat)
    requires EnteredAt(g, depth, b, src, dst, level) && !b.Done?
    ensures First(b, dst) in depth && depth[First(b, dst)] == level
  {
    OnlyIncoming(g, b, src, dst, First(b, dst));
    SoleLevel(g, depth, Edge(src, First(b, dst)));
  }

  /** Behind a step or a join the chain goes on at the same level. */
  lemma NextEntered(g: Schema, depth: map<Id, nat>, b: Block, src: Id, dst: Id, level: nat)
    requires Levels(g, depth) && IsChain(b) && !b.Done? && Embedded(g.nodes, multiset(g.edges), b, src, dst)
    requires HeadEnd(b, src) in g.nodes && !g.nodes[HeadEnd(b, src)].IsSplit() && depth[HeadEnd(b, src)] == level
    ensures EnteredAt(g, depth, b.next, HeadEnd(b, src), dst, level)
  {
    if b.Task? { EmbeddedTask(g.nodes, multiset(g.edges), b, src, dst); } else { EmbeddedGateway(g.nodes, multiset(g.edges), b, src, dst); }
    FirstType(g, b.next, dst);
  }

  /** On every graph the levels of a block are those of its term. */
  lemma {:induction false} TermDepths(g: Schema, depth: map<Id, nat>, b: Block, src: Id, dst: Id, level: nat)
    requires EnteredAt(g, depth, b, src, dst, level)
    ensures Depths(depth, b, level) && LeftAt(g, depth, b, src, level)
    decreases b, 0
  {
    match b
    case Done =>
    case Task(id, _, next) =>
      HeadLevel(g, depth, b, src, dst, level);
      NextEntered(g, depth, b, src, dst, level);
      TermDepths(g, depth, next, id, dst, level);
    case Gateway(_, _, j, branches, next) =>
      HeadLevel(g, depth, b, src, dst, level);
      GatewayDepths(g, depth, b, src, dst, level);
      NextEntered(g, depth, b, src, dst, JoinLevel(branches, level));
      TermDepths(g, depth, next, j, dst, JoinLevel(branches, level));
  }

  lemma GatewayDepths(g: Schema, depth: map<Id, nat>, b: Block, src: Id, dst: Id, level: nat)
    requires Levels(g, depth) && IsChain(b) && b.Gateway? && Embedded(g.nodes, multiset(g.edges), b, src, dst)
    requires b.split in depth && depth[b.split] == level
    ensures b.join in depth && depth[b.join] == JoinLevel(b.branches, level) && Depths(depth, b.branches, level + 1)
    decreases b.branches, 2
  {
    EmbeddedGateway(g.nodes, multiset(g.edges), b, src, dst);
    BundleDepths(g, depth, b.branches, b.split, b.join, level);
    JoinDepth(g, depth, b, src, dst, level);
  }

  /** What a bundle passes on to its join. */
  ghost predicate PassesOn(g: Schema, depth: map<Id, nat>, ports: set<Port>, level: nat) {
    && (forall p :: p in ports ==>
          && p.exit.source in g.nodes && p.exit.source in depth && p.exit.target in g.nodes
          && Passed(g.nodes, depth, p.exit) <= level)
    && (ports != {} ==> exists p :: p in ports && Passed(g.nodes, depth, p.exit) == level)
  }

  lemma {:induction false} BundleDepths(g: Schema, depth: map<Id, nat>, b: Block, s: Id, j: Id, level: nat)
    requires Levels(g, depth) && IsBundle(b) && Embedded(g.nodes, multiset(g.edges), b, s, j)
    requires s in g.nodes && g.nodes[s].IsSplit() && depth[s] == level && j in g.nodes && g.nodes[j].IsJoin()
    ensures Depths(depth, b, level + 1) && PassesOn(g, depth, Ports(b, s, j), JoinLevel(b, level))
    decreases b, 1
  {
    if b.Branch? {
      EmbeddedBranch(g.nodes, multiset(g.edges), b, s, j);
      BranchDepths(g, depth, b.body, s, j, level);
      BundleDepths(g, depth, b.more, s, j, level);
      SomePort(b.more, s, j);
      PassesBoth(g, depth, Ports(b.body, s, j), Ports(b.more, s, j), Leaving(b.body, level), JoinLevel(b.more, level), b.more.Branch?);
    }
  }

  lemma SomePort(b: Block, s: Id, j: Id)
    requires IsBundle(b)
    ensures Ports(b, s, j) != {} <==> b.Branch?
  {
    if b.Branch? {
      var p := ChainPort(b.body, s, j);
      assert p in Ports(b, s, j);
    }
  }

  lemma BranchDepths(g: Schema, depth: map<Id, nat>, body: Block, s: Id, j: Id, level: nat)
    requires Levels(g, depth) && IsChain(body) && Embedded(g.nodes, multiset(g.edges), body, s, j)
    requires s in g.nodes && g.nodes[s].IsSplit() && depth[s] == level && j in g.nodes && g.nodes[j].IsJoin()
    ensures Depths(depth, body, level + 1) && Ports(body, s, j) != {} && PassesOn(g, depth, Ports(body, s, j), Leaving(body, level))
    decreases body, 1
  {
    FirstType(g, body, j);
    TermDepths(g, depth, body, s, j, level + 1);
    BranchPasses(g, depth, body, s, j, level);
  }

  lemma BranchPasses(g: Schema, depth: map<Id, nat>, body: Block, s: Id, j: Id, level: nat)
    requires Levels(g, depth) && IsChain(body) && LeftAt(g, depth, body, s, level + 1)
    requires s in g.nodes && g.nodes[s].IsSplit() && depth[s] == level && j in g.nodes && g.nodes[j].IsJoin()
    ensures PassesOn(g, depth, Ports(body, s, j), Leaving(body, level))
  {
    var p := Port(Edge(s, First(body, j)), Edge(Last(body, s), j));
    assert Ports(body, s, j) == {p};
    assert Passed(g.nodes, depth, p.exit) == Leaving(body, level);
  }

  lemma PassesBoth(g: Schema, depth: map<Id, nat>, a: set<Port>, b: set<Port>, x: nat, y: nat, some: bool)
    requires PassesOn(g, depth, a, x) && PassesOn(g, depth, b, y) && a != {} && (!some ==> b == {} && y == 0)
    requires some ==> b != {}
    ensures PassesOn(g, depth, a + b, Max(x, y))
  {
    var p :| p in a && Passed(g.nodes, depth, p.exit) == x;
    assert p in a + b;
    if some {
      var q :| q in b && Passed(g.nodes, depth, q.exit) == y;
      assert q in a + b;
    }
  }

  lemma JoinDepth(g: Schema, depth: map<Id, nat>, b: Block, src: Id, dst: Id, level: nat)
    requires Levels(g, depth) && IsChain(b) && b.Gateway? && Embedded(g.nodes, multiset(g.edges), b, src, dst)
    requires PassesOn(g, depth, Ports(b.branches, b.split, b.join), JoinLevel(b.branches, level))
    ensures b.join in depth && depth[b.join] == JoinLevel(b.branches, level)
  {
    var ports := Ports(b.branches, b.split, b.join);
    GatewayIsBundled(g, b, src, dst);
    assert Levelled(g.nodes, g.edges, depth, b.join);
    var p :| p in ports && Passed(g.nodes, depth, p.exit) == JoinLevel(b.branches, level);
    assert Passed(g.nodes, depth, p.exit) <= depth[b.join];
    if depth[b.join] != 0 {
      var e :| e in g.edges && e.target == b.join && Passed(g.nodes, depth, e) == depth[b.join];
      assert IsExit(ports, e);
    }
  }

  /** The largest level inside a term entered at `level`. */
  function Deepest(b: Block, level: nat): nat {
    match b
    case Done => 0
    case Task(_, _, next) => Max(level, Deepest(next, level))
    case Gateway(_, _, _, branches, next) =>
      Max(Max(level, JoinLevel(branches, level)), Max(Deepest(branches, level + 1), Deepest(next, JoinLevel(branches, level))))
    case NoBranch => 0
    case Branch(body, more) => Max(Deepest(body, level), Deepest(more, level))
  }

  /** The number the pass returns for a process, empty branches or not. */
  function Peak(p: Process): nat {
    Max(Exit(p.body, 0), Deepest(p.body, 0))
  }

  lemma {:induction false} DeepestIsPeak(depth: map<Id, nat>, b: Block, level: nat)
    requires Depths(depth, b, level)
    ensures Ids(b) <= depth.Keys && IsPeak(depth, Ids(b), Deepest(b, level))
  {
    match b
    case Done =>
    case Task(id, _, next) =>
      DeepestIsPeak(depth, next, level);
      PeakGrows(depth, Ids(next), Deepest(next, level), id);
      assert Ids(b) == Ids(next) + {id};
    case Gateway(_, s, j, branches, next) =>
      DeepestIsPeak(depth, branches, level + 1);
      DeepestIsPeak(depth, next, JoinLevel(branches, level));
      PeakUnion(depth, Ids(branches), Ids(next), Deepest(branches, level + 1), Deepest(next, JoinLevel(branches, level)));
      var inner := Max(Deepest(branches, level + 1), Deepest(next, JoinLevel(branches, level)));
      PeakGrows(depth, Ids(branches) + Ids(next), inner, s);
      PeakGrows(depth, Ids(branches) + Ids(next) + {s}, Max(inner, level), j);
      assert Ids(b) == Ids(branches) + Ids(next) + {s} + {j};
    case NoBranch =>
    case Branch(body, more) =>
      DeepestIsPeak(depth, body, level);
      DeepestIsPeak(depth, more, level);
      PeakUnion(depth, Ids(body), Ids(more), Deepest(body, level), Deepest(more, level));
  }

  lemma PeakUnion(depth: map<Id, nat>, a: set<Id>, b: set<Id>, x: nat, y: nat)
    requires IsPeak(depth, a, x) && IsPeak(depth, b, y)
    ensures IsPeak(depth, a + b, Max(x, y))
  {
    if x > 0 { var n :| n in a && n in depth && depth[n] == x; assert n in a + b; }
    if y > 0 { var n :| n in b && n in depth && depth[n] == y; assert n in a + b; }
  }

  lemma OnePeak(depth: map<Id, nat>, of: set<Id>, x: nat, y: nat)
    requires IsPeak(depth, of, x) && IsPeak(depth, of, y)
    ensures x == y
  {}

  /** START and END have the levels of the ends of the term. */
  lemma EndLevels(g: Schema, p: Process, depth: map<Id, nat>)
    requires Flattens(g, p) && Levels(g, depth)
    ensures p.start in depth && depth[p.start] == 0 && Depths(depth, p.body, 0) && p.end in depth && depth[p.end] == Exit(p.body, 0)
  {
    EndsConnected(g, p);
    TypedEnds(g, p);
    assert Levelled(g.nodes, g.edges, depth, p.start);
    FirstType(g, p.body, p.end);
    TermDepths(g, depth, p.body, p.start, p.end, 0);
    var port := ChainPort(p.body, p.start, p.end);
    assert port.exit in multiset(g.edges);
    forall e | e in g.edges && e.target == p.end ensures e == port.exit {
      assert e in multiset(g.edges);
      ExitEdge(p.body, p.start, p.end, e);
    }
    SoleLevel(g, depth, port.exit);
  }

  /** The result of the pass on the flattening of a term. */
  lemma FoundIsPeak(g: Schema, p: Process, depth: map<Id, nat>, r: nat)
    requires Flattens(g, p) && Found(g.nodes, g.edges, depth, r)
    ensures r == Peak(p)
  {
    EndLevels(g, p, depth);
    DeepestIsPeak(depth, p.body, 0);
    PeakGrows(depth, Ids(p.body), Deepest(p.body, 0), p.start);
    PeakGrows(depth, Ids(p.body) + {p.start}, Deepest(p.body, 0), p.end);
    assert Ids(p.body) + {p.start} + {p.end} == g.nodes.Keys;
    OnePeak(depth, g.nodes.Keys, r, Max(Deepest(p.body, 0), Exit(p.body, 0)));
  }

  /** `_nesting_depth` of a block-structured schema. */
  method NestingDepth(g: Schema, ghost p: Process) returns (r: nat)
    requires Flattens(g, p)
    ensures r == Peak(p) >= Nesting(p.body)
    ensures r == Nesting(p.body) <==> FitsIn(p.body, Nesting(p.body))
    ensures NoEmptyBranch(p.body) ==> r == Nesting(p.body)
  {
    r := Pass(g.nodes, g.edges);
    EndsConnected(g, p);
    FlatteningIsAcyclic(g, p);
    ghost var rank :| Ranked(g, rank);
    assert Joined(g.nodes, g.edges);
    assert TopologicallyRanked(Inside(g.nodes, g.edges), rank);
    ghost var depth :| Found(g.nodes, g.edges, depth, r);
    FoundIsPeak(g, p, depth, r);
    PeakIsNestingIff(p);
    if NoEmptyBranch(p.body) { NothingPushed(p.body); ChainHeight(p.body, 0); }
  }

  // --- the nesting depth of a term -----------------------------------------------------------------

  /** How deep gateway blocks are nested. */
  function Nesting(b: Block): nat {
    match b
    case Task(_, _, next) => Nesting(next)
    case Gateway(_, _, _, branches, next) => Max(1 + Nesting(branches), Nesting(next))
    case Branch(body, more) => Max(Nesting(body), Nesting(more))
    case _ => 0
  }

  predicate NoEmptyBranch(b: Block) {
    match b
    case Task(_, _, next) => NoEmptyBranch(next)
    case Gateway(_, _, _, branches, next) => NoEmptyBranch(branches) && NoEmptyBranch(next)
    case Branch(body, more) => !body.Done? && NoEmptyBranch(body) && NoEmptyBranch(more)
    case _ => true
  }

  predicate HasEmpty(b: Block) {
    b.Branch? && (b.body.Done? || HasEmpty(b.more))
  }

  // --- what empty branches do to the levels -----------------------------------------------------

  /** How many levels higher than it was entered a chain is left, or a gateway with these branches. */
  function Lift(b: Block): nat {
    match b
    case Task(_, _, next) => Lift(next)
    case Gateway(_, _, _, branches, next) => Lift(branches) + Lift(next)
    case Branch(body, more) => Max(if body.Done? then 1 else Lift(body), Lift(more))
    case _ => 0
  }

  lemma {:induction false} ExitLift(b: Block, level: nat)
    requires IsChain(b)
    ensures Exit(b, level) == level + Lift(b)
    decreases b, 0
  {
    match b
    case Done =>
    case Task(_, _, next) => ExitLift(next, level);
    case Gateway(_, _, _, branches, next) =>
      JoinLift(branches, level);
      ExitLift(next, JoinLevel(branches, level));
  }

  lemma {:induction false} JoinLift(b: Block, level: nat)
    requires IsBundle(b) && b.Branch?
    ensures JoinLevel(b, level) == level + Lift(b)
    decreases b, 0
  {
    LeavingLift(b.body, level);
    if b.more.Branch? { JoinLift(b.more, level); } else { assert JoinLevel(b.more, level) == 0 == Lift(b.more); }
  }

  lemma LeavingLift(body: Block, level: nat)
    requires IsChain(body)
    ensures Leaving(body, level) == level + if body.Done? then 1 else Lift(body)
    decreases body, 1
  {
    if !body.Done? { ExitLift(body, level + 1); }
  }

  /** Nothing is lifted exactly when there is no empty branch, at any depth. */
  lemma {:induction false} LiftIff(b: Block)
    requires IsChain(b) || IsBundle(b)
    ensures Lift(b) == 0 <==> NoEmptyBranch(b)
  {
    match b
    case Task(_, _, next) => LiftIff(next);
    case Gateway(_, _, _, branches, next) => LiftIff(branches); LiftIff(next);
    case Branch(body, more) => LiftIff(body); LiftIff(more);
    case _ =>
  }

  /** A chain is left at the level it was entered at exactly when it has no empty branch, at any depth. */
  lemma ExitIff(b: Block, level: nat)
    requires IsChain(b)
    ensures Exit(b, level) >= level && (Exit(b, level) == level <==> NoEmptyBranch(b))
  {
    ExitLift(b, level);
    LiftIff(b);
  }

  /** The gateways of a chain, not counting nested ones, that have an empty branch. */
  function Bypassed(b: Block): nat {
    match b
    case Task(_, _, next) => Bypassed(next)
    case Gateway(_, _, _, branches, next) => (if HasEmpty(branches) then 1 else 0) + Bypassed(next)
    case _ => 0
  }

  /** Every gateway with an empty branch lifts all that follows: the lifts of a chain add up. */
  lemma {:induction false} EmptyBranchesAddUp(b: Block, level: nat)
    requires IsChain(b)
    ensures Exit(b, level) == level + Lift(b) && Lift(b) >= Bypassed(b)
  {
    ExitLift(b, level);
    match b
    case Done =>
    case Task(_, _, next) => EmptyBranchesAddUp(next, level);
    case Gateway(_, _, _, branches, next) =>
      if HasEmpty(branches) { EmptyLifts(branches); }
      EmptyBranchesAddUp(next, level);
  }

  lemma {:induction false} EmptyLifts(b: Block)
    requires IsBundle(b) && HasEmpty(b)
    ensures Lift(b) >= 1
  {
    if !b.body.Done? { EmptyLifts(b.more); }
  }

  /** The nesting depth with every block as deep as the lifts in front of it make it. */
  function Height(b: Block): nat {
    match b
    case Task(_, _, next) => Height(next)
    case Gateway(_, _, _, branches, next) => Max(1 + Height(branches), Lift(branches) + Height(next))
    case Branch(body, more) => Max(Height(body), Height(more))
    case _ => 0
  }

  /** The last node of a chain is not above its deepest one. */
  lemma {:induction false} ExitIsInside(b: Block, level: nat)
    requires IsChain(b) && !b.Done?
    ensures Deepest(b, level) >= level && Deepest(b, level) >= Exit(b, level)
  {
    match b
    case Task(_, _, next) =>
      if !next.Done? { ExitIsInside(next, level); }
    case Gateway(_, _, _, branches, next) =>
      if !next.Done? { ExitIsInside(next, JoinLevel(branches, level)); }
  }

  lemma {:induction false} ChainHeight(b: Block, level: nat)
    requires IsChain(b)
    ensures Max(Max(level, Exit(b, level)), Deepest(b, level)) == level + Height(b)
    decreases b, 1
  {
    match b
    case Done =>
    case Task(_, _, next) => ChainHeight(next, level);
    case Gateway(_, _, _, branches, next) =>
      JoinLift(branches, level);
      BundleHeight(branches, level);
      ChainHeight(next, JoinLevel(branches, level));
  }

  lemma {:induction false} BundleHeight(b: Block, level: nat)
    requires IsBundle(b) && b.Branch?
    ensures Max(JoinLevel(b, level), Deepest(b, level + 1)) == level + 1 + Height(b)
    decreases b, 1
  {
    BranchHeight(b.body, level);
    if b.more.Branch? {
      BundleHeight(b.more, level);
    } else {
      assert JoinLevel(b.more, level) == 0 && Deepest(b.more, level + 1) == 0 && Height(b.more) == 0;
    }
  }

  lemma BranchHeight(body: Block, level: nat)
    requires IsChain(body)
    ensures Max(Leaving(body, level), Deepest(body, level + 1)) == level + 1 + Height(body)
    decreases body, 2
  {
    LeavingLift(body, level);
    if !body.Done? {
      ChainHeight(body, level + 1);
      ExitIsInside(body, level + 1);
      ExitLift(body, level + 1);
    }
  }

  /** Lifts never make a term flatter. */
  lemma {:induction false} HeightAtLeast(b: Block)
    ensures Height(b) >= Nesting(b)
  {
    match b
    case Task(_, _, next) => HeightAtLeast(next);
    case Gateway(_, _, _, branches, next) => HeightAtLeast(branches); HeightAtLeast(next);
    case Branch(body, more) => HeightAtLeast(body); HeightAtLeast(more);
    case _ =>
  }

  /** Every block, with the lifts in front of it, finds room for its own nesting. */
  predicate FitsIn(b: Block, room: nat) {
    match b
    case Task(_, _, next) => FitsIn(next, room)
    case Gateway(_, _, _, branches, next) =>
      room >= 1 && FitsIn(branches, room - 1) && room >= Lift(branches) && FitsIn(next, room - Lift(branches))
    case Branch(body, more) => FitsIn(body, room) && FitsIn(more, room)
    case _ => true
  }

  lemma {:induction false} FitsIff(b: Block, room: nat)
    ensures FitsIn(b, room) <==> Height(b) <= room
  {
    match b
    case Task(_, _, next) => FitsIff(next, room);
    case Gateway(_, _, _, branches, next) =>
      if room >= 1 { FitsIff(branches, room - 1); }
      if room >= Lift(branches) { FitsIff(next, room - Lift(branches)); }
    case Branch(body, more) => FitsIff(body, room); FitsIff(more, room);
    case _ =>
  }

  /**
   The result is never below the nesting depth, and it is the nesting depth exactly when no block is
   pushed beyond it by the gateways with empty branches in front of it.
   */
  lemma PeakIsNestingIff(p: Process)
    requires IsChain(p.body)
    ensures Peak(p) >= Nesting(p.body)
    ensures Peak(p) == Nesting(p.body) <==> FitsIn(p.body, Nesting(p.body))
  {
    ChainHeight(p.body, 0);
    HeightAtLeast(p.body);
    FitsIff(p.body, Nesting(p.body));
  }

  /** Without empty branches everything fits. */
  lemma {:induction false} NothingPushed(b: Block)
    requires IsChain(b) || IsBundle(b)
    requires NoEmptyBranch(b)
    ensures Height(b) == Nesting(b)
  {
    match b
    case Task(_, _, next) => NothingPushed(next);
    case Gateway(_, _, _, branches, next) =>
      LiftIff(branches);
      NothingPushed(branches);
      NothingPushed(next);
    case Branch(body, more) => NothingPushed(body); NothingPushed(more);
    case _ =>
  }

  /** An AND block with one activity and one empty branch. */
  function BypassedBlock(s: Id, j: Id, a: Id, next: Block): Block {
    Gateway(AND, s, j, Branch(Task(a, ACTIVITY, Done), Branch(Done, NoBranch)), next)
  }

  /** One bypassed gateway does no harm; of two in a row the second counts as if it were nested. */
  lemma TwoInARow(start: Id, end: Id, s: Id, j: Id, a: Id, t: Id, k: Id, b: Id)
    ensures var p := Process(start, end, BypassedBlock(s, j, a, Done));
            IsChain(p.body) && !NoEmptyBranch(p.body) && Peak(p) == Nesting(p.body) == 1
    ensures var p := Process(start, end, BypassedBlock(s, j, a, BypassedBlock(t, k, b, Done)));
            IsChain(p.body) && Peak(p) == 2 && Nesting(p.body) == 1
  {
    var first, second := BypassedBlock(s, j, a, Done), BypassedBlock(t, k, b, Done);
    OneBypassed(s, j, a, Done);
    OneBypassed(t, k, b, Done);
    OneBypassed(s, j, a, second);
    ChainHeight(first, 0);
    ChainHeight(BypassedBlock(s, j, a, second), 0);
  }

  lemma OneBypassed(s: Id, j: Id, a: Id, next: Block)
    requires IsChain(next)
    ensures var b := BypassedBlock(s, j, a, next);
            && IsChain(b) && !NoEmptyBranch(b) && Lift(b) == 1 + Lift(next)
            && Height(b) == 1 + Height(next) && Nesting(b) == Max(1, Nesting(next))
  {
    StepIsFlat(a, Done);
    EmptyIsFlat(Done, NoBranch);
    TwoBranches(Task(a, ACTIVITY, Done), Branch(Done, NoBranch));
  }

  lemma StepIsFlat(a: Id, next: Block)
    requires next.Done?
    ensures var b := Task(a, ACTIVITY, next); IsChain(b) && NoEmptyBranch(b) && Lift(b) == Height(b) == Nesting(b) == 0
  {}

  lemma EmptyIsFlat(body: Block, more: Block)
    requires body.Done? && more.NoBranch?
    ensures var b := Branch(body, more);
            IsBundle(b) && !NoEmptyBranch(b) && Width(b) == 1 && Lift(b) == 1 && Height(b) == Nesting(b) == 0
  {}

  lemma TwoBranches(body: Block, more: Block)
    requires IsChain(body) && !body.Done? && Lift(body) == Height(body) == Nesting(body) == 0
    requires IsBundle(more) && !NoEmptyBranch(more) && Width(more) == 1 && Lift(more) == 1 && Height(more) == Nesting(more) == 0
    ensures var b := Branch(body, more);
            IsBundle(b) && !NoEmptyBranch(b) && Width(b) == 2 && Lift(b) == 1 && Height(b) == Nesting(b) == 0
  {}
}

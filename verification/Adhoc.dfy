/**
 Ad-hoc changes of one running instance: a serial activity is inserted into, or deleted from, the
 region ahead of the execution front. The instance gets its own schema variant and an adapted
 marking, which satisfies the marking invariant and is again a fixpoint.
 */
module Adhoc {
  import opened Model
  import opened Blocks
  import opened Edits
  import opened Marking
  import opened Validator
  import opened Structure
  import opened Execution
  import opened Operations
  import opened Deletion

  // --- a valid block-structured schema can be run -------------------------------------

  lemma {:induction false} BranchTargetIn(bs: seq<XorBranch>, i: nat)
    requires i < |bs|
    ensures bs[i].target in BranchTargets(bs)
  {
    if i > 0 { BranchTargetIn(bs[1..], i - 1); }
  }

  lemma {:induction false} TargetIn(es: seq<Edge>, t: Id)
    ensures t in Targets(es) <==> exists e :: e in es && e.target == t
  {
    if es != [] { TargetIn(es[1..], t); }
  }

  /** K7 makes every branch of a decision lead along an edge of its split. */
  lemma K7Fits(g: Schema)
    requires K7(g)
    ensures DecisionsFit(g)
  {
    forall n, i | n in g.decisions && 0 <= i < |g.decisions[n].branches|
      ensures Edge(n, g.decisions[n].branches[i].target) in g.edges
    {
      var t := g.decisions[n].branches[i].target;
      BranchTargetIn(g.decisions[n].branches, i);
      assert t in multiset(BranchTargets(g.decisions[n].branches));
      TargetIn(Outgoing(g.edges, n), t);
      var e :| e in Outgoing(g.edges, n) && e.target == t;
      assert e == Edge(n, t);
    }
  }

  lemma FlatteningIsRunnable(g: Schema, p: Process)
    requires Flattens(g, p) && K7(g)
    ensures Runnable(g)
  {
    EveryNodeConnected(g, p);
    FlatteningIsAcyclic(g, p);
    TypedEnds(g, p);
    assert OnlyStart(g, p.start);
    K7Fits(g);
  }

  // --- carrying a marking over to a changed graph -----------------------------------------

  /** Nothing changes about how `m` is entered. */
  ghost predicate SameEntry(g: Schema, c: Schema, x: Instance, y: Instance, m: Id)
    requires Shaped(g, x) && Shaped(c, y)
  {
    && m in g.nodes && m in c.nodes && c.nodes[m] == g.nodes[m] && y.nodeStates[m] == x.nodeStates[m]
    && (forall e: Edge :: e.target == m ==> (e in c.edges <==> e in g.edges))
    && (forall e :: e in g.edges && e in c.edges && e.target == m ==> y.edgeStates[e] == x.edgeStates[e])
  }

  lemma EntryKept(g: Schema, c: Schema, x: Instance, y: Instance, m: Id)
    requires Inv(g, x) && Shaped(c, y) && SameEntry(g, c, x, y, m) && y.decisions == x.decisions
    requires m in y.decisions ==> Edge(m, y.decisions[m]) in c.edges
    ensures NodeOk(c, y, m)
    ensures Settled(g, x) ==> SettledAt(c, y, m)
  {
    assert NodeOk(g, x, m);
    assert Arrived(g, x, m) <==> Arrived(c, y, m);
    assert Enabled(g, x, m) <==> Enabled(c, y, m);
    if Settled(g, x) { assert SettledAt(g, x, m); }
  }

  /** A node that was not reached and waits for an edge that has not been signaled. */
  lemma WaitingNode(c: Schema, y: Instance, m: Id, e: Edge)
    requires Shaped(c, y) && m in c.nodes && y.nodeStates[m].NOT_ACTIVATED? && m !in y.decisions && !c.nodes[m].START?
    requires e in c.edges && e.target == m && y.edgeStates[e] == NOT_SIGNALED
    ensures NodeOk(c, y, m) && SettledAt(c, y, m)
  {}

  // --- insertion ----------------------------------------------------------------------------

  /** The marking after an ad-hoc insertion of `n` into the edge from `after` to `h`. */
  function InsertMarking(x: Instance, after: Id, n: Id, h: Id): Instance {
    x.(nodeStates := x.nodeStates[n := NOT_ACTIVATED],
       edgeStates := (x.edgeStates - {Edge(after, h)})[Edge(after, n) := NOT_SIGNALED][Edge(n, h) := NOT_SIGNALED])
  }

  /** `c` is `g` with the fresh step `n` spliced into the only edge that leaves `after`. */
  ghost predicate StepInserted(g: Schema, c: Schema, after: Id, n: Id, h: Id) {
    && n !in g.nodes && after in g.nodes && h in g.nodes
    && c.nodes == g.nodes[n := ACTIVITY]
    && (forall e :: e in c.edges <==> (e in g.edges && e != Edge(after, h)) || e == Edge(after, n) || e == Edge(n, h))
    && (forall e :: e in g.edges && e.source == after <==> e == Edge(after, h))
  }

  /** An insertion ahead of the execution front keeps the invariant, the fixpoint and every node's state. */
  lemma InsertKeepsInv(g: Schema, c: Schema, x: Instance, after: Id, n: Id, h: Id)
    requires Inv(g, x) && StepInserted(g, c, after, n, h)
    requires !g.nodes[after].XOR_SPLIT? && !g.nodes[h].START? && x.edgeStates[Edge(after, h)] == NOT_SIGNALED
    ensures Inv(c, InsertMarking(x, after, n, h))
    ensures Settled(g, x) ==> Settled(c, InsertMarking(x, after, n, h))
  {
    var y := InsertMarking(x, after, n, h);
    InsertShaped(g, c, x, after, n, h);
    InsertTold(g, c, x, after, n, h);
    assert NodeOk(g, x, h) && Edge(after, h) in g.edges;
    WaitingNode(c, y, n, Edge(after, n));
    WaitingNode(c, y, h, Edge(n, h));
    forall m | m in g.nodes && m != h ensures NodeOk(c, y, m) && (Settled(g, x) ==> SettledAt(c, y, m)) {
      assert NodeOk(g, x, m);
      EntryKept(g, c, x, y, m);
    }
  }

  lemma InsertShaped(g: Schema, c: Schema, x: Instance, after: Id, n: Id, h: Id)
    requires Inv(g, x) && StepInserted(g, c, after, n, h)
    ensures Shaped(c, InsertMarking(x, after, n, h))
  {}

  lemma InsertTold(g: Schema, c: Schema, x: Instance, after: Id, n: Id, h: Id)
    requires Inv(g, x) && StepInserted(g, c, after, n, h)
    requires !g.nodes[after].XOR_SPLIT? && x.edgeStates[Edge(after, h)] == NOT_SIGNALED
    ensures var y := InsertMarking(x, after, n, h);
            Shaped(c, y) && forall e {:trigger y.edgeStates[e]} :: e in c.edges ==> y.edgeStates[e] == Told(c, y, e)
  {
    var y := InsertMarking(x, after, n, h);
    InsertShaped(g, c, x, after, n, h);
    assert x.edgeStates[Edge(after, h)] == Told(g, x, Edge(after, h));
    forall e | e in c.edges ensures y.edgeStates[e] == Told(c, y, e) {
      if e in g.edges { assert x.edgeStates[e] == Told(g, x, e); }
    }
  }

  // --- deletion -------------------------------------------------------------------------------

  /** The marking after an ad-hoc deletion of `n` between `before` and `h`. */
  function DeleteMarking(x: Instance, before: Id, n: Id, h: Id): Instance {
    x.(nodeStates := x.nodeStates - {n},
       edgeStates := (x.edgeStates - {Edge(before, n), Edge(n, h)})[Edge(before, h) := NOT_SIGNALED])
  }

  /** `c` is `g` without the step `n`, its neighbours connected. */
  ghost predicate StepDeleted(g: Schema, c: Schema, before: Id, n: Id, h: Id) {
    && n in g.nodes && before in g.nodes && h in g.nodes && before != n && h != n
    && c.nodes == g.nodes - {n}
    && (forall e :: e in c.edges <==> (e in g.edges && !Touches(e, {n})) || e == Edge(before, h))
    && (forall e :: e in g.edges && e.target == n <==> e == Edge(before, n))
    && (forall e :: e in g.edges && e.source == n <==> e == Edge(n, h))
  }

  /** A deletion ahead of the execution front keeps the invariant, the fixpoint and every other node's state. */
  lemma DeleteKeepsInv(g: Schema, c: Schema, x: Instance, before: Id, n: Id, h: Id)
    requires Inv(g, x) && Settled(g, x) && StepDeleted(g, c, before, n, h)
    requires g.nodes[n].ACTIVITY? && x.nodeStates[n].NOT_ACTIVATED? && !g.nodes[before].XOR_SPLIT? && !g.nodes[h].START?
    ensures Inv(c, DeleteMarking(x, before, n, h)) && Settled(c, DeleteMarking(x, before, n, h))
  {
    var y := DeleteMarking(x, before, n, h);
    BeforeIsOpen(g, x, before, n, h);
    DeleteTold(g, c, x, before, n, h);
    assert NodeOk(g, x, n);
    forall m | m in c.nodes ensures NodeOk(c, y, m) && SettledAt(c, y, m) { DeleteNodeOk(g, c, x, before, n, h, m); }
    forall m
      ensures m in c.nodes && c.nodes[m].END? && y.nodeStates[m].COMPLETED?
         <==> m in g.nodes && g.nodes[m].END? && x.nodeStates[m].COMPLETED?
    {}
  }

  lemma DeleteNodeOk(g: Schema, c: Schema, x: Instance, before: Id, n: Id, h: Id, m: Id)
    requires Inv(g, x) && Settled(g, x) && StepDeleted(g, c, before, n, h) && m in c.nodes
    requires !g.nodes[h].START? && !x.nodeStates[before].Finished() && x.nodeStates[h].NOT_ACTIVATED?
    ensures var y := DeleteMarking(x, before, n, h); Shaped(c, y) && NodeOk(c, y, m) && SettledAt(c, y, m)
  {
    var y := DeleteMarking(x, before, n, h);
    DeleteShaped(g, c, x, before, n, h);
    assert NodeOk(g, x, m);
    if m == h { WaitingNode(c, y, h, Edge(before, h)); } else { EntryKept(g, c, x, y, m); }
  }

  lemma DeleteShaped(g: Schema, c: Schema, x: Instance, before: Id, n: Id, h: Id)
    requires Inv(g, x) && StepDeleted(g, c, before, n, h)
    ensures Shaped(c, DeleteMarking(x, before, n, h))
  {}

  /** The node before an unreached step has not finished, and the node behind it is not reached. */
  lemma BeforeIsOpen(g: Schema, x: Instance, before: Id, n: Id, h: Id)
    requires Inv(g, x) && n in g.nodes && SettledAt(g, x, n) && x.nodeStates[n].NOT_ACTIVATED?
    requires h in g.nodes && before in g.nodes && !g.nodes[before].XOR_SPLIT? && !g.nodes[h].START?
    requires Edge(n, h) in g.edges
    requires forall e :: e in g.edges && e.target == n <==> e == Edge(before, n)
    ensures !x.nodeStates[before].Finished() && x.nodeStates[h].NOT_ACTIVATED?
  {
    assert x.edgeStates[Edge(before, n)] == Told(g, x, Edge(before, n));
    assert x.edgeStates[Edge(n, h)] == Told(g, x, Edge(n, h));
    assert NodeOk(g, x, h);
  }

  lemma DeleteTold(g: Schema, c: Schema, x: Instance, before: Id, n: Id, h: Id)
    requires Inv(g, x) && StepDeleted(g, c, before, n, h) && !x.nodeStates[before].Finished()
    ensures var y := DeleteMarking(x, before, n, h);
            Shaped(c, y) && forall e {:trigger y.edgeStates[e]} :: e in c.edges ==> y.edgeStates[e] == Told(c, y, e)
  {
    var y := DeleteMarking(x, before, n, h);
    DeleteShaped(g, c, x, before, n, h);
    forall e | e in c.edges ensures y.edgeStates[e] == Told(c, y, e) {
      if e in g.edges { assert x.edgeStates[e] == Told(g, x, e); }
    }
  }

  /** Deleting the head of an XOR branch is always refused: the decision still names it (K7). */
  lemma XorHeadKept(g: Schema, c: Schema, before: Id, n: Id)
    requires K7(g) && K7(c) && c.decisions == g.decisions && Edge(before, n) in g.edges && before in g.nodes && before in c.nodes
    requires c.nodes[before] == g.nodes[before] && forall e :: e in c.edges ==> e.target != n
    ensures !g.nodes[before].XOR_SPLIT?
  {
    if g.nodes[before].XOR_SPLIT? {
      assert before in OfType(g, XOR_SPLIT);
      var bs := g.decisions[before].branches;
      TargetIn(Outgoing(g.edges, before), n);
      assert n in multiset(BranchTargets(bs)) by {
        assert Edge(before, n) in Outgoing(g.edges, before);
        assert n in multiset(Targets(Outgoing(g.edges, before)));
      }
      assert n in multiset(Targets(Outgoing(c.edges, before)));
      TargetIn(Outgoing(c.edges, before), n);
    }
  }

  // --- the requests --------------------------------------------------------------------------------

  ghost predicate Injective(name: nat -> Id) {
    forall i, j :: name(i) == name(j) ==> i == j
  }

  /** `_free_id`: the first numbered name that is not taken. */
  method FreeId(taken: set<Id>, name: nat -> Id) returns (id: Id, ghost k: nat)
    requires Injective(name)
    ensures id == name(k) && k >= 1 && id !in taken
    ensures forall j :: 1 <= j < k ==> name(j) in taken
  {
    var i := 1;
    ghost var left := taken;
    while name(i) in taken
      invariant i >= 1 && left <= taken
      invariant forall j :: 1 <= j < i ==> name(j) in taken
      invariant forall j :: j >= i && name(j) in taken ==> name(j) in left
      decreases left
    {
      left := left - {name(i)};
      i := i + 1;
    }
    return name(i), i;
  }

  function WithoutEdge(es: seq<Edge>, e: Edge): seq<Edge> {
    if es == [] then [] else (if es[0] == e then [] else [es[0]]) + WithoutEdge(es[1..], e)
  }

  lemma {:induction false} WithoutEdgeCount(es: seq<Edge>, e: Edge, f: Edge)
    ensures multiset(WithoutEdge(es, e))[f] == if f == e then 0 else multiset(es)[f]
  {
    if es != [] {
      assert es == [es[0]] + es[1..];
      WithoutEdgeCount(es[1..], e, f);
    }
  }

  lemma OnlyEdgeGone(es: seq<Edge>, e: Edge)
    requires Outgoing(es, e.source) == [e]
    ensures multiset(WithoutEdge(es, e)) + multiset{e} == multiset(es)
  {
    forall f ensures (multiset(WithoutEdge(es, e)) + multiset{e})[f] == multiset(es)[f] {
      WithoutEdgeCount(es, e, f);
      OutgoingCount(es, e.source, f);
    }
  }

  /** What R1 asks of an insertion: an anchor with one way out, and nothing reached behind it. */
  ghost predicate InsertableAfter(g: Schema, x: Instance, after: Id)
    requires Shaped(g, x)
  {
    && after in g.nodes && !g.nodes[after].END? && !g.nodes[after].IsSplit()
    && forall e :: e in g.edges && e.source == after ==>
         x.edgeStates[e] == NOT_SIGNALED && x.nodeStates[e.target].NOT_ACTIVATED?
  }

  /** The schema variant and marking that inserting the step `n` after `after` should give. */
  ghost predicate IsInsert(g: Schema, p: Process, x: Instance, after: Id, n: Id, c: Schema, y: Instance) {
    && Flattens(c, EditProcess(p, after, Insert(Task(n, ACTIVITY, Done))))
    && c.decisions == g.decisions && c.lifecycle == RELEASED && c.version == g.version
    && exists h :: Outgoing(g.edges, after) == [Edge(after, h)] && c == InsertCandidate(g, after, n, h) && y == InsertMarking(x, after, n, h)
  }

  lemma WithoutEdgeIn(es: seq<Edge>, e: Edge, f: Edge)
    ensures f in WithoutEdge(es, e) <==> f in es && f != e
  {
    WithoutEdgeCount(es, e, f);
    assert f in multiset(WithoutEdge(es, e)) <==> f in WithoutEdge(es, e);
    assert f in multiset(es) <==> f in es;
  }

  /** The candidate of `adhoc_insert_activity`. */
  function InsertCandidate(g: Schema, after: Id, n: Id, h: Id): Schema {
    g.(lifecycle := RELEASED, nodes := g.nodes[n := ACTIVITY],
       edges := WithoutEdge(g.edges, Edge(after, h)) + [Edge(after, n)] + [Edge(n, h)])
  }

  lemma InsertCandidateSpliced(g: Schema, after: Id, n: Id, h: Id)
    requires Outgoing(g.edges, after) == [Edge(after, h)]
    ensures Spliced(g, InsertCandidate(g, after, n, h), after, h, Task(n, ACTIVITY, Done))
  {
    var kept := WithoutEdge(g.edges, Edge(after, h));
    OnlyEdgeGone(g.edges, Edge(after, h));
    StepSpliced(g, InsertCandidate(g, after, n, h), kept, Edge(after, h), ACTIVITY, n);
  }

  lemma InsertCandidateInserts(g: Schema, p: Process, after: Id, n: Id, h: Id)
    requires Flattens(g, p) && after in g.nodes && n !in g.nodes && Outgoing(g.edges, after) == [Edge(after, h)]
    ensures StepInserted(g, InsertCandidate(g, after, n, h), after, n, h) && !g.nodes[h].START? && Edge(after, h) in g.edges
  {
    var e := Edge(after, h);
    assert e in Outgoing(g.edges, after);
    TypedEnds(g, p);
    EndsConnected(g, p);
    forall f ensures f in WithoutEdge(g.edges, e) <==> f in g.edges && f != e { WithoutEdgeIn(g.edges, e, f); }
    forall f | f in g.edges && f.source == after ensures f == e { assert f in Outgoing(g.edges, after); }
  }

  /** The candidate of an insertion over a fresh id keeps the marking in order. */
  lemma InsertCarries(g: Schema, p: Process, x: Instance, after: Id, n: Id, h: Id)
    requires Flattens(g, p) && Inv(g, x) && InsertableAfter(g, x, after) && n !in g.nodes
    requires Outgoing(g.edges, after) == [Edge(after, h)]
    ensures Inv(InsertCandidate(g, after, n, h), InsertMarking(x, after, n, h))
    ensures Settled(g, x) ==> Settled(InsertCandidate(g, after, n, h), InsertMarking(x, after, n, h))
  {
    InsertCandidateInserts(g, p, after, n, h);
    InsertKeepsInv(g, InsertCandidate(g, after, n, h), x, after, n, h);
  }

  /**
   The variant with the new activity, and the instance on it: the activity is not reached, the edges that
   are new carry no signal, and everything else is as it was.
   */
  ghost predicate VariantWith(g: Schema, x: Instance, after: Id, n: Id, c: Schema, y: Instance) {
    && StepBetween(g.(lifecycle := RELEASED), c, ACTIVITY, after, n)
    && y.data == x.data && y.decisions == x.decisions && y.done == x.done && y.nodeStates == x.nodeStates[n := NOT_ACTIVATED]
    && (forall e :: e in y.edgeStates <==> e in c.edges)
    && forall e :: e in y.edgeStates ==> y.edgeStates[e] == if e in x.edgeStates then x.edgeStates[e] else NOT_SIGNALED
  }

  lemma InsertIsVariant(g: Schema, p: Process, x: Instance, after: Id, n: Id, h: Id)
    requires Flattens(g, p) && Inv(g, x) && InsertableAfter(g, x, after) && n !in g.nodes && Outgoing(g.edges, after) == [Edge(after, h)]
    ensures VariantWith(g, x, after, n, InsertCandidate(g, after, n, h), InsertMarking(x, after, n, h))
  {
    var c := InsertCandidate(g, after, n, h);
    InsertIsBetween(g, after, n, h);
    InsertCandidateInserts(g, p, after, n, h);
    InsertSignals(g, c, x, after, n, h);
  }

  lemma InsertIsBetween(g: Schema, after: Id, n: Id, h: Id)
    requires n !in g.nodes && Outgoing(g.edges, after) == [Edge(after, h)]
    ensures StepBetween(g.(lifecycle := RELEASED), InsertCandidate(g, after, n, h), ACTIVITY, after, n)
  {
    var g', c := g.(lifecycle := RELEASED), InsertCandidate(g, after, n, h);
    InsertCandidateSpliced(g', after, n, h);
    assert Splices(g', after, Task(n, ACTIVITY, Done), g.decisions, c);
    StepIsBetween(g', c, ACTIVITY, after, n);
  }

  /** The edges of the variant carry what they carried; those of the new node carry nothing. */
  lemma InsertSignals(g: Schema, c: Schema, x: Instance, after: Id, n: Id, h: Id)
    requires Inv(g, x) && StepInserted(g, c, after, n, h)
    ensures var y := InsertMarking(x, after, n, h);
            && (forall e :: e in y.edgeStates <==> e in c.edges)
            && forall e :: e in y.edgeStates ==> y.edgeStates[e] == if e in x.edgeStates then x.edgeStates[e] else NOT_SIGNALED
  {
    InsertShaped(g, c, x, after, n, h);
    assert Edge(after, n) !in x.edgeStates && Edge(n, h) !in x.edgeStates;
  }

  /** K7 says nothing against an insertion. */
  lemma InsertKeepsK7(g: Schema, after: Id, n: Id, h: Id)
    requires K7(g) && after in g.nodes && !g.nodes[after].IsSplit() && n !in g.nodes && Outgoing(g.edges, after) == [Edge(after, h)]
    ensures K7(InsertCandidate(g, after, n, h))
  {
    InsertCandidateSpliced(g, after, n, h);
    StepForm(ACTIVITY, n);
    SpliceKeepsK7(g, InsertCandidate(g, after, n, h), after, h, Task(n, ACTIVITY, Done));
  }

  /** The answer to a change about which only the other rule families can complain. */
  function VariantUpToRest(c: Schema, y: Instance, rest: Schema -> bool): Result<(Schema, Instance)> {
    if rest(c) then Ok((c, y)) else Err(Incorrect("findings"))
  }

  /** The exact answer to an insertion: with K7 before, a fresh id and an anchor ahead of the front it is up to the other rules. */
  ghost predicate InsertExactly(g: Schema, x: Instance, after: Id, n: Id, rest: Schema -> bool, r: Result<(Schema, Instance)>)
    requires Shaped(g, x)
  {
    && (r.Ok? ==> VariantWith(g, x, after, n, r.value.0, r.value.1))
    && (K7(g) && InsertableAfter(g, x, after) && n !in g.nodes ==>
          exists c, y :: VariantWith(g, x, after, n, c, y) && r == VariantUpToRest(c, y, rest))
  }

  lemma InsertCommittedExactly(g: Schema, p: Process, x: Instance, after: Id, n: Id, h: Id, rest: Schema -> bool,
                               r: Result<(Schema, Instance)>)
    requires Flattens(g, p) && Inv(g, x) && InsertableAfter(g, x, after) && Outgoing(g.edges, after) == [Edge(after, h)]
    requires var c := InsertCandidate(g, after, n, h);
             r == if Valid(c, rest) then Ok((c, InsertMarking(x, after, n, h))) else Err(Refusal(c))
    ensures InsertExactly(g, x, after, n, rest, r)
  {
    var c, y := InsertCandidate(g, after, n, h), InsertMarking(x, after, n, h);
    InsertFreshOnly(g, p, after, n, h, rest);
    if n !in g.nodes {
      InsertIsVariant(g, p, x, after, n, h);
      InsertProposes(g, p, x, after, n, h, rest);
      if K7(g) {
        InsertKeepsK7(g, after, n, h);
        FlatteningIsStructural(c, EditProcess(p, after, Insert(Task(n, ACTIVITY, Done))));
        assert r == VariantUpToRest(c, y, rest);
      }
    }
  }

  /** What `adhoc_insert_activity` promises. */
  ghost predicate InsertRequest(g: Schema, p: Process, x: Instance, after: Id, n: Id, rest: Schema -> bool,
                                r: Result<(Schema, Instance)>)
    requires Shaped(g, x)
  {
    && (r.Ok? ==>
          && InsertableAfter(g, x, after) && n !in g.nodes && Valid(r.value.0, rest)
          && IsInsert(g, p, x, after, n, r.value.0, r.value.1)
          && Inv(r.value.0, r.value.1) && (Settled(g, x) ==> Settled(r.value.0, r.value.1)))
    && (r.Err? && InsertableAfter(g, x, after) && n !in g.nodes ==>
          exists c, y :: IsInsert(g, p, x, after, n, c, y) && !(K7(c) && rest(c)))
  }

  lemma InsertCommitted(g: Schema, p: Process, x: Instance, after: Id, n: Id, h: Id, rest: Schema -> bool,
                        r: Result<(Schema, Instance)>)
    requires Flattens(g, p) && Inv(g, x) && InsertableAfter(g, x, after) && Outgoing(g.edges, after) == [Edge(after, h)]
    requires var c := InsertCandidate(g, after, n, h);
             r == if Valid(c, rest) then Ok((c, InsertMarking(x, after, n, h))) else Err(Refusal(c))
    ensures InsertRequest(g, p, x, after, n, rest, r)
  {
    var c, y := InsertCandidate(g, after, n, h), InsertMarking(x, after, n, h);
    InsertFreshOnly(g, p, after, n, h, rest);
    if n !in g.nodes {
      InsertProposes(g, p, x, after, n, h, rest);
      InsertCarries(g, p, x, after, n, h);
    }
  }

  /** An accepted candidate uses a fresh id. */
  lemma InsertFreshOnly(g: Schema, p: Process, after: Id, n: Id, h: Id, rest: Schema -> bool)
    requires Flattens(g, p) && after in g.nodes && !g.nodes[after].END? && !g.nodes[after].IsSplit()
    requires Outgoing(g.edges, after) == [Edge(after, h)]
    ensures Valid(InsertCandidate(g, after, n, h), rest) ==> n !in g.nodes
  {
    InsertCandidateSpliced(g, after, n, h);
    StepForm(ACTIVITY, n);
    assert n in Ids(Task(n, ACTIVITY, Done));
    if Valid(InsertCandidate(g, after, n, h), rest) {
      AcceptedIsFresh(g, InsertCandidate(g, after, n, h), p, after, h, Task(n, ACTIVITY, Done));
    }
  }

  /** A candidate over a fresh id is the edited term; only K7 or the other rules can refuse it. */
  lemma InsertProposes(g: Schema, p: Process, x: Instance, after: Id, n: Id, h: Id, rest: Schema -> bool)
    requires Flattens(g, p) && after in g.nodes && !g.nodes[after].END? && !g.nodes[after].IsSplit()
    requires Outgoing(g.edges, after) == [Edge(after, h)] && n !in g.nodes
    ensures var c := InsertCandidate(g, after, n, h);
            IsInsert(g, p, x, after, n, c, InsertMarking(x, after, n, h)) && (Valid(c, rest) <==> K7(c) && rest(c))
  {
    InsertCandidateSpliced(g, after, n, h);
    StepForm(ACTIVITY, n);
    FreshSplice(g, InsertCandidate(g, after, n, h), p, after, h, Task(n, ACTIVITY, Done), rest);
  }

  /** With one way out of the anchor, R1 asks about that edge and its target only. */
  lemma OneWayOut(g: Schema, x: Instance, after: Id, h: Id)
    requires Inv(g, x) && after in g.nodes && !g.nodes[after].END? && !g.nodes[after].IsSplit()
    requires Outgoing(g.edges, after) == [Edge(after, h)]
    ensures Edge(after, h) in g.edges && h in x.nodeStates
    ensures InsertableAfter(g, x, after) <==> x.edgeStates[Edge(after, h)] == NOT_SIGNALED && x.nodeStates[h].NOT_ACTIVATED?
  {
    assert Edge(after, h) in Outgoing(g.edges, after);
    assert forall e :: e in g.edges && e.source == after <==> e in [Edge(after, h)];
  }

  /** The R1 checks of an insertion: the node behind the anchor, if the region is ahead of the front. */
  method CheckInsert(x: Instance, g: Schema, after: Id, ghost p: Process) returns (r: Result<Id>)
    requires Flattens(g, p) && Inv(g, x)
    ensures r.Ok? <==> InsertableAfter(g, x, after)
    ensures r.Ok? ==> Outgoing(g.edges, after) == [Edge(after, r.value)]
    ensures r.Ok? <==> && after in g.nodes && g.nodes[after] !in {END, AND_SPLIT, XOR_SPLIT}
                       && forall t :: Edge(after, t) in g.edges ==> x.edgeStates[Edge(after, t)] == NOT_SIGNALED && x.nodeStates[t] == NOT_ACTIVATED
  {
    if after !in g.nodes || g.nodes[after].END? { return Err(Incorrect("R1")); }
    AnchorHasOneEdge(g, p, after);
    var outgoing := Outgoing(g.edges, after);
    if |outgoing| != 1 { return Err(Incorrect("R1")); }
    var edge := outgoing[0];
    assert edge in outgoing;
    OneWayOut(g, x, after, edge.target);
    if x.edgeStates[edge] != NOT_SIGNALED || x.nodeStates[edge.target] != NOT_ACTIVATED { return Err(Incorrect("R1")); }
    return Ok(edge.target);
  }

  /** The copies of `adhoc_insert_activity`: the schema variant and the instance's marking. */
  method BuildInsert(x: Instance, g: Schema, after: Id, n: Id, h: Id) returns (c: Schema, y: Instance)
    ensures c == InsertCandidate(g, after, n, h) && y == InsertMarking(x, after, n, h)
  {
    var candidate := new Candidate(g.(lifecycle := RELEASED));
    candidate.nodes := candidate.nodes[n := ACTIVITY];
    candidate.edges := WithoutEdge(candidate.edges, Edge(after, h));
    candidate.edges := candidate.edges + [Edge(after, n)];
    candidate.edges := candidate.edges + [Edge(n, h)];
    var result := new Run(x);
    result.nodeStates := result.nodeStates[n := NOT_ACTIVATED];
    result.edgeStates := result.edgeStates - {Edge(after, h)};
    result.edgeStates := result.edgeStates[Edge(after, n) := NOT_SIGNALED];
    result.edgeStates := result.edgeStates[Edge(n, h) := NOT_SIGNALED];
    return candidate.View(), result.View();
  }

  lemma InsertRefused(g: Schema, p: Process, x: Instance, after: Id, n: Id, rest: Schema -> bool, r: Result<(Schema, Instance)>)
    requires Shaped(g, x) && r.Err? && !InsertableAfter(g, x, after)
    ensures InsertRequest(g, p, x, after, n, rest, r)
  {}

  /** `adhoc_insert_activity`. `n` is the id used: the given one, or the first free one. */
  method InsertActivity(x: Instance, g: Schema, after: Id, newId: Option<Id>, name: nat -> Id, rest: Schema -> bool, ghost p: Process)
    returns (r: Result<(Schema, Instance)>, n: Id)
    requires Flattens(g, p) && Inv(g, x) && Injective(name)
    ensures newId.Some? ==> n == newId.value
    ensures newId.None? ==> n !in g.nodes
    ensures InsertRequest(g, p, x, after, n, rest, r) && InsertExactly(g, x, after, n, rest, r)
  {
    if newId.Some? { n := newId.value; } else { ghost var k; n, k := FreeId(g.nodes.Keys, name); }
    var behind := CheckInsert(x, g, after, p);
    if behind.Err? {
      InsertRefused(g, p, x, after, n, rest, Err(behind.error));
      return Err(behind.error), n;
    }
    var c, y := BuildInsert(x, g, after, n, behind.value);
    var committed := RaiseIfInvalid(c, rest);
    r := if committed.Ok? then Ok((c, y)) else Err(committed.error);
    InsertCommitted(g, p, x, after, n, behind.value, rest, r);
    InsertCommittedExactly(g, p, x, after, n, behind.value, rest, r);
  }

  // --- the deletion request --------------------------------------------------------------------------

  /** What R1 asks of a deletion: an activity that is not reached. */
  ghost predicate Removable(g: Schema, x: Instance, n: Id)
    requires Shaped(g, x)
  {
    n in g.nodes && g.nodes[n].ACTIVITY? && x.nodeStates[n].NOT_ACTIVATED?
  }

  /** The candidate of `adhoc_delete_node`; the decisions are kept as they are. */
  function DeleteCandidate(g: Schema, before: Id, n: Id, h: Id): Schema {
    g.(lifecycle := RELEASED, nodes := g.nodes - {n}, edges := Detached(g.edges, {n}) + [Edge(before, h)])
  }

  /** The schema variant and marking that deleting the step `n` should give. */
  ghost predicate IsRemoval(g: Schema, p: Process, x: Instance, n: Id, c: Schema, y: Instance) {
    && n in Ids(p.body)
    && Flattens(c, p.(body := EditAt(p.body, n, Remove)))
    && c.decisions == g.decisions && c.lifecycle == RELEASED && c.version == g.version
    && exists before, h :: Neighbours(p, n, before, h) && c == DeleteCandidate(g, before, n, h) && y == DeleteMarking(x, before, n, h)
  }

  /** What `adhoc_delete_node` promises. */
  ghost predicate DeleteRequest(g: Schema, p: Process, x: Instance, n: Id, rest: Schema -> bool, r: Result<(Schema, Instance)>)
    requires Shaped(g, x)
  {
    && (r.Ok? ==>
          && Removable(g, x, n) && Valid(r.value.0, rest) && IsRemoval(g, p, x, n, r.value.0, r.value.1)
          && Inv(r.value.0, r.value.1) && Settled(r.value.0, r.value.1))
    && (r.Err? && Removable(g, x, n) ==> exists c, y :: IsRemoval(g, p, x, n, c, y) && !(K7(c) && rest(c)))
  }

  lemma DeleteRefused(g: Schema, p: Process, x: Instance, n: Id, rest: Schema -> bool, r: Result<(Schema, Instance)>)
    requires Shaped(g, x) && r.Err? && !Removable(g, x, n)
    ensures DeleteRequest(g, p, x, n, rest, r)
  {}

  /** The R1 checks of a deletion, and the step's neighbours. */
  method CheckDelete(x: Instance, g: Schema, n: Id, ghost p: Process) returns (r: Result<(Id, Id)>)
    requires Flattens(g, p) && Inv(g, x)
    ensures r.Ok? <==> Removable(g, x, n)
    ensures r.Ok? <==> n in g.nodes && g.nodes[n] == ACTIVITY && x.nodeStates[n] == NOT_ACTIVATED
    ensures r.Ok? ==> n in Ids(p.body) && Neighbours(p, n, r.value.0, r.value.1)
  {
    if n !in g.nodes || !g.nodes[n].ACTIVITY? || x.nodeStates[n] != NOT_ACTIVATED { return Err(Incorrect("R1")); }
    StepSite(g, p, n);
    StepDegrees(g, p, n);
    var incoming, outgoing := Incoming(g.edges, n), Outgoing(g.edges, n);
    if |incoming| != 1 || |outgoing| != 1 { return Err(Incorrect("R1")); }
    assert incoming[0] in incoming && outgoing[0] in outgoing;
    return Ok((incoming[0].source, outgoing[0].target));
  }

  /** A step in its place: its edges lead to its neighbours. */
  lemma StepSite(g: Schema, p: Process, n: Id)
    requires Flattens(g, p) && n in g.nodes && g.nodes[n].IsStep()
    ensures n in Ids(p.body)
    ensures var s := SiteOf(p.body, p.start, p.end, n);
            var h := First(Rest(s.chain), s.after);
            && IsChain(s.chain) && s.chain.Task? && s.chain.id == n
            && s.before in g.nodes && h in g.nodes && s.before != n && h != n
            && (forall e :: e in g.edges && e.target == n <==> e == Edge(s.before, n))
            && (forall e :: e in g.edges && e.source == n <==> e == Edge(n, h))
  {
    TypedEnds(g, p);
    var s := SiteOf(p.body, p.start, p.end, n);
    SiteFacts(g, p, n);
    AroundHead(g, s.chain, s.before, s.after);
    NeighboursExist(g, p, n);
    assert First(s.chain.next, s.after) in Ids(s.chain.next) + {s.after};
  }

  /** The copies of `adhoc_delete_node`. */
  method BuildDelete(x: Instance, g: Schema, before: Id, n: Id, h: Id) returns (c: Schema, y: Instance)
    ensures c == DeleteCandidate(g, before, n, h) && y == DeleteMarking(x, before, n, h)
  {
    var candidate := new Candidate(g.(lifecycle := RELEASED));
    candidate.nodes := candidate.nodes - {n};
    candidate.edges := Detached(candidate.edges, {n});
    candidate.edges := candidate.edges + [Edge(before, h)];
    var result := new Run(x);
    result.nodeStates := result.nodeStates - {n};
    result.edgeStates := result.edgeStates - {Edge(before, n)};
    result.edgeStates := result.edgeStates - {Edge(n, h)};
    result.edgeStates := result.edgeStates[Edge(before, h) := NOT_SIGNALED];
    c, y := candidate.View(), result.View();
    assert x.edgeStates - {Edge(before, n)} - {Edge(n, h)} == x.edgeStates - {Edge(before, n), Edge(n, h)};
  }

  lemma CandidateDeletes(g: Schema, p: Process, before: Id, n: Id, h: Id)
    requires Flattens(g, p) && n in Ids(p.body) && g.nodes[n].IsStep() && Neighbours(p, n, before, h)
    ensures StepDeleted(g, DeleteCandidate(g, before, n, h), before, n, h)
    ensures Edge(before, n) in g.edges && Edge(n, h) in g.edges && !g.nodes[h].START?
  {
    StepSite(g, p, n);
    TypedEnds(g, p);
    EndsConnected(g, p);
    assert Edge(n, h) in g.edges;
    forall e ensures e in Detached(g.edges, {n}) <==> e in g.edges && !Touches(e, {n}) { DetachedIn(g.edges, {n}, e); }
  }

  lemma CandidateRemoves(g: Schema, p: Process, before: Id, n: Id, h: Id)
    requires Flattens(g, p) && n in Ids(p.body) && g.nodes[n].IsStep() && Neighbours(p, n, before, h)
    ensures Flattens(DeleteCandidate(g, before, n, h), p.(body := EditAt(p.body, n, Remove)))
  {
    StepSite(g, p, n);
    var s := SiteOf(p.body, p.start, p.end, n);
    assert Ids(Done) == {} && Ids(Head(s.chain)) == {n};
    RemoveFlattens(g, DeleteCandidate(g, before, n, h), p, n);
  }

  lemma DeleteCommitted(g: Schema, p: Process, x: Instance, before: Id, n: Id, h: Id, rest: Schema -> bool,
                        r: Result<(Schema, Instance)>)
    requires Flattens(g, p) && K7(g) && Inv(g, x) && Settled(g, x) && Removable(g, x, n)
    requires n in Ids(p.body) && Neighbours(p, n, before, h)
    requires var c := DeleteCandidate(g, before, n, h);
             r == if Valid(c, rest) then Ok((c, DeleteMarking(x, before, n, h))) else Err(Refusal(c))
    ensures DeleteRequest(g, p, x, n, rest, r)
  {
    var c, y := DeleteCandidate(g, before, n, h), DeleteMarking(x, before, n, h);
    CandidateRemoves(g, p, before, n, h);
    assert IsRemoval(g, p, x, n, c, y);
    FlatteningIsStructural(c, p.(body := EditAt(p.body, n, Remove)));
    if K7(c) { DeleteCarries(g, p, x, before, n, h); }
  }

  /** The candidate of a deletion keeps the marking in order; K7 has ruled out the head of an XOR branch. */
  lemma DeleteCarries(g: Schema, p: Process, x: Instance, before: Id, n: Id, h: Id)
    requires Flattens(g, p) && K7(g) && Inv(g, x) && Settled(g, x) && Removable(g, x, n)
    requires n in Ids(p.body) && Neighbours(p, n, before, h) && K7(DeleteCandidate(g, before, n, h))
    ensures var c, y := DeleteCandidate(g, before, n, h), DeleteMarking(x, before, n, h); Inv(c, y) && Settled(c, y)
  {
    var c := DeleteCandidate(g, before, n, h);
    CandidateDeletes(g, p, before, n, h);
    XorHeadKept(g, c, before, n);
    DeleteKeepsInv(g, c, x, before, n, h);
  }

  /**
   The variant without the step, and the instance on it: the gap is bridged by an edge without signal,
   and everything else is as it was.
   */
  ghost predicate VariantWithout(g: Schema, x: Instance, n: Id, c: Schema, y: Instance) {
    && c.lifecycle == RELEASED && c.version == g.version && c.decisions == g.decisions && c.nodes == g.nodes - {n}
    && y.data == x.data && y.decisions == x.decisions && y.done == x.done && y.nodeStates == x.nodeStates - {n}
    && exists b, a :: && Edge(b, n) in g.edges && Edge(n, a) in g.edges
         && (forall e :: multiset(c.edges)[e] == (if Touches(e, {n}) then 0 else multiset(g.edges)[e]) + multiset{Edge(b, a)}[e])
         && (forall e :: e in y.edgeStates <==> e in c.edges)
         && (forall e :: e in y.edgeStates ==> y.edgeStates[e] == if e == Edge(b, a) || e !in x.edgeStates then NOT_SIGNALED else x.edgeStates[e])
  }

  lemma DeleteIsVariant(g: Schema, p: Process, x: Instance, before: Id, n: Id, h: Id)
    requires Flattens(g, p) && Inv(g, x) && Removable(g, x, n) && n in Ids(p.body) && Neighbours(p, n, before, h)
    ensures VariantWithout(g, x, n, DeleteCandidate(g, before, n, h), DeleteMarking(x, before, n, h))
  {
    CandidateDeletes(g, p, before, n, h);
    RemovedCounts(g.edges, {n}, Edge(before, h));
    DeleteSignals(g, DeleteCandidate(g, before, n, h), x, before, n, h);
    VariantParts(g, x, n, before, h, DeleteCandidate(g, before, n, h), DeleteMarking(x, before, n, h));
  }

  lemma VariantParts(g: Schema, x: Instance, n: Id, b: Id, a: Id, c: Schema, y: Instance)
    requires c.lifecycle == RELEASED && c.version == g.version && c.decisions == g.decisions && c.nodes == g.nodes - {n}
    requires y.data == x.data && y.decisions == x.decisions && y.done == x.done && y.nodeStates == x.nodeStates - {n}
    requires Edge(b, n) in g.edges && Edge(n, a) in g.edges
    requires forall e :: multiset(c.edges)[e] == (if Touches(e, {n}) then 0 else multiset(g.edges)[e]) + multiset{Edge(b, a)}[e]
    requires forall e :: e in y.edgeStates <==> e in c.edges
    requires forall e :: e in y.edgeStates ==> y.edgeStates[e] == if e == Edge(b, a) || e !in x.edgeStates then NOT_SIGNALED else x.edgeStates[e]
    ensures VariantWithout(g, x, n, c, y)
  {}

  lemma DeleteSignals(g: Schema, c: Schema, x: Instance, before: Id, n: Id, h: Id)
    requires Inv(g, x) && StepDeleted(g, c, before, n, h)
    ensures var y := DeleteMarking(x, before, n, h);
            && (forall e :: e in y.edgeStates <==> e in c.edges)
            && forall e :: e in y.edgeStates ==>
                 y.edgeStates[e] == if e == Edge(before, h) || e !in x.edgeStates then NOT_SIGNALED else x.edgeStates[e]
  {
    DeleteShaped(g, c, x, before, n, h);
  }

  /** K7 refuses the deletion exactly if the step is the head of an XOR branch. */
  lemma DeleteK7Iff(g: Schema, p: Process, before: Id, n: Id, h: Id)
    requires Flattens(g, p) && K7(g) && n in Ids(p.body) && g.nodes[n].ACTIVITY? && Neighbours(p, n, before, h)
    ensures before in g.nodes && (K7(DeleteCandidate(g, before, n, h)) <==> !g.nodes[before].XOR_SPLIT?)
  {
    var s := SiteOf(p.body, p.start, p.end, n);
    RemoveK7(g, p, n);
    StepHasNoDecision(g, n);
    StepSite(g, p, n);
    StepRemoved(g, s, n);
    SameK7(DeleteCandidate(g, before, n, h), BlockRemoved(g, s));
  }

  lemma StepRemoved(g: Schema, s: Site, n: Id)
    requires s.chain.Task? && s.chain.id == n && n !in g.decisions
    ensures var c, d := DeleteCandidate(g, s.before, n, First(Rest(s.chain), s.after)), BlockRemoved(g, s);
            d.nodes == c.nodes && d.edges == c.edges && d.decisions == c.decisions
  {
    assert Ids(Done) == {} && Ids(Head(s.chain)) == {n};
  }

  lemma SameK7(g: Schema, h: Schema)
    requires h.nodes == g.nodes && h.edges == g.edges && h.decisions == g.decisions
    ensures K7(g) <==> K7(h)
  {
    assert OfType(g, XOR_SPLIT) == OfType(h, XOR_SPLIT);
  }

  /** The exact answer to a deletion: it is up to the other rules unless the step is the head of an XOR branch. */
  ghost predicate RemoveExactly(g: Schema, x: Instance, n: Id, rest: Schema -> bool, r: Result<(Schema, Instance)>)
    requires Shaped(g, x)
  {
    && (r.Ok? ==> VariantWithout(g, x, n, r.value.0, r.value.1))
    && (Removable(g, x, n) ==>
          if exists b :: b in g.nodes && g.nodes[b].XOR_SPLIT? && Edge(b, n) in g.edges then r == Err(Incorrect("findings"))
          else exists c, y :: VariantWithout(g, x, n, c, y) && r == VariantUpToRest(c, y, rest))
  }

  lemma DeleteCommittedExactly(g: Schema, p: Process, x: Instance, before: Id, n: Id, h: Id, rest: Schema -> bool,
                               r: Result<(Schema, Instance)>)
    requires Flattens(g, p) && K7(g) && Inv(g, x) && Removable(g, x, n) && n in Ids(p.body) && Neighbours(p, n, before, h)
    requires var c := DeleteCandidate(g, before, n, h);
             r == if Valid(c, rest) then Ok((c, DeleteMarking(x, before, n, h))) else Err(Refusal(c))
    ensures RemoveExactly(g, x, n, rest, r)
  {
    var c, y := DeleteCandidate(g, before, n, h), DeleteMarking(x, before, n, h);
    StepSite(g, p, n);
    CandidateRemoves(g, p, before, n, h);
    FlatteningIsStructural(c, p.(body := EditAt(p.body, n, Remove)));
    DeleteK7Iff(g, p, before, n, h);
    DeleteIsVariant(g, p, x, before, n, h);
    assert r == if g.nodes[before].XOR_SPLIT? then Err(Incorrect("findings")) else VariantUpToRest(c, y, rest);
    OnlyBefore(g, before, n);
  }

  lemma OnlyBefore(g: Schema, before: Id, n: Id)
    requires before in g.nodes && forall e :: e in g.edges && e.target == n <==> e == Edge(before, n)
    ensures (exists b :: b in g.nodes && g.nodes[b].XOR_SPLIT? && Edge(b, n) in g.edges) <==> g.nodes[before].XOR_SPLIT?
  {}

  /** `adhoc_delete_node` */
  method DeleteActivity(x: Instance, g: Schema, n: Id, rest: Schema -> bool, ghost p: Process)
    returns (r: Result<(Schema, Instance)>)
    requires Flattens(g, p) && K7(g) && Inv(g, x) && Settled(g, x)
    ensures DeleteRequest(g, p, x, n, rest, r) && RemoveExactly(g, x, n, rest, r)
  {
    var around := CheckDelete(x, g, n, p);
    if around.Err? {
      DeleteRefused(g, p, x, n, rest, Err(around.error));
      return Err(around.error);
    }
    var (before, after) := around.value;
    var c, y := BuildDelete(x, g, before, n, after);
    var committed := RaiseIfInvalid(c, rest);
    r := if committed.Ok? then Ok((c, y)) else Err(committed.error);
    DeleteCommitted(g, p, x, before, n, after, rest, r);
    DeleteCommittedExactly(g, p, x, before, n, after, rest, r);
  }
}

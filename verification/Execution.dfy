/**
 The execution engine: instantiation, starting and completing activities, and the marking
 propagation. A request works on a mutable deep copy of the instance (`Run`) and returns a
 snapshot of it; the instance it was given is never changed.
 */
module Execution {
  import opened Model
  import opened Marking
  import opened Partition
  import opened Validator

  /** Every branch of a decision leads along an edge of its split (part of rule K7). */
  ghost predicate DecisionsFit(g: Schema) {
    forall n :: n in g.decisions ==>
      forall i :: 0 <= i < |g.decisions[n].branches| ==> Edge(n, g.decisions[n].branches[i].target) in g.edges
  }

  ghost predicate OnlyStart(g: Schema, s: Id) {
    s in g.nodes && forall n :: n in g.nodes ==> (g.nodes[n].START? <==> n == s)
  }

  /** What the engine relies on: degrees (K2), no cycle, decisions that fit their splits (K7). */
  ghost predicate Runnable(g: Schema) {
    Connected(g) && Acyclic(g) && DecisionsFit(g) && exists s :: OnlyStart(g, s)
  }

  /** `order` lists the nodes the way the engine scans them. */
  ghost predicate Lists(order: seq<Id>, g: Schema) {
    forall n :: n in order <==> n in g.nodes
  }

  /** The signal `_complete_node` puts on an outgoing edge. */
  function CompletionSignal(g: Schema, n: Id, chosen: Option<Id>, e: Edge): Signal
    requires n in g.nodes
  {
    if g.nodes[n].XOR_SPLIT? && chosen != Some(e.target) then FALSE_SIGNALED else TRUE_SIGNALED
  }

  /** The marking after completing `n`. */
  function Completed(g: Schema, x: Instance, n: Id, chosen: Option<Id>): Instance
    requires n in g.nodes
  {
    x.(nodeStates := x.nodeStates[n := COMPLETED],
       edgeStates := map e | e in x.edgeStates ::
         if e.source == n then CompletionSignal(g, n, chosen, e) else x.edgeStates[e])
  }

  /** The branch decision is recorded before an XOR split is completed. */
  function Decided(g: Schema, x: Instance, n: Id, chosen: Option<Id>): Instance
    requires n in g.nodes
  {
    if g.nodes[n].XOR_SPLIT? && chosen.Some? then x.(decisions := x.decisions[n := chosen.value]) else x
  }

  /** The marking after skipping `n`. */
  function Skipped(x: Instance, n: Id): Instance {
    x.(nodeStates := x.nodeStates[n := SKIPPED],
       edgeStates := map e | e in x.edgeStates :: if e.source == n then FALSE_SIGNALED else x.edgeStates[e])
  }

  // --- each elementary step keeps the invariant --------------------------------

  /** Signals are only ever added. */
  ghost predicate SignalsKept(g: Schema, x: Instance, y: Instance)
    requires Shaped(g, x) && Shaped(g, y)
  {
    forall e :: e in g.edges && x.edgeStates[e] != NOT_SIGNALED ==> y.edgeStates[e] == x.edgeStates[e]
  }

  lemma ArrivalsKept(g: Schema, x: Instance, y: Instance, n: Id)
    requires Shaped(g, x) && Shaped(g, y) && SignalsKept(g, x, y) && n in g.nodes && Arrived(g, x, n)
    ensures Arrived(g, y, n) && (Enabled(g, x, n) <==> Enabled(g, y, n))
  {}

  lemma OtherNodesKept(g: Schema, x: Instance, y: Instance, n: Id)
    requires Inv(g, x) && Shaped(g, y) && n in g.nodes && SignalsKept(g, x, y)
    requires forall m :: m in g.nodes && m != n ==> y.nodeStates[m] == x.nodeStates[m]
    requires forall m :: m != n ==> (m in y.decisions <==> m in x.decisions)
    requires forall m :: m != n && m in x.decisions ==> y.decisions[m] == x.decisions[m]
    ensures forall m :: m in g.nodes && m != n ==> NodeOk(g, y, m)
  {
    forall m | m in g.nodes && m != n ensures NodeOk(g, y, m) {
      assert NodeOk(g, x, m);
      if x.nodeStates[m] != NOT_ACTIVATED && !g.nodes[m].START? { ArrivalsKept(g, x, y, m); }
    }
  }

  /** `n` may be completed now, and `chosen` is a way out of it. */
  ghost predicate Completable(g: Schema, x: Instance, n: Id, chosen: Option<Id>) {
    && n in g.nodes && n in x.nodeStates && (x.nodeStates[n].ACTIVATED? || x.nodeStates[n].RUNNING?)
    && !g.nodes[n].END?
    && (g.nodes[n].XOR_SPLIT? ==> chosen.Some? && Edge(n, chosen.value) in g.edges)
  }

  lemma CompleteSignals(g: Schema, x: Instance, n: Id, chosen: Option<Id>)
    requires Inv(g, x) && Completable(g, x, n, chosen)
    ensures var y := Completed(g, Decided(g, x, n, chosen), n, chosen);
            && Shaped(g, y) && SignalsKept(g, x, y)
            && forall e {:trigger y.edgeStates[e]} :: e in g.edges ==> y.edgeStates[e] == Told(g, y, e)
  {
    forall e | e in g.edges
      ensures var y := Completed(g, Decided(g, x, n, chosen), n, chosen);
              && y.edgeStates[e] == Told(g, y, e)
              && (x.edgeStates[e] != NOT_SIGNALED ==> y.edgeStates[e] == x.edgeStates[e])
    {
      CompleteSignal(g, x, n, chosen, e);
    }
  }

  lemma CompleteSignal(g: Schema, x: Instance, n: Id, chosen: Option<Id>, e: Edge)
    requires Inv(g, x) && Completable(g, x, n, chosen) && e in g.edges
    ensures var y := Completed(g, Decided(g, x, n, chosen), n, chosen);
            && y.edgeStates[e] == Told(g, y, e)
            && (x.edgeStates[e] != NOT_SIGNALED ==> y.edgeStates[e] == x.edgeStates[e])
  {
    assert x.edgeStates[e] == Told(g, x, e);
  }

  lemma CompleteKeepsInv(g: Schema, x: Instance, n: Id, chosen: Option<Id>)
    requires Inv(g, x) && Completable(g, x, n, chosen)
    ensures Inv(g, Completed(g, Decided(g, x, n, chosen), n, chosen))
  {
    var y := Completed(g, Decided(g, x, n, chosen), n, chosen);
    CompleteSignals(g, x, n, chosen);
    assert NodeOk(g, x, n);
    OtherNodesKept(g, x, y, n);
    if !g.nodes[n].START? { ArrivalsKept(g, x, y, n); }
    assert NodeOk(g, y, n);
    assert forall m :: m in g.nodes && g.nodes[m].END? ==> y.nodeStates[m] == x.nodeStates[m];
  }

  lemma EndKeepsInv(g: Schema, x: Instance, n: Id)
    requires Inv(g, x) && Connected(g) && n in g.nodes && x.nodeStates[n].ACTIVATED? && g.nodes[n].END?
    ensures Inv(g, x.(nodeStates := x.nodeStates[n := COMPLETED], done := true))
  {
    var y := x.(nodeStates := x.nodeStates[n := COMPLETED], done := true);
    assert NodeOk(g, x, n) && !Left(g, n);
    OtherNodesKept(g, x, y, n);
    assert NodeOk(g, y, n);
  }

  lemma ActivateKeepsInv(g: Schema, x: Instance, n: Id)
    requires Inv(g, x) && n in g.nodes && x.nodeStates[n].NOT_ACTIVATED? && Arrived(g, x, n) && Enabled(g, x, n)
    ensures Inv(g, x.(nodeStates := x.nodeStates[n := ACTIVATED]))
  {
    var y := x.(nodeStates := x.nodeStates[n := ACTIVATED]);
    assert NodeOk(g, x, n);
    OtherNodesKept(g, x, y, n);
    assert NodeOk(g, y, n);
  }

  lemma SkipKeepsInv(g: Schema, x: Instance, n: Id)
    requires Inv(g, x) && n in g.nodes && x.nodeStates[n].NOT_ACTIVATED? && Arrived(g, x, n) && !Enabled(g, x, n)
    requires !g.nodes[n].START?
    ensures Inv(g, Skipped(x, n))
  {
    var y := Skipped(x, n);
    assert NodeOk(g, x, n);
    OtherNodesKept(g, x, y, n);
    assert NodeOk(g, y, n);
  }

  /** The resolved branch of a decision leaves the split along one of its edges. */
  lemma ChoiceFits(g: Schema, data: map<Id, Value>, n: Id)
    requires DecisionsFit(g) && Choice(g, data, n).Some?
    ensures Edge(n, Choice(g, data, n).value) in g.edges
  {
    var d, v := g.decisions[n], data[g.decisions[n].discriminator];
    ResolvesToBranch(d, v);
  }

  lemma ResolvesToBranch(d: XorDecision, v: Value)
    requires ResolveTarget(d, v).Some?
    ensures exists i :: 0 <= i < |d.branches| && d.branches[i].target == ResolveTarget(d, v).value
  {
    match d.kind
    case THRESHOLD => FirstAboveIsBranch(d.branches, v.num);
    case BOOLEAN => FirstTruthIsBranch(d.branches, Truthy(v));
    case ENUM => FirstListingIsBranch(d.branches, Render(v), None);
  }

  lemma FirstAboveIsBranch(bs: seq<XorBranch>, x: real)
    requires FirstAbove(bs, x).Some?
    ensures exists i :: 0 <= i < |bs| && bs[i].target == FirstAbove(bs, x).value
  {
    if !(bs[0].upper.None? || x < bs[0].upper.value) {
      FirstAboveIsBranch(bs[1..], x);
      var i :| 0 <= i < |bs[1..]| && bs[1..][i].target == FirstAbove(bs, x).value;
      assert bs[i + 1].target == FirstAbove(bs, x).value;
    }
  }

  lemma FirstTruthIsBranch(bs: seq<XorBranch>, flag: bool)
    requires FirstTruth(bs, flag).Some?
    ensures exists i :: 0 <= i < |bs| && bs[i].target == FirstTruth(bs, flag).value
  {
    if bs[0].boolValue != Some(flag) {
      FirstTruthIsBranch(bs[1..], flag);
      var i :| 0 <= i < |bs[1..]| && bs[1..][i].target == FirstTruth(bs, flag).value;
      assert bs[i + 1].target == FirstTruth(bs, flag).value;
    }
  }

  lemma FirstListingIsBranch(bs: seq<XorBranch>, text: string, fallback: Option<Id>)
    requires FirstListing(bs, text, fallback).Some?
    ensures FirstListing(bs, text, fallback) == fallback ||
            exists i :: 0 <= i < |bs| && bs[i].target == FirstListing(bs, text, fallback).value
  {
    if bs != [] && (bs[0].isElse || text !in bs[0].values) {
      var rest := if bs[0].isElse then Some(bs[0].target) else fallback;
      FirstListingIsBranch(bs[1..], text, rest);
      if FirstListing(bs, text, fallback) != rest {
        var i :| 0 <= i < |bs[1..]| && bs[1..][i].target == FirstListing(bs, text, fallback).value;
        assert bs[i + 1].target == FirstListing(bs, text, fallback).value;
      }
    }
  }

  /** A node the engine completes by itself, with the branch its data select. */
  lemma AutoCompleteExtends(g: Schema, x: Instance, n: Id, chosen: Option<Id>)
    requires Inv(g, x) && n in g.nodes && x.nodeStates[n].ACTIVATED? && !g.nodes[n].ACTIVITY?
    requires g.nodes[n].XOR_SPLIT? ==> chosen.Some? && Choice(g, x.data, n) == chosen
    ensures Extends(g, x, Completed(g, Decided(g, x, n, chosen), n, chosen))
  {
    var y := Completed(g, Decided(g, x, n, chosen), n, chosen);
    forall m | m in g.nodes ensures Grows(g, x, y, m) { assert NodeOk(g, x, m); }
  }

  /** A node activated or skipped for the first time. */
  lemma ReachedExtends(g: Schema, x: Instance, y: Instance, n: Id)
    requires Inv(g, x) && n in g.nodes && x.nodeStates[n].NOT_ACTIVATED?
    requires y.nodeStates == x.nodeStates[n := ACTIVATED] || y.nodeStates == x.nodeStates[n := SKIPPED]
    requires y.decisions == x.decisions && y.data == x.data
    ensures Extends(g, x, y)
  {
    forall m | m in g.nodes ensures Grows(g, x, y, m) {}
  }

  lemma EndExtends(g: Schema, x: Instance, n: Id)
    requires Inv(g, x) && n in g.nodes && x.nodeStates[n].ACTIVATED? && !g.nodes[n].ACTIVITY?
    ensures Extends(g, x, x.(nodeStates := x.nodeStates[n := COMPLETED], done := true))
  {
    var y := x.(nodeStates := x.nodeStates[n := COMPLETED], done := true);
    forall m | m in g.nodes ensures Grows(g, x, y, m) {}
  }

  lemma AutoStep(g: Schema, x: Instance, n: Id, chosen: Option<Id>)
    requires Inv(g, x) && Completable(g, x, n, chosen) && x.nodeStates[n].ACTIVATED? && !g.nodes[n].ACTIVITY?
    requires g.nodes[n].XOR_SPLIT? ==> Choice(g, x.data, n) == chosen
    ensures var y := Completed(g, Decided(g, x, n, chosen), n, chosen);
            Inv(g, y) && Extends(g, x, y) && y.nodeStates == x.nodeStates[n := COMPLETED]
  {
    CompleteKeepsInv(g, x, n, chosen);
    AutoCompleteExtends(g, x, n, chosen);
  }

  // --- what an advance does, in terms of the values and the edges -------------------------------

  /**
   The split `s` has taken the branch whose cell holds the value of its discriminator: its edge is
   TRUE, those of the other branches are FALSE.
   */
  ghost predicate TookItsCell(g: Schema, z: Instance, s: Id)
    requires s in g.decisions
  {
    var d := g.decisions[s];
    && d.discriminator in z.data && s in z.decisions
    && (exists k :: 0 <= k < |d.branches| && InCell(d, k, z.data[d.discriminator]) && d.branches[k].target == z.decisions[s])
    && Edge(s, z.decisions[s]) in g.edges
    && forall e :: e in g.edges && e.source == s ==>
         e in z.edgeStates && z.edgeStates[e] == if e.target == z.decisions[s] then TRUE_SIGNALED else FALSE_SIGNALED
  }

  /** Every split that was completed on the way from `x` to `z` has taken the branch of its cell. */
  ghost predicate CellsTaken(g: Schema, x: Instance, z: Instance) {
    forall s :: s in g.decisions && s in x.nodeStates && s in z.nodeStates && z.nodeStates[s].COMPLETED? && !x.nodeStates[s].COMPLETED? ==>
      TookItsCell(g, z, s)
  }

  lemma ChoiceIsCell(d: XorDecision, v: Value)
    requires Tiles(d) && |d.branches| >= 2 && ResolveTarget(d, v).Some?
    ensures exists k :: 0 <= k < |d.branches| && InCell(d, k, v) && d.branches[k].target == ResolveTarget(d, v).value
  {
    ResolveFailsOnNonNumbers(d, v);
    var k := ResolveFindsTheCell(d, v);
  }

  lemma SplitTakesItsCell(g: Schema, x: Instance, z: Instance, s: Id)
    requires K7(g) && Inv(g, x) && Inv(g, z) && Extends(g, x, z) && s in g.decisions && s in g.nodes
    requires z.nodeStates[s].COMPLETED? && !x.nodeStates[s].COMPLETED?
    ensures TookItsCell(g, z, s)
  {
    assert s in OfType(g, XOR_SPLIT);
    assert NodeOk(g, x, s) && NodeOk(g, z, s) && Grows(g, x, z, s);
    var d := g.decisions[s];
    ChoiceIsCell(d, z.data[d.discriminator]);
    forall e | e in g.edges && e.source == s
      ensures z.edgeStates[e] == if e.target == z.decisions[s] then TRUE_SIGNALED else FALSE_SIGNALED
    {
      assert z.edgeStates[e] == Told(g, z, e);
    }
  }

  /** The engine decides every split by the cell its discriminator's value lies in. */
  lemma SplitsTakeTheirCells(g: Schema, x: Instance, z: Instance)
    requires K7(g) && Inv(g, x) && Inv(g, z) && Extends(g, x, z)
    ensures CellsTaken(g, x, z)
  {
    forall s | s in g.decisions && s in x.nodeStates && s in z.nodeStates && z.nodeStates[s].COMPLETED? && !x.nodeStates[s].COMPLETED?
      ensures TookItsCell(g, z, s)
    {
      SplitTakesItsCell(g, x, z, s);
    }
  }

  /** The split `s` cannot be resolved: its discriminator has no value, or none that lies in a cell. */
  predicate Undecidable(g: Schema, data: map<Id, Value>, s: Id) {
    s in g.decisions &&
    (g.decisions[s].discriminator in data ==>
       g.decisions[s].kind.THRESHOLD? && !data[g.decisions[s].discriminator].Number?)
  }

  /** A reached split cannot be resolved exactly if its discriminator is missing or ill-typed. */
  lemma NoChoiceMeans(g: Schema, data: map<Id, Value>, s: Id)
    requires K7(g) && s in g.nodes && g.nodes[s].XOR_SPLIT?
    ensures Choice(g, data, s).None? <==> Undecidable(g, data, s)
  {
    assert s in OfType(g, XOR_SPLIT);
    var d := g.decisions[s];
    if d.discriminator in data { ResolveFailsOnNonNumbers(d, data[d.discriminator]); }
  }

  /**
   What completing the activity `n` makes of the others: finished nodes, decisions and activities that
   were reached stay as they are; no other activity is started or completed.
   */
  ghost predicate OnlyCompletes(g: Schema, x: Instance, n: Id, z: Instance) {
    && n in z.nodeStates && z.nodeStates[n].COMPLETED?
    && (forall e :: e in g.edges && e.source == n ==> e in z.edgeStates && z.edgeStates[e].TRUE_SIGNALED?)
    && (forall m :: m in g.nodes && m != n ==> m in x.nodeStates && m in z.nodeStates && OthersStay(g, x, m, z))
    && (forall s :: s in x.decisions ==> s in z.decisions && z.decisions[s] == x.decisions[s])
  }

  ghost predicate OthersStay(g: Schema, x: Instance, m: Id, z: Instance)
    requires m in g.nodes && m in x.nodeStates && m in z.nodeStates
  {
    && (x.nodeStates[m].Finished() ==> z.nodeStates[m] == x.nodeStates[m])
    && (g.nodes[m].ACTIVITY? && x.nodeStates[m] != NOT_ACTIVATED ==> z.nodeStates[m] == x.nodeStates[m])
    && (g.nodes[m].ACTIVITY? && x.nodeStates[m] == NOT_ACTIVATED ==> z.nodeStates[m] in {NOT_ACTIVATED, ACTIVATED, SKIPPED})
  }

  // --- the engine ----------------------------------------------------------------

  /** The working copy of an instance. */
  class Run {
    var done: bool
    var nodeStates: map<Id, NodeState>
    var edgeStates: map<Edge, Signal>
    var decisions: map<Id, Id>
    var data: map<Id, Value>

    function View(): Instance
      reads this
    {
      Instance(done, nodeStates, edgeStates, decisions, data)
    }

    /** `model_copy(deep=True)` */
    constructor (x: Instance)
      ensures View() == x
    {
      done, nodeStates, edgeStates, decisions, data := x.done, x.nodeStates, x.edgeStates, x.decisions, x.data;
    }

    /** The loop of `_complete_node` and `_skip_node`: put a signal on each of the given edges. */
    method SignalEdges(out: seq<Edge>, signal: Edge -> Signal)
      requires forall e :: e in out ==> e in edgeStates
      modifies this`edgeStates
      ensures edgeStates == map e | e in old(edgeStates) :: if e in out then signal(e) else old(edgeStates)[e]
    {
      ghost var before := edgeStates;
      for i := 0 to |out|
        invariant edgeStates.Keys == before.Keys
        invariant forall e :: e in out[..i] ==> edgeStates[e] == signal(e)
        invariant forall e :: e in before && e !in out[..i] ==> edgeStates[e] == before[e]
      {
        edgeStates := edgeStates[out[i] := signal(out[i])];
        assert out[..i + 1] == out[..i] + [out[i]];
      }
      assert out[..|out|] == out;
    }

    /** `_complete_node` */
    method CompleteNode(g: Schema, n: Id, chosen: Option<Id>)
      requires n in g.nodes && (forall e :: e in g.edges <==> e in edgeStates)
      modifies this
      ensures View() == Completed(g, old(View()), n, chosen)
    {
      nodeStates := nodeStates[n := COMPLETED];
      SignalEdges(Outgoing(g.edges, n), e => CompletionSignal(g, n, chosen, e));
      assert edgeStates == Completed(g, old(View()), n, chosen).edgeStates;
    }

    /** `_skip_node` */
    method SkipNode(g: Schema, n: Id)
      requires n in g.nodes && (forall e :: e in g.edges <==> e in edgeStates)
      modifies this
      ensures View() == Skipped(old(View()), n)
    {
      nodeStates := nodeStates[n := SKIPPED];
      SignalEdges(Outgoing(g.edges, n), e => FALSE_SIGNALED);
      assert edgeStates == Skipped(old(View()), n).edgeStates;
    }

    /** The nodes not reached yet, and the ones reached but not left: what `_advance` uses up. */
    ghost function Unreached(): set<Id>
      reads this
    {
      set n | n in nodeStates && nodeStates[n].NOT_ACTIVATED?
    }

    ghost function Reached(): set<Id>
      reads this
    {
      set n | n in nodeStates && nodeStates[n].ACTIVATED?
    }

    /** The signals on the incoming edges of a node: are all there, and do they activate it? */
    method ReadSignals(g: Schema, n: Id) returns (arrived: bool, activate: bool)
      requires Shaped(g, View()) && Connected(g) && n in g.nodes && !g.nodes[n].START?
      ensures arrived <==> Arrived(g, View(), n)
      ensures arrived ==> (activate <==> Enabled(g, View(), n))
    {
      var incoming := Incoming(g.edges, n);
      assert Entered(g, n);
      if incoming == [] || exists e :: e in incoming && edgeStates[e] == NOT_SIGNALED { return false, false; }
      arrived := true;
      activate := if g.nodes[n].AND_JOIN?
                  then forall e :: e in incoming ==> edgeStates[e] == TRUE_SIGNALED
                  else exists e :: e in incoming && edgeStates[e] == TRUE_SIGNALED;
    }

    /** The loop body of `_evaluate_targets`: one node whose incoming edges may all be signaled. */
    method EvaluateTarget(g: Schema, n: Id) returns (changed: bool)
      requires Inv(g, View()) && Connected(g) && n in g.nodes
      modifies this
      ensures Inv(g, View()) && Extends(g, old(View()), View())
      ensures changed <==> old(nodeStates)[n].NOT_ACTIVATED? && Arrived(g, old(View()), n)
      ensures !changed ==> View() == old(View())
      ensures changed ==> Unreached() == old(Unreached()) - {n} && n in old(Unreached())
    {
      if nodeStates[n] != NOT_ACTIVATED { return false; }
      ghost var x := View();
      assert !g.nodes[n].START? by { assert NodeOk(g, x, n); }
      var arrived, activate := ReadSignals(g, n);
      if !arrived { return false; }
      if activate {
        nodeStates := nodeStates[n := ACTIVATED];
        ActivateKeepsInv(g, x, n);
      } else {
        SkipNode(g, n);
        SkipKeepsInv(g, x, n);
      }
      ReachedExtends(g, x, View(), n);
      return true;
    }

    /** `_evaluate_targets`: activate or skip every node whose incoming edges are all signaled. */
    method EvaluateTargets(g: Schema, order: seq<Id>) returns (changed: bool)
      requires Inv(g, View()) && Connected(g) && Lists(order, g)
      modifies this
      ensures Inv(g, View()) && Extends(g, old(View()), View())
      ensures !changed ==> View() == old(View())
      ensures !changed ==> forall n :: n in g.nodes && nodeStates[n].NOT_ACTIVATED? ==> !Arrived(g, View(), n)
      ensures changed ==> Unreached() < old(Unreached())
    {
      changed := false;
      ghost var x := View();
      ghost var unreached := Unreached();
      for i := 0 to |order|
        invariant Inv(g, View()) && Extends(g, x, View())
        invariant !changed ==> View() == x
        invariant !changed ==> forall k :: 0 <= k < i && x.nodeStates[order[k]].NOT_ACTIVATED? ==> !Arrived(g, x, order[k])
        invariant Unreached() <= unreached && (changed ==> Unreached() < unreached)
      {
        ghost var y := View();
        var moved := EvaluateTarget(g, order[i]);
        ExtendsTransitive(g, x, y, View());
        changed := changed || moved;
      }
    }

    /** The END branch of `_advance`. */
    method FinishInstance(g: Schema, n: Id)
      requires Inv(g, View()) && Connected(g) && n in g.nodes && g.nodes[n].END? && nodeStates[n].ACTIVATED?
      modifies this
      ensures View() == old(View()).(nodeStates := old(nodeStates)[n := COMPLETED], done := true)
      ensures Inv(g, View()) && Extends(g, old(View()), View())
      ensures Unreached() == old(Unreached()) && Reached() == old(Reached()) - {n}
    {
      EndKeepsInv(g, View(), n);
      EndExtends(g, View(), n);
      nodeStates := nodeStates[n := COMPLETED];
      done := true;
    }

    /** The gateway branches of `_advance`: record the decision of an XOR split, then complete the node. */
    method LeaveNode(g: Schema, n: Id, chosen: Option<Id>)
      requires Inv(g, View()) && DecisionsFit(g) && n in g.nodes && nodeStates[n].ACTIVATED?
      requires !g.nodes[n].END? && !g.nodes[n].ACTIVITY?
      requires g.nodes[n].XOR_SPLIT? ==> chosen.Some? && Choice(g, data, n) == chosen
      modifies this
      ensures View() == Completed(g, Decided(g, old(View()), n, chosen), n, chosen)
      ensures Inv(g, View()) && Extends(g, old(View()), View())
      ensures Unreached() == old(Unreached()) && Reached() == old(Reached()) - {n}
    {
      if g.nodes[n].XOR_SPLIT? { ChoiceFits(g, data, n); }
      AutoStep(g, View(), n, chosen);
      Leave(g, n, chosen);
    }

    method Leave(g: Schema, n: Id, chosen: Option<Id>)
      requires n in g.nodes && (forall e :: e in g.edges <==> e in edgeStates)
      requires g.nodes[n].XOR_SPLIT? ==> chosen.Some?
      modifies this
      ensures View() == Completed(g, Decided(g, old(View()), n, chosen), n, chosen)
    {
      if g.nodes[n].XOR_SPLIT? { decisions := decisions[n := chosen.value]; }
      CompleteNode(g, n, chosen);
    }

    /** The loop body of `_advance`: complete one node that needs no interactive work. */
    method Fire(g: Schema, n: Id) returns (ok: bool, fired: bool)
      requires Inv(g, View()) && Runnable(g) && n in g.nodes
      modifies this
      ensures ok ==> Inv(g, View()) && Extends(g, old(View()), View())
      ensures fired ==> ok && Unreached() == old(Unreached()) && Reached() == old(Reached()) - {n} && n in old(Reached())
      ensures !fired ==> View() == old(View())
      ensures ok && !fired ==> (nodeStates[n].ACTIVATED? ==> g.nodes[n].ACTIVITY?)
      ensures !ok ==> g.nodes[n].XOR_SPLIT? && nodeStates[n].ACTIVATED? && Choice(g, data, n).None?
    {
      if nodeStates[n] != ACTIVATED || g.nodes[n].ACTIVITY? { return true, false; }
      if g.nodes[n].END? {
        FinishInstance(g, n);
        return true, true;
      }
      var chosen := None;
      if g.nodes[n].XOR_SPLIT? {
        chosen := Choice(g, data, n);
        if chosen.None? { return false, false; }
      }
      LeaveNode(g, n, chosen);
      return true, true;
    }

    /** The inner loop of `_advance`, which began at `x`: every node is looked at once. */
    method Sweep(g: Schema, order: seq<Id>, ghost x: Instance) returns (ok: bool, progress: bool)
      requires Inv(g, View()) && Runnable(g) && Lists(order, g) && Extends(g, x, View())
      modifies this
      ensures ok ==> Inv(g, View()) && Extends(g, x, View()) && Unreached() == old(Unreached()) && Reached() <= old(Reached())
      ensures ok && progress ==> Reached() < old(Reached())
      ensures ok && !progress ==> View() == old(View()) && forall n :: n in g.nodes && nodeStates[n].ACTIVATED? ==> g.nodes[n].ACTIVITY?
      ensures !ok ==> !exists z :: Outcome(g, x, z)
      ensures !ok ==> exists n :: n in g.nodes && g.nodes[n].XOR_SPLIT? && Choice(g, x.data, n).None?
    {
      ghost var start := View();
      progress := false;
      for i := 0 to |order|
        invariant Inv(g, View()) && Extends(g, x, View())
        invariant Unreached() == old(Unreached()) && Reached() <= old(Reached())
        invariant progress ==> Reached() < old(Reached())
        invariant !progress ==> View() == start
        invariant !progress ==> forall k :: 0 <= k < i && start.nodeStates[order[k]].ACTIVATED? ==> g.nodes[order[k]].ACTIVITY?
      {
        ghost var y := View();
        var resolved, fired := Fire(g, order[i]);
        if !resolved {
          ghost var rank :| Ranked(g, rank);
          StuckHasNoOutcome(g, rank, x, y, order[i]);
          return false, progress;
        }
        ExtendsTransitive(g, x, y, View());
        progress := progress || fired;
      }
      return true, progress;
    }

    /**
     `_advance`: complete what needs no work, then signal the targets, until nothing changes.
     `ok` is false where the code raises because a split cannot be resolved.
     */
    method Advance(g: Schema, order: seq<Id>) returns (ok: bool)
      requires Inv(g, View()) && Runnable(g) && Lists(order, g)
      modifies this
      ensures ok ==> Outcome(g, old(View()), View()) && data == old(data)
      ensures ok && K7(g) ==> CellsTaken(g, old(View()), View())
      ensures !ok ==> !exists z :: Outcome(g, old(View()), z)
      ensures !ok ==> exists n :: n in g.nodes && g.nodes[n].XOR_SPLIT? && Choice(g, old(data), n).None?
      ensures !ok && K7(g) ==> exists s :: Undecidable(g, old(data), s)
    {
      ghost var x := View();
      assert Extends(g, x, x) by { forall n | n in g.nodes ensures Grows(g, x, x, n) {} }
      var progress := true;
      while progress
        invariant Inv(g, View()) && Extends(g, x, View())
        invariant !progress ==> Settled(g, View())
        decreases Unreached(), Reached(), progress
      {
        ok, progress := Sweep(g, order, x);
        if !ok {
          NobodyChooses(g, x.data);
          return;
        }
        ghost var y := View();
        var changed := EvaluateTargets(g, order);
        ExtendsTransitive(g, x, y, View());
        if changed { progress := true; }
        assert !progress ==> Settled(g, View()) by {
          if !progress {
            forall n | n in g.nodes ensures SettledAt(g, View(), n) { assert n in order; }
          }
        }
      }
      if K7(g) { SplitsTakeTheirCells(g, x, View()); }
      return true;
    }
  }

  lemma NobodyChooses(g: Schema, data: map<Id, Value>)
    requires exists n :: n in g.nodes && g.nodes[n].XOR_SPLIT? && Choice(g, data, n).None?
    ensures K7(g) ==> exists s :: Undecidable(g, data, s)
  {
    if K7(g) {
      var n :| n in g.nodes && g.nodes[n].XOR_SPLIT? && Choice(g, data, n).None?;
      NoChoiceMeans(g, data, n);
    }
  }

  // --- requests --------------------------------------------------------------------

  /** The marking `instantiate` starts from: only START is activated. */
  function Initial(g: Schema, data: map<Id, Value>): Instance {
    Instance(false, map n | n in g.nodes :: if g.nodes[n].START? then ACTIVATED else NOT_ACTIVATED,
             map e | e in g.edges :: NOT_SIGNALED, map[], data)
  }

  lemma InitialKeepsInv(g: Schema, data: map<Id, Value>)
    requires Connected(g)
    ensures Inv(g, Initial(g, data))
  {
    var x := Initial(g, data);
    forall n | n in g.nodes ensures NodeOk(g, x, n) {}
  }

  /** `instantiate` */
  method Instantiate(g: Schema, order: seq<Id>, data: map<Id, Value>, allowUnreleased: bool) returns (r: Result<Instance>)
    requires Runnable(g) && Lists(order, g)
    ensures r.Ok? ==> (g.lifecycle.RELEASED? || allowUnreleased) && Outcome(g, Initial(g, data), r.value) && r.value.data == data
    ensures r.Ok? && K7(g) ==> forall s :: s in g.decisions && s in r.value.nodeStates && r.value.nodeStates[s].COMPLETED? ==> TookItsCell(g, r.value, s)
    ensures r.Ok? ==> forall n :: n in g.nodes && g.nodes[n].ACTIVITY? ==>
              n in r.value.nodeStates && r.value.nodeStates[n] in {NOT_ACTIVATED, ACTIVATED, SKIPPED}
    ensures r.Err? ==>
      || !(g.lifecycle.RELEASED? || allowUnreleased)
      || (!exists z :: Outcome(g, Initial(g, data), z))
    ensures r.Err? && K7(g) ==> !(g.lifecycle.RELEASED? || allowUnreleased) || exists s :: Undecidable(g, data, s)
  {
    if !g.lifecycle.RELEASED? && !allowUnreleased { return Err(NotExecutable("schema not RELEASED")); }
    InitialKeepsInv(g, data);
    var run := new Run(Initial(g, data));
    var ok := run.Advance(g, order);
    if !ok { return Err(NotExecutable("XOR split")); }
    assert forall n :: n in g.nodes ==> Grows(g, Initial(g, data), run.View(), n);
    return Ok(run.View());
  }

  /** `start_activity` */
  method StartActivity(x: Instance, g: Schema, n: Id) returns (r: Result<Instance>)
    requires Inv(g, x)
    ensures r.Ok? <==> !x.done && n in g.nodes && g.nodes[n].ACTIVITY? && x.nodeStates[n].ACTIVATED?
    ensures r.Ok? ==> r.value == Started(x, n) == x.(nodeStates := x.nodeStates[n := RUNNING])
  {
    if x.done { return Err(NotExecutable("instance not RUNNING")); }
    if n !in g.nodes || !g.nodes[n].ACTIVITY? { return Err(NotExecutable("no such ACTIVITY")); }
    if !x.nodeStates[n].ACTIVATED? { return Err(NotExecutable("not ACTIVATED")); }
    var run := new Run(x);
    run.nodeStates := run.nodeStates[n := RUNNING];
    return Ok(run.View());
  }

  function Started(x: Instance, n: Id): Instance {
    x.(nodeStates := x.nodeStates[n := RUNNING])
  }

  lemma StartKeepsInv(g: Schema, x: Instance, n: Id)
    requires Inv(g, x) && ReadyAt(g, x, n)
    ensures Inv(g, Started(x, n))
  {
    var y := Started(x, n);
    assert NodeOk(g, x, n);
    ArrivalsKept(g, x, y, n);
    OtherNodesKept(g, x, y, n);
    assert NodeOk(g, y, n);
  }

  lemma StartKeepsSettled(g: Schema, x: Instance, n: Id)
    requires Inv(g, x) && Settled(g, x) && ReadyAt(g, x, n)
    ensures Settled(g, Started(x, n))
  {
    forall m | m in g.nodes ensures SettledAt(g, Started(x, n), m) { assert SettledAt(g, x, m); }
  }

  /** The marking `complete_activity` advances from: data written, the activity completed. */
  function Begun(g: Schema, x: Instance, n: Id, data: map<Id, Value>): Instance
    requires n in g.nodes
  {
    Completed(g, x.(data := x.data + data), n, None)
  }

  lemma BegunKeepsInv(g: Schema, x: Instance, n: Id, data: map<Id, Value>)
    requires Inv(g, x) && ReadyAt(g, x, n)
    ensures Inv(g, Begun(g, x, n, data))
  {
    var y := x.(data := x.data + data);
    forall m | m in g.nodes ensures NodeOk(g, y, m) {
      assert NodeOk(g, x, m);
      if x.nodeStates[m] != NOT_ACTIVATED && !g.nodes[m].START? { ArrivalsKept(g, x, y, m); }
    }
    CompleteKeepsInv(g, y, n, None);
  }

  /** The copy of `complete_activity`: the data written, the activity completed. */
  method Begin(x: Instance, g: Schema, n: Id, data: map<Id, Value>) returns (run: Run)
    requires n in g.nodes && forall e :: e in g.edges <==> e in x.edgeStates
    ensures fresh(run) && run.View() == Begun(g, x, n, data)
  {
    run := new Run(x);
    run.data := run.data + data;
    run.CompleteNode(g, n, None);
  }

  /** `complete_activity`, without a context and without an agent. */
  method CompleteActivity(x: Instance, g: Schema, order: seq<Id>, n: Id, data: map<Id, Value>) returns (r: Result<Instance>)
    requires Inv(g, x) && Runnable(g) && Lists(order, g)
    ensures r.Ok? ==> !x.done && ReadyAt(g, x, n) && Outcome(g, Begun(g, x, n, data), r.value)
    ensures r.Err? && !x.done && ReadyAt(g, x, n) ==>
      && (!exists z :: Outcome(g, Begun(g, x, n, data), z))
      && (exists s :: s in g.nodes && g.nodes[s].XOR_SPLIT? && Choice(g, x.data + data, s).None?)
    ensures r.Ok? ==> r.value.data == x.data + data && OnlyCompletes(g, x, n, r.value)
    ensures r.Ok? && K7(g) ==> CellsTaken(g, x, r.value)
    ensures r.Err? && !x.done && ReadyAt(g, x, n) && K7(g) ==> exists s :: Undecidable(g, x.data + data, s)
  {
    if x.done { return Err(NotExecutable("instance not RUNNING")); }
    if n !in g.nodes || !g.nodes[n].ACTIVITY? { return Err(NotExecutable("no such ACTIVITY")); }
    if !x.nodeStates[n].ACTIVATED? && !x.nodeStates[n].RUNNING? { return Err(NotExecutable("not ready")); }
    BegunKeepsInv(g, x, n, data);
    var run := Begin(x, g, n, data);
    var ok := run.Advance(g, order);
    if !ok { return Err(NotExecutable("XOR split")); }
    CompletionMeans(g, x, n, data, run.View());
    return Ok(run.View());
  }

  /** What completing an activity means for the nodes, the splits and the data. */
  lemma CompletionMeans(g: Schema, x: Instance, n: Id, data: map<Id, Value>, z: Instance)
    requires Inv(g, x) && ReadyAt(g, x, n) && Outcome(g, Begun(g, x, n, data), z)
    ensures z.data == x.data + data && OnlyCompletes(g, x, n, z)
    ensures K7(g) ==> CellsTaken(g, x, z)
  {
    var y := Begun(g, x, n, data);
    BegunKeepsInv(g, x, n, data);
    if K7(g) { SplitsTakeTheirCells(g, y, z); }
    assert Grows(g, y, z, n);
    forall e | e in g.edges && e.source == n ensures z.edgeStates[e].TRUE_SIGNALED? { assert z.edgeStates[e] == Told(g, z, e); }
    forall m | m in g.nodes && m != n ensures OthersStay(g, x, m, z) { assert Grows(g, y, z, m); }
    forall s | s in x.decisions ensures s in z.decisions && z.decisions[s] == x.decisions[s] { assert Grows(g, y, z, s); }
  }

  // --- advancing ends ---------------------------------------------------------------------

  function Unreached(x: Instance): set<Id> {
    set n | n in x.nodeStates && x.nodeStates[n].NOT_ACTIVATED?
  }

  function Active(x: Instance): set<Id> {
    set n | n in x.nodeStates && x.nodeStates[n].ACTIVATED?
  }

  /** An XOR split that was reached and cannot be resolved. */
  ghost predicate StuckAt(g: Schema, x: Instance, n: Id) {
    && n in g.nodes && n in x.nodeStates
    && g.nodes[n].XOR_SPLIT? && x.nodeStates[n].ACTIVATED? && Choice(g, x.data, n).None?
  }

  lemma CompleteStep(g: Schema, x: Instance, n: Id) returns (y: Instance)
    requires Runnable(g) && Inv(g, x) && n in g.nodes && !StuckAt(g, x, n)
    requires x.nodeStates[n].ACTIVATED? && !g.nodes[n].ACTIVITY?
    ensures Inv(g, y) && Extends(g, x, y) && y.nodeStates == x.nodeStates[n := COMPLETED]
  {
    if g.nodes[n].END? {
      EndKeepsInv(g, x, n);
      EndExtends(g, x, n);
      y := x.(nodeStates := x.nodeStates[n := COMPLETED], done := true);
    } else {
      var chosen := Choice(g, x.data, n);
      if g.nodes[n].XOR_SPLIT? { ChoiceFits(g, x.data, n); }
      AutoStep(g, x, n, chosen);
      y := Completed(g, Decided(g, x, n, chosen), n, chosen);
    }
  }

  /** One automatic step at a node that is not settled. */
  lemma AutomaticStep(g: Schema, x: Instance, n: Id) returns (y: Instance)
    requires Runnable(g) && Inv(g, x) && n in g.nodes && !SettledAt(g, x, n) && !StuckAt(g, x, n)
    ensures Inv(g, y) && Extends(g, x, y)
    ensures y.nodeStates == x.nodeStates[n := y.nodeStates[n]] && n in x.nodeStates && n in y.nodeStates
    ensures if x.nodeStates[n].ACTIVATED? then y.nodeStates[n].COMPLETED? else x.nodeStates[n].NOT_ACTIVATED? && y.nodeStates[n] != NOT_ACTIVATED
  {
    if x.nodeStates[n].ACTIVATED? {
      y := CompleteStep(g, x, n);
    } else {
      assert NodeOk(g, x, n);
      if Enabled(g, x, n) {
        ActivateKeepsInv(g, x, n);
        y := x.(nodeStates := x.nodeStates[n := ACTIVATED]);
      } else {
        SkipKeepsInv(g, x, n);
        y := Skipped(x, n);
      }
      ReachedExtends(g, x, y, n);
    }
  }

  lemma StepUses(x: Instance, y: Instance, n: Id)
    requires n in x.nodeStates && n in y.nodeStates && y.nodeStates == x.nodeStates[n := y.nodeStates[n]]
    requires if x.nodeStates[n].ACTIVATED? then y.nodeStates[n].COMPLETED? else x.nodeStates[n].NOT_ACTIVATED? && y.nodeStates[n] != NOT_ACTIVATED
    ensures Unreached(y) < Unreached(x) || (Unreached(y) == Unreached(x) && Active(y) < Active(x))
  {
    if x.nodeStates[n].ACTIVATED? {
      assert Unreached(y) == Unreached(x);
      assert n in Active(x) && n !in Active(y);
    } else {
      assert n in Unreached(x) && n !in Unreached(y);
    }
  }

  /** Advancing ends in an outcome or at a split that cannot be resolved. */
  lemma {:induction false} AdvanceEnds(g: Schema, x: Instance) returns (z: Instance, stuck: Option<Id>)
    requires Runnable(g) && Inv(g, x)
    ensures Inv(g, z) && Extends(g, x, z)
    ensures if stuck.Some? then StuckAt(g, z, stuck.value) else Outcome(g, x, z)
    decreases Unreached(x), Active(x)
  {
    z, stuck := x, None;
    forall n | n in g.nodes ensures Grows(g, x, x, n) {}
    if !Settled(g, x) {
      var n :| n in g.nodes && !SettledAt(g, x, n);
      if StuckAt(g, x, n) {
        stuck := Some(n);
      } else {
        var y := AutomaticStep(g, x, n);
        StepUses(x, y, n);
        z, stuck := AdvanceEnds(g, y);
        ExtendsTransitive(g, x, y, z);
      }
    }
  }

  // --- independent completions commute --------------------------------------------------

  /** No branch decision reads one of the written elements. */
  ghost predicate NoDiscriminator(g: Schema, written: set<Id>) {
    forall s :: s in g.decisions ==> g.decisions[s].discriminator !in written
  }

  /** Completing one ready activity leaves another one ready. */
  lemma StaysReady(g: Schema, x: Instance, y: Instance, n: Id, m: Id, data: map<Id, Value>)
    requires ReadyAt(g, x, n) && ReadyAt(g, x, m) && n != m && Outcome(g, Begun(g, x, n, data), y)
    ensures ReadyAt(g, y, m)
  {
    assert Grows(g, Begun(g, x, n, data), y, m);
  }

  /** Completing `n` and then `m` is one outcome of having completed both. */
  lemma TwoCompletions(g: Schema, x: Instance, n: Id, d: map<Id, Value>, m: Id, e: map<Id, Value>, y: Instance, z: Instance)
    requires ReadyAt(g, x, n) && ReadyAt(g, x, m) && n != m && NoDiscriminator(g, d.Keys + e.Keys)
    requires Outcome(g, Begun(g, x, n, d), y) && Outcome(g, Begun(g, y, m, e), z)
    ensures Outcome(g, Begun(g, Begun(g, x, n, d), m, e), z)
  {
    var both := Begun(g, Begun(g, x, n, d), m, e);
    forall k | k in g.nodes ensures Grows(g, both, z, k) {
      assert Grows(g, Begun(g, x, n, d), y, k) && Grows(g, Begun(g, y, m, e), z, k);
    }
    assert z.data == both.data;
  }

  lemma BegunGrows(g: Schema, x: Instance, y: Instance, n: Id, d: map<Id, Value>, k: Id)
    requires Extends(g, x, y) && n in g.nodes && g.nodes[n].ACTIVITY? && k in g.nodes && NoDiscriminator(g, d.Keys)
    ensures k in Begun(g, x, n, d).nodeStates && k in Begun(g, y, n, d).nodeStates
    ensures Grows(g, Begun(g, x, n, d), Begun(g, y, n, d), k)
  {
    assert Grows(g, x, y, k);
    assert Choice(g, x.data + d, k) == Choice(g, x.data, k);
  }

  /** A marking that extends `x` still extends it when a ready activity is completed in both. */
  lemma BegunExtends(g: Schema, x: Instance, y: Instance, n: Id, d: map<Id, Value>)
    requires Inv(g, y) && Extends(g, x, y) && ReadyAt(g, x, n) && NoDiscriminator(g, d.Keys)
    ensures Inv(g, Begun(g, y, n, d)) && Extends(g, Begun(g, x, n, d), Begun(g, y, n, d))
  {
    assert Grows(g, x, y, n);
    BegunKeepsInv(g, y, n, d);
    forall k | k in g.nodes ensures Grows(g, Begun(g, x, n, d), Begun(g, y, n, d), k) { BegunGrows(g, x, y, n, d, k); }
  }

  /** A split that cannot be resolved cannot be resolved either once a ready activity is completed. */
  lemma StuckStays(g: Schema, x: Instance, y: Instance, n: Id, d: map<Id, Value>, s: Id)
    requires Acyclic(g) && Inv(g, y) && Extends(g, x, y) && ReadyAt(g, x, n) && NoDiscriminator(g, d.Keys) && StuckAt(g, y, s)
    ensures !exists z :: Outcome(g, Begun(g, x, n, d), z)
  {
    BegunExtends(g, x, y, n, d);
    assert Choice(g, y.data + d, s) == Choice(g, y.data, s);
    var rank :| Ranked(g, rank);
    StuckHasNoOutcome(g, rank, Begun(g, x, n, d), Begun(g, y, n, d), s);
  }

  /** Completing `m` first never gets stuck if completing both does not. */
  lemma OtherOrderStarts(g: Schema, x: Instance, n: Id, d: map<Id, Value>, m: Id, e: map<Id, Value>, z: Instance) returns (y': Instance)
    requires Runnable(g) && Inv(g, x) && ReadyAt(g, x, n) && ReadyAt(g, x, m) && n != m
    requires NoDiscriminator(g, d.Keys + e.Keys) && Outcome(g, Begun(g, Begun(g, x, m, e), n, d), z)
    ensures Outcome(g, Begun(g, x, m, e), y')
  {
    var stuck;
    BegunKeepsInv(g, x, m, e);
    y', stuck := AdvanceEnds(g, Begun(g, x, m, e));
    if stuck.Some? { StuckStays(g, Begun(g, x, m, e), y', n, d, stuck.value); }
  }

  /** Completing `n` after `m` was completed ends where having completed both ends. */
  lemma OtherOrderEnds(g: Schema, x: Instance, n: Id, d: map<Id, Value>, m: Id, e: map<Id, Value>, y': Instance, z: Instance)
    requires Acyclic(g) && Inv(g, x) && ReadyAt(g, x, n) && ReadyAt(g, x, m) && n != m && NoDiscriminator(g, d.Keys + e.Keys)
    requires Outcome(g, Begun(g, x, m, e), y') && Outcome(g, Begun(g, Begun(g, x, m, e), n, d), z)
    ensures Outcome(g, Begun(g, y', n, d), z)
  {
    BegunKeepsInv(g, x, m, e);
    BegunExtends(g, Begun(g, x, m, e), y', n, d);
    var rank :| Ranked(g, rank);
    Dominates(g, rank, Begun(g, Begun(g, x, m, e), n, d), Begun(g, y', n, d), z);
  }

  /**
   Two ready activities may be completed in either order: if they write different elements, none of
   which decides an XOR split, and one order succeeds, then so does the other, with the same
   resulting instance and no other.
   */
  lemma CompletionsCommute(g: Schema, x: Instance, n: Id, d: map<Id, Value>, m: Id, e: map<Id, Value>, y: Instance, z: Instance)
    returns (y': Instance)
    requires Runnable(g) && Inv(g, x)
    requires ReadyAt(g, x, n) && ReadyAt(g, x, m) && n != m
    requires d.Keys !! e.Keys && NoDiscriminator(g, d.Keys + e.Keys)
    requires Outcome(g, Begun(g, x, n, d), y) && Outcome(g, Begun(g, y, m, e), z)
    ensures Outcome(g, Begun(g, x, m, e), y') && Outcome(g, Begun(g, y', n, d), z)
    ensures forall w, z' :: Outcome(g, Begun(g, x, m, e), w) && Outcome(g, Begun(g, w, n, d), z') ==> z' == z
  {
    TwoCompletions(g, x, n, d, m, e, y, z);
    BothBegun(g, x, n, d, m, e);
    y' := OtherOrderStarts(g, x, n, d, m, e, z);
    OtherOrderEnds(g, x, n, d, m, e, y', z);
    var rank :| Ranked(g, rank);
    forall w, z' | Outcome(g, Begun(g, x, m, e), w) && Outcome(g, Begun(g, w, n, d), z') ensures z' == z {
      OutcomeIsUnique(g, rank, Begun(g, x, m, e), w, y');
      OutcomeIsUnique(g, rank, Begun(g, y', n, d), z, z');
    }
  }

  lemma BothBegun(g: Schema, x: Instance, n: Id, d: map<Id, Value>, m: Id, e: map<Id, Value>)
    requires n in g.nodes && m in g.nodes && d.Keys !! e.Keys && g.nodes[n].ACTIVITY? && g.nodes[m].ACTIVITY?
    ensures Begun(g, Begun(g, x, n, d), m, e) == Begun(g, Begun(g, x, m, e), n, d)
  {
    BothStates(x.nodeStates, n, m);
    BothData(x.data, d, e);
    BothSignals(g, x, n, d, m, e);
  }

  lemma BothStates(states: map<Id, NodeState>, n: Id, m: Id)
    ensures states[n := COMPLETED][m := COMPLETED] == states[m := COMPLETED][n := COMPLETED]
  {}

  lemma BothData(data: map<Id, Value>, d: map<Id, Value>, e: map<Id, Value>)
    requires d.Keys !! e.Keys
    ensures data + d + e == data + e + d
  {}

  lemma BothSignals(g: Schema, x: Instance, n: Id, d: map<Id, Value>, m: Id, e: map<Id, Value>)
    requires n in g.nodes && m in g.nodes && g.nodes[n].ACTIVITY? && g.nodes[m].ACTIVITY?
    ensures Begun(g, Begun(g, x, n, d), m, e).edgeStates == Begun(g, Begun(g, x, m, e), n, d).edgeStates
  {
    var a, b := Begun(g, Begun(g, x, n, d), m, e).edgeStates, Begun(g, Begun(g, x, m, e), n, d).edgeStates;
    BegunSignals(g, x, n, d);
    BegunSignals(g, x, m, e);
    BegunSignals(g, Begun(g, x, n, d), m, e);
    BegunSignals(g, Begun(g, x, m, e), n, d);
    forall f | f in a ensures f in b && a[f] == b[f] {}
    assert a.Keys == b.Keys;
  }

  /** Completing an activity signals TRUE on all edges that leave it. */
  lemma BegunSignals(g: Schema, x: Instance, n: Id, d: map<Id, Value>)
    requires n in g.nodes && g.nodes[n].ACTIVITY?
    ensures var y := Begun(g, x, n, d).edgeStates;
            && y.Keys == x.edgeStates.Keys
            && forall f :: f in y ==> y[f] == if f.source == n then TRUE_SIGNALED else x.edgeStates[f]
  {}

  // --- how much is left to do --------------------------------------------------------------

  /** The activities that are neither completed nor skipped. */
  function OpenActivities(g: Schema, x: Instance): set<Id> {
    set n | n in g.nodes && n in x.nodeStates && g.nodes[n].ACTIVITY? && !x.nodeStates[n].Finished()
  }

  /** Every completion uses up at least one open activity. */
  lemma CompletionUsesUp(g: Schema, x: Instance, n: Id, data: map<Id, Value>, y: Instance)
    requires ReadyAt(g, x, n) && Outcome(g, Begun(g, x, n, data), y)
    ensures OpenActivities(g, y) < OpenActivities(g, x)
  {
    forall m | m in OpenActivities(g, y) ensures m in OpenActivities(g, x) {
      assert Grows(g, Begun(g, x, n, data), y, m);
    }
    assert Grows(g, Begun(g, x, n, data), y, n);
    assert n in OpenActivities(g, x) && n !in OpenActivities(g, y);
  }
}

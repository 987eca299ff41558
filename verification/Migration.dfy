/**
 Schema evolution: moving a running instance onto a new schema version. The checks M2 and M3
 compare the executed regions; the module proves exactly when the moved marking is again a
 marking of the target that satisfies the invariant and is a fixpoint.
 */
module Migration {
  import opened Model
  import opened Blocks
  import opened Edits
  import opened Marking
  import opened Validator
  import opened Structure
  import opened Execution
  import opened Operations
  import opened Deletion
  import opened Adhoc

  // --- the checks ---------------------------------------------------------------------

  predicate Frozen(s: NodeState) { s.COMPLETED? || s.RUNNING? || s.SKIPPED? }

  /** `_frozen_nodes` */
  function FrozenNodes(x: Instance): set<Id> {
    set n | n in x.nodeStates && Frozen(x.nodeStates[n])
  }

  datatype Finding =
    | Missing(id: Id) | Retyped(id: Id) | EdgeLost(edge: Edge) | EdgeAdded(edge: Edge)   // M2
    | Rewired(id: Id) | RunningLost(id: Id) | NotAStep(id: Id)                           // M3

  /** The control edges inside the executed region. */
  predicate Internal(x: Instance, e: Edge) {
    e.source in FrozenNodes(x) && e.target in FrozenNodes(x)
  }

  predicate IsM2(x: Instance, g: Schema, h: Schema, f: Finding) {
    match f
    case Missing(n) => n in FrozenNodes(x) && n !in h.nodes
    case Retyped(n) => n in FrozenNodes(x) && n in h.nodes && n in g.nodes && h.nodes[n] != g.nodes[n]
    case EdgeLost(e) => Internal(x, e) && e in g.edges && e !in h.edges
    case EdgeAdded(e) => Internal(x, e) && e in h.edges && e !in g.edges
    case _ => false
  }

  predicate IsM3(x: Instance, g: Schema, h: Schema, f: Finding) {
    match f
    case Rewired(n) =>
      n in x.nodeStates && x.nodeStates[n].COMPLETED? && n in h.nodes
      && Ends(Outgoing(g.edges, n)) != Ends(Outgoing(h.edges, n))
    case RunningLost(n) => n in x.nodeStates && x.nodeStates[n].RUNNING? && n !in h.nodes
    case NotAStep(n) => n in x.nodeStates && x.nodeStates[n].RUNNING? && n in h.nodes && !h.nodes[n].IsStep()
    case _ => false
  }

  /** One node of `_check_m2`. */
  function NodeFindings(x: Instance, g: Schema, h: Schema, n: Id): seq<Finding> {
    if n !in h.nodes then [Missing(n)]
    else if n in g.nodes && h.nodes[n] != g.nodes[n] then [Retyped(n)]
    else []
  }

  /** The node was executed, is being executed or was skipped. */
  predicate Executed(x: Instance, n: Id) {
    n in x.nodeStates && x.nodeStates[n] in {COMPLETED, RUNNING, SKIPPED}
  }

  /** `_check_m2`: every finding of the rule is reported. */
  method CheckM2(x: Instance, g: Schema, h: Schema) returns (findings: seq<Finding>)
    ensures forall f :: f in findings <==> IsM2(x, g, h, f)
    ensures RegionFindings(x, g, h, findings)
  {
    findings := [];
    var left := FrozenNodes(x);
    while left != {}
      invariant left <= FrozenNodes(x)
      invariant forall f :: f in findings <==> (f.Missing? || f.Retyped?) && f.id !in left && IsM2(x, g, h, f)
      decreases left
    {
      var n :| n in left;
      findings := findings + NodeFindings(x, g, h, n);
      left := left - {n};
    }
    var lost := set e | e in g.edges && Internal(x, e) && e !in h.edges;
    while lost != {}
      invariant forall e :: e in lost ==> IsM2(x, g, h, EdgeLost(e))
      invariant forall f :: f in findings <==> !f.EdgeAdded? && IsM2(x, g, h, f) && (f.EdgeLost? ==> f.edge !in lost)
      decreases lost
    {
      var e :| e in lost;
      findings := findings + [EdgeLost(e)];
      lost := lost - {e};
    }
    var added := set e | e in h.edges && Internal(x, e) && e !in g.edges;
    while added != {}
      invariant forall e :: e in added ==> IsM2(x, g, h, EdgeAdded(e))
      invariant forall f :: f in findings <==> IsM2(x, g, h, f) && (f.EdgeAdded? ==> f.edge !in added)
      decreases added
    {
      var e :| e in added;
      findings := findings + [EdgeAdded(e)];
      added := added - {e};
    }
    M2Means(x, g, h, findings);
  }

  /** The findings of M2 in full: what is missing or retyped in the executed region, and the edges lost or added there. */
  ghost predicate RegionFindings(x: Instance, g: Schema, h: Schema, findings: seq<Finding>) {
    && (forall n :: Missing(n) in findings <==> Executed(x, n) && n !in h.nodes)
    && (forall n :: Retyped(n) in findings <==> Executed(x, n) && n in h.nodes && n in g.nodes && h.nodes[n] != g.nodes[n])
    && (forall a, b :: EdgeLost(Edge(a, b)) in findings <==> Executed(x, a) && Executed(x, b) && Edge(a, b) in g.edges && Edge(a, b) !in h.edges)
    && (forall a, b :: EdgeAdded(Edge(a, b)) in findings <==> Executed(x, a) && Executed(x, b) && Edge(a, b) in h.edges && Edge(a, b) !in g.edges)
  }

  lemma M2Means(x: Instance, g: Schema, h: Schema, findings: seq<Finding>)
    requires forall f :: f in findings <==> IsM2(x, g, h, f)
    ensures RegionFindings(x, g, h, findings)
  {}

  /** One node of `_check_m3`. */
  function MarkingFindings(x: Instance, g: Schema, h: Schema, n: Id): seq<Finding>
    requires n in x.nodeStates
  {
    match x.nodeStates[n]
    case COMPLETED =>
      if n in h.nodes && Ends(Outgoing(g.edges, n)) != Ends(Outgoing(h.edges, n)) then [Rewired(n)] else []
    case RUNNING =>
      if n !in h.nodes then [RunningLost(n)] else if !h.nodes[n].IsStep() then [NotAStep(n)] else []
    case _ => []
  }

  /** The node an M3 finding is about. */
  predicate About(f: Finding, n: Id) {
    (f.Rewired? || f.RunningLost? || f.NotAStep?) && f.id == n
  }

  lemma MarkingFindingsAre(x: Instance, g: Schema, h: Schema, n: Id, f: Finding)
    requires n in x.nodeStates
    ensures f in MarkingFindings(x, g, h, n) <==> About(f, n) && IsM3(x, g, h, f)
  {}

  /** `_check_m3` */
  method CheckM3(x: Instance, g: Schema, h: Schema) returns (findings: seq<Finding>)
    ensures forall f :: f in findings <==> IsM3(x, g, h, f)
    ensures MappingFindings(x, g, h, findings)
  {
    findings := [];
    var left := x.nodeStates.Keys;
    while left != {}
      invariant left <= x.nodeStates.Keys
      invariant forall f :: f in findings <==> IsM3(x, g, h, f) && f.id !in left
      decreases left
    {
      var n :| n in left;
      forall f { MarkingFindingsAre(x, g, h, n, f); }
      findings := findings + MarkingFindings(x, g, h, n);
      left := left - {n};
    }
    M3Means(x, g, h, findings);
  }

  /** The findings of M3 in full: completed nodes whose successors change, running nodes that are gone or no steps. */
  ghost predicate MappingFindings(x: Instance, g: Schema, h: Schema, findings: seq<Finding>) {
    forall n {:trigger Rewired(n) in findings} {:trigger RunningLost(n) in findings} {:trigger NotAStep(n) in findings} ::
      && (Rewired(n) in findings <==> n in x.nodeStates && x.nodeStates[n] == COMPLETED && n in h.nodes && !SameSuccessors(g, h, n))
      && (RunningLost(n) in findings <==> n in x.nodeStates && x.nodeStates[n] == RUNNING && n !in h.nodes)
      && (NotAStep(n) in findings <==> n in x.nodeStates && x.nodeStates[n] == RUNNING && n in h.nodes && h.nodes[n] !in {ACTIVITY, SUBPROCESS})
  }

  lemma M3At(x: Instance, g: Schema, h: Schema, findings: seq<Finding>, n: Id)
    requires forall f :: f in findings <==> IsM3(x, g, h, f)
    ensures Rewired(n) in findings <==> n in x.nodeStates && x.nodeStates[n] == COMPLETED && n in h.nodes && !SameSuccessors(g, h, n)
    ensures RunningLost(n) in findings <==> n in x.nodeStates && x.nodeStates[n] == RUNNING && n !in h.nodes
    ensures NotAStep(n) in findings <==> n in x.nodeStates && x.nodeStates[n] == RUNNING && n in h.nodes && h.nodes[n] !in {ACTIVITY, SUBPROCESS}
  {
    SuccessorsSame(g, h, n);
  }

  lemma M3Means(x: Instance, g: Schema, h: Schema, findings: seq<Finding>)
    requires forall f :: f in findings <==> IsM3(x, g, h, f)
    ensures MappingFindings(x, g, h, findings)
  {
    forall n
      ensures Rewired(n) in findings <==> n in x.nodeStates && x.nodeStates[n] == COMPLETED && n in h.nodes && !SameSuccessors(g, h, n)
      ensures RunningLost(n) in findings <==> n in x.nodeStates && x.nodeStates[n] == RUNNING && n !in h.nodes
      ensures NotAStep(n) in findings <==> n in x.nodeStates && x.nodeStates[n] == RUNNING && n in h.nodes && h.nodes[n] !in {ACTIVITY, SUBPROCESS}
    {
      M3At(x, g, h, findings, n);
    }
  }

  ghost predicate SameSuccessors(g: Schema, h: Schema, n: Id) {
    forall t :: Edge(n, t) in g.edges <==> Edge(n, t) in h.edges
  }

  lemma SuccessorsSame(g: Schema, h: Schema, n: Id)
    ensures Ends(Outgoing(g.edges, n)) == Ends(Outgoing(h.edges, n)) <==> SameSuccessors(g, h, n)
  {
    forall t ensures t in Ends(Outgoing(g.edges, n)) <==> Edge(n, t) in g.edges { SuccessorIn(g.edges, n, t); }
    forall t ensures t in Ends(Outgoing(h.edges, n)) <==> Edge(n, t) in h.edges { SuccessorIn(h.edges, n, t); }
  }

  lemma SuccessorIn(es: seq<Edge>, n: Id, t: Id)
    ensures t in Ends(Outgoing(es, n)) <==> Edge(n, t) in es
  {
    if t in Ends(Outgoing(es, n)) {
      var e :| e in Outgoing(es, n) && e.target == t;
      assert e == Edge(n, t);
    }
    if Edge(n, t) in es { assert Edge(n, t) in Outgoing(es, n); }
  }

  /** M2 and M3 find nothing. */
  ghost predicate Passes(x: Instance, g: Schema, h: Schema) {
    forall f :: !IsM2(x, g, h, f) && !IsM3(x, g, h, f)
  }

  /** The marking after the switch: every element that exists in both schemas keeps its state. */
  function Migrated(h: Schema, x: Instance, mapping: map<Id, Value>): Instance {
    x.(nodeStates := map n | n in h.nodes :: if n in x.nodeStates then x.nodeStates[n] else NOT_ACTIVATED,
       edgeStates := map e | e in h.edges :: if e in x.edgeStates then x.edgeStates[e] else NOT_SIGNALED,
       data := x.data + mapping)
  }

  // --- the past of an instance ------------------------------------------------------------

  function FinishedNodes(x: Instance): set<Id> {
    set n | n in x.nodeStates && x.nodeStates[n].Finished()
  }

  /** An edge is signaled exactly when its source is finished. */
  lemma SignaledIff(g: Schema, x: Instance, e: Edge)
    requires Inv(g, x) && e in g.edges
    ensures x.edgeStates[e] != NOT_SIGNALED <==> e.source in FinishedNodes(x)
  {
    assert x.edgeStates[e] == Told(g, x, e);
  }

  /** Every node of `past` but START is entered by an edge from `past`. */
  ghost predicate Rooted(k: Schema, past: set<Id>) {
    forall n :: n in past && n in k.nodes && !k.nodes[n].START? ==> EnteredFrom(k, past, n)
  }

  ghost predicate EnteredFrom(k: Schema, past: set<Id>, n: Id) {
    exists e :: e in k.edges && e.target == n && e.source in past
  }

  /** A part of the graph that is entered from a node outside `past` lies outside `past`. */
  lemma {:induction false} NotPast(k: Schema, rank: map<Id, nat>, past: set<Id>, b: Block, src: Id, dst: Id, n: Id)
    requires Ranked(k, rank) && Rooted(k, past) && Embedded(k.nodes, multiset(k.edges), b, src, dst)
    requires (IsChain(b) || IsBundle(b)) && src !in past && n in Ids(b)
    ensures n !in past
    decreases if n in rank then rank[n] else 0
  {
    TypedInside(k.nodes, b, n);
    if n in past {
      assert EnteredFrom(k, past, n);
      var e :| e in k.edges && e.target == n && e.source in past;
      assert e in multiset(k.edges) && Touches(e, Ids(b));
      EdgeEnds(b, src, dst, e);
      NotPast(k, rank, past, b, src, dst, e.source);
    }
  }

  lemma ChainNotPast(k: Schema, past: set<Id>, b: Block, src: Id, dst: Id)
    requires Acyclic(k) && Rooted(k, past) && Embedded(k.nodes, multiset(k.edges), b, src, dst)
    requires IsChain(b) && src !in past
    ensures Ids(b) !! past && Last(b, src) !in past
  {
    var rank :| Ranked(k, rank);
    forall n | n in Ids(b) ensures n !in past { NotPast(k, rank, past, b, src, dst, n); }
    LastIsInside(b, src);
  }

  // --- two graphs that agree about the past of an instance -----------------------------------

  /** Finished nodes have the same outgoing edges in both schemas. */
  ghost predicate SameOut(g: Schema, h: Schema, past: set<Id>) {
    forall e: Edge :: e.source in past ==> (e in g.edges <==> e in h.edges)
  }

  /** Finished nodes have the same type in both schemas. */
  ghost predicate SameTypes(g: Schema, h: Schema, past: set<Id>) {
    forall n :: n in past ==> n in g.nodes && n in h.nodes && h.nodes[n] == g.nodes[n]
  }

  ghost predicate Aligned(g: Schema, h: Schema, x: Instance) {
    && Inv(g, x) && Settled(g, x) && Acyclic(g) && Acyclic(h)
    && Rooted(g, FinishedNodes(x)) && Rooted(h, FinishedNodes(x))
    && SameOut(g, h, FinishedNodes(x)) && SameTypes(g, h, FinishedNodes(x))
  }

  /** A node that can close a chain. */
  ghost predicate Closes(k: Schema, n: Id) {
    n in k.nodes && (k.nodes[n].IsJoin() || k.nodes[n].END?)
  }

  /** Two chains in place, entered from the same finished node. */
  ghost predicate Paired(g: Schema, h: Schema, x: Instance, b: Block, b': Block, src: Id, dst: Id, dst': Id) {
    && Aligned(g, h, x) && IsChain(b) && IsChain(b')
    && Embedded(g.nodes, multiset(g.edges), b, src, dst) && Embedded(h.nodes, multiset(h.edges), b', src, dst')
    && src in FinishedNodes(x) && First(b, dst) == First(b', dst') && Closes(g, dst) && Closes(h, dst')
  }

  /** The node behind a finished one is reached, or it is a join that waits. */
  lemma Behind(g: Schema, x: Instance, src: Id, n: Id)
    requires Inv(g, x) && Settled(g, x) && Edge(src, n) in g.edges && src in FinishedNodes(x)
    requires forall e :: e in g.edges && e.target == n ==> e == Edge(src, n)
    ensures x.nodeStates[n] != NOT_ACTIVATED
  {
    SignaledIff(g, x, Edge(src, n));
    assert SettledAt(g, x, n);
  }

  /** A chain whose first node was not passed was not passed at all. */
  lemma HeadNotPast(k: Schema, past: set<Id>, b: Block, src: Id, dst: Id)
    requires Acyclic(k) && Rooted(k, past) && Embedded(k.nodes, multiset(k.edges), b, src, dst)
    requires IsChain(b) && !b.Done? && First(b, dst) !in past
    ensures Ids(b) !! past && Last(b, src) !in past
  {
    if b.Task? {
      EmbeddedTask(k.nodes, multiset(k.edges), b, src, dst);
    } else {
      EmbeddedGateway(k.nodes, multiset(k.edges), b, src, dst);
      BranchesNotPast(k, past, b, src, dst);
    }
    ChainNotPast(k, past, b.next, HeadEnd(b, src), dst);
    assert Last(b, src) == Last(b.next, HeadEnd(b, src));
  }

  lemma BranchesNotPast(k: Schema, past: set<Id>, b: Block, src: Id, dst: Id)
    requires Acyclic(k) && Rooted(k, past) && Embedded(k.nodes, multiset(k.edges), b, src, dst)
    requires IsChain(b) && b.Gateway? && b.split !in past
    ensures Ids(b.branches) !! past && b.join !in past
  {
    EmbeddedGateway(k.nodes, multiset(k.edges), b, src, dst);
    var rank :| Ranked(k, rank);
    forall n | n in Ids(b.branches) ensures n !in past { NotPast(k, rank, past, b.branches, b.split, b.join, n); }
    if b.join in past {
      assert EnteredFrom(k, past, b.join);
      var e :| e in k.edges && e.target == b.join && e.source in past;
      DeadSource(k, b, src, dst, e);
    }
  }

  /** A chain of the one graph that is at its end is at its end in the other, or goes on ahead of the front. */
  lemma DoneHead(g: Schema, h: Schema, x: Instance, b: Block, b': Block, src: Id, dst: Id, dst': Id)
    requires Paired(g, h, x, b, b', src, dst, dst') && b.Done?
    ensures if b'.Done? then dst' == dst else !Stable(g, h, FinishedNodes(x), dst) && Last(b', src) !in FinishedNodes(x)
  {
    if !b'.Done? {
      FirstType(h, b', dst');
      HeadNotPast(h, FinishedNodes(x), b', src, dst');
    }
  }

  lemma TaskHead(g: Schema, h: Schema, x: Instance, b: Block, b': Block, src: Id, dst: Id, dst': Id)
    requires Paired(g, h, x, b, b', src, dst, dst') && b.Task? && b.id in FinishedNodes(x)
    ensures b'.Task? && b'.id == b.id
  {
    assert h.nodes[b.id] == g.nodes[b.id] && g.nodes[b.id].IsStep();
  }

  /** A step that was not passed ends the walk. */
  lemma TaskAhead(g: Schema, h: Schema, x: Instance, b: Block, b': Block, src: Id, dst: Id, dst': Id)
    requires Paired(g, h, x, b, b', src, dst, dst') && b.Task? && b.id !in FinishedNodes(x)
    ensures Synced(g, h, x, b, b', src, dst, dst')
  {
    HeadNotPast(g, FinishedNodes(x), b, src, dst);
    if !b'.Done? { HeadNotPast(h, FinishedNodes(x), b', src, dst'); }
    assert !Stable(g, h, FinishedNodes(x), b.id);
    EmbeddedTask(g.nodes, multiset(g.edges), b, src, dst);
    forall n | n in Ids(b.next) ensures JoinKept(g, h, x, n) { AheadJoin(g, h, x, b.next, b.id, dst, n); }
    assert JoinKept(g, h, x, b.id);
  }

  lemma GatewayHead(g: Schema, h: Schema, x: Instance, b: Block, b': Block, src: Id, dst: Id, dst': Id)
    requires Paired(g, h, x, b, b', src, dst, dst') && b.Gateway?
    ensures b'.Gateway? && b'.split == b.split && b'.logic == b.logic && b.split in FinishedNodes(x)
  {
    OnlyIncoming(g, b, src, dst, b.split);
    Behind(g, x, src, b.split);
    assert SettledAt(g, x, b.split) && NodeOk(g, x, b.split);
    assert h.nodes[b.split] == g.nodes[b.split] && g.nodes[b.split].IsSplit();
  }

  /** Behind a finished end of both heads the chains go on alike. */
  lemma NextPaired(g: Schema, h: Schema, x: Instance, b: Block, b': Block, src: Id, dst: Id, dst': Id)
    requires Paired(g, h, x, b, b', src, dst, dst') && !b.Done? && !b'.Done?
    requires HeadEnd(b, src) == HeadEnd(b', src) && HeadEnd(b, src) in FinishedNodes(x)
    ensures Paired(g, h, x, b.next, b'.next, HeadEnd(b, src), dst, dst')
  {
    var end := HeadEnd(b, src);
    if b.Task? { EmbeddedTask(g.nodes, multiset(g.edges), b, src, dst); } else { EmbeddedGateway(g.nodes, multiset(g.edges), b, src, dst); }
    if b'.Task? { EmbeddedTask(h.nodes, multiset(h.edges), b', src, dst'); } else { EmbeddedGateway(h.nodes, multiset(h.edges), b', src, dst'); }
    AroundHead(g, b, src, dst);
    AroundHead(h, b', src, dst');
    assert Edge(end, First(b.next, dst)) in g.edges;
    assert Edge(end, First(b.next, dst)) in h.edges;
  }

  // --- walking both terms at once ---------------------------------------------------------------

  /** A node that was passed, or is a join in both graphs. */
  ghost predicate Stable(g: Schema, h: Schema, past: set<Id>, n: Id) {
    n in past || (n in g.nodes && g.nodes[n].IsJoin() && n in h.nodes && h.nodes[n].IsJoin())
  }

  /** A branch was left through this edge, to a node that was passed or joins branches still. */
  ghost predicate LeftThrough(g: Schema, h: Schema, past: set<Id>, e: Edge) {
    e.source in past && Stable(g, h, past, e.target)
  }

  /** A branch exit that is passed in one of the graphs is the same edge in both. */
  ghost predicate Agree(g: Schema, h: Schema, past: set<Id>, p: Port, p': Port) {
    LeftThrough(g, h, past, p.exit) || LeftThrough(g, h, past, p'.exit) ==> p.exit == p'.exit
  }

  ghost predicate Matched(g: Schema, h: Schema, past: set<Id>, p: Port, ports': set<Port>) {
    exists p' :: p' in ports' && p'.entry == p.entry && Agree(g, h, past, p, p')
  }

  ghost predicate SameIn(g: Schema, h: Schema, n: Id) {
    forall e: Edge :: e.target == n ==> (e in g.edges <==> e in h.edges)
  }

  /** An edge into `n` that has not been signaled. */
  ghost predicate StillOpen(h: Schema, past: set<Id>, n: Id) {
    exists e :: e in h.edges && e.target == n && e.source !in past
  }

  /** A passed join has kept its incoming edges; a waiting one that is a join still waits. */
  ghost predicate JoinKept(g: Schema, h: Schema, x: Instance, n: Id) {
    n in g.nodes && n in x.nodeStates && g.nodes[n].IsJoin() ==>
      && (x.nodeStates[n] != NOT_ACTIVATED ==> SameIn(g, h, n))
      && (x.nodeStates[n].NOT_ACTIVATED? && EnteredFrom(g, FinishedNodes(x), n) && n in h.nodes && h.nodes[n].IsJoin() ==>
            StillOpen(h, FinishedNodes(x), n))
  }

  /** What the walk establishes for a pair of chains. */
  ghost predicate Synced(g: Schema, h: Schema, x: Instance, b: Block, b': Block, src: Id, dst: Id, dst': Id) {
    && Agree(g, h, FinishedNodes(x), Port(Edge(src, First(b, dst)), Edge(Last(b, src), dst)),
                               Port(Edge(src, First(b', dst')), Edge(Last(b', src), dst')))
    && forall n :: n in Ids(b) ==> JoinKept(g, h, x, n)
  }

  /** Nothing behind an unfinished node has been passed in either graph. */
  lemma Ahead(g: Schema, h: Schema, x: Instance, b: Block, b': Block, src: Id, src': Id, dst: Id, dst': Id)
    requires Aligned(g, h, x) && IsChain(b) && IsChain(b')
    requires Embedded(g.nodes, multiset(g.edges), b, src, dst) && Embedded(h.nodes, multiset(h.edges), b', src', dst')
    requires src !in FinishedNodes(x) && src' !in FinishedNodes(x)
    ensures Last(b, src) !in FinishedNodes(x) && Last(b', src') !in FinishedNodes(x)
    ensures forall n :: n in Ids(b) ==> JoinKept(g, h, x, n)
  {
    var past := FinishedNodes(x);
    ChainNotPast(g, past, b, src, dst);
    ChainNotPast(h, past, b', src', dst');
    forall n | n in Ids(b) ensures JoinKept(g, h, x, n) { AheadJoin(g, h, x, b, src, dst, n); }
  }

  lemma AheadJoin(g: Schema, h: Schema, x: Instance, b: Block, src: Id, dst: Id, n: Id)
    requires Aligned(g, h, x) && IsChain(b) && Embedded(g.nodes, multiset(g.edges), b, src, dst) && n in Ids(b)
    requires src !in FinishedNodes(x) && Ids(b) !! FinishedNodes(x)
    ensures JoinKept(g, h, x, n)
  {
    if EnteredFrom(g, FinishedNodes(x), n) {
      var e :| e in g.edges && e.target == n && e.source in FinishedNodes(x);
      assert e in multiset(g.edges) && Touches(e, Ids(b));
      EdgeEnds(b, src, dst, e);
    }
    assert n in g.nodes && g.nodes[n].IsJoin() ==> SettledAt(g, x, n) && NodeOk(g, x, n);
  }

  /** Port matching seen from the other graph. */
  lemma MatchedBack(g: Schema, h: Schema, past: set<Id>, ports: set<Port>, ports': set<Port>, s: Id, j: Id, j': Id, p': Port)
    returns (p: Port)
    requires Bundled(g, ports, s, j) && Bundled(h, ports', s, j') && SameOut(g, h, past) && s in past
    requires forall p :: p in ports ==> Matched(g, h, past, p, ports')
    requires p' in ports'
    ensures p in ports && p.entry == p'.entry && Agree(g, h, past, p, p')
  {
    assert p'.entry in g.edges && IsEntry(ports, p'.entry);
    p :| p in ports && p.entry == p'.entry;
    assert Matched(g, h, past, p, ports');
    var q :| q in ports' && q.entry == p.entry && Agree(g, h, past, p, q);
    assert q == p';
  }

  lemma JoinsCoincide(g: Schema, h: Schema, x: Instance, ports: set<Port>, ports': set<Port>, s: Id, j: Id, j': Id)
    requires Aligned(g, h, x) && s in FinishedNodes(x)
    requires Bundled(g, ports, s, j) && Bundled(h, ports', s, j')
    requires forall p :: p in ports ==> Matched(g, h, FinishedNodes(x), p, ports')
    requires j in g.nodes && !g.nodes[j].START? && j' in h.nodes && !h.nodes[j'].START?
    ensures j in FinishedNodes(x) || j' in FinishedNodes(x) ==> j == j'
  {
    var past := FinishedNodes(x);
    if j in past {
      assert EnteredFrom(g, past, j);
      var e :| e in g.edges && e.target == j && e.source in past;
      assert IsExit(ports, e);
      var p :| p in ports && p.exit == e;
      assert Matched(g, h, past, p, ports');
    } else if j' in past {
      assert EnteredFrom(h, past, j');
      var e :| e in h.edges && e.target == j' && e.source in past;
      assert IsExit(ports', e);
      var p' :| p' in ports' && p'.exit == e;
      var p := MatchedBack(g, h, past, ports, ports', s, j, j', p');
    }
  }

  lemma PassedJoinKept(g: Schema, h: Schema, x: Instance, ports: set<Port>, ports': set<Port>, s: Id, j: Id)
    requires Aligned(g, h, x) && s in FinishedNodes(x)
    requires Bundled(g, ports, s, j) && Bundled(h, ports', s, j)
    requires forall p :: p in ports ==> Matched(g, h, FinishedNodes(x), p, ports')
    requires j in g.nodes && !g.nodes[j].START? && j in FinishedNodes(x)
    ensures SameIn(g, h, j)
  {
    var past := FinishedNodes(x);
    assert NodeOk(g, x, j);
    forall e: Edge | e.target == j ensures e in g.edges <==> e in h.edges {
      if e in g.edges {
        assert IsExit(ports, e);
        var p :| p in ports && p.exit == e;
        SignaledIff(g, x, e);
        assert Matched(g, h, past, p, ports');
      }
      if e in h.edges {
        assert IsExit(ports', e);
        var p' :| p' in ports' && p'.exit == e;
        var p := MatchedBack(g, h, past, ports, ports', s, j, j, p');
        SignaledIff(g, x, p.exit);
      }
    }
  }

  lemma WaitingJoinKept(g: Schema, h: Schema, x: Instance, ports: set<Port>, ports': set<Port>, s: Id, j: Id, j': Id)
    requires Aligned(g, h, x) && Bundled(g, ports, s, j) && Bundled(h, ports', s, j')
    requires forall p :: p in ports ==> Matched(g, h, FinishedNodes(x), p, ports')
    requires j in g.nodes && x.nodeStates[j].NOT_ACTIVATED? && EnteredFrom(g, FinishedNodes(x), j)
    requires g.nodes[j].IsJoin() && j in h.nodes && h.nodes[j].IsJoin()
    ensures StillOpen(h, FinishedNodes(x), j)
  {
    var past := FinishedNodes(x);
    var e :| e in g.edges && e.target == j && e.source in past;
    assert IsExit(ports, e);
    var p :| p in ports && p.exit == e;
    var p' := ExitMatched(g, h, past, ports, ports', s, j, j', p);
    assert p'.exit == e;
    assert SettledAt(g, x, j);
    var f :| f in g.edges && f.target == j && x.edgeStates[f] == NOT_SIGNALED;
    SignaledIff(g, x, f);
    assert IsExit(ports, f);
    var q :| q in ports && q.exit == f;
    var q' := ExitMatched(g, h, past, ports, ports', s, j, j', q);
    assert q'.exit in h.edges && q'.exit.target == j && q'.exit.source !in past;
  }

  /** The exit of a branch, and that of its partner, if the join is one in both graphs. */
  lemma ExitMatched(g: Schema, h: Schema, past: set<Id>, ports: set<Port>, ports': set<Port>, s: Id, j: Id, j': Id, p: Port) returns (p': Port)
    requires Bundled(g, ports, s, j) && Bundled(h, ports', s, j') && p in ports && Matched(g, h, past, p, ports') && Stable(g, h, past, j)
    ensures p' in ports' && p'.entry == p.entry
    ensures p.exit.source in past || (p'.exit.source in past && j' == j) ==> p'.exit == p.exit
  {
    p' :| p' in ports' && p'.entry == p.entry && Agree(g, h, past, p, p');
  }

  /** The branch a port belongs to. */
  lemma {:induction false} BranchOf(h: Schema, b: Block, s: Id, j: Id, p: Port) returns (body: Block)
    requires IsBundle(b) && Embedded(h.nodes, multiset(h.edges), b, s, j) && p in Ports(b, s, j)
    ensures IsChain(body) && Embedded(h.nodes, multiset(h.edges), body, s, j)
    ensures p == Port(Edge(s, First(body, j)), Edge(Last(body, s), j))
  {
    EmbeddedBranch(h.nodes, multiset(h.edges), b, s, j);
    if p in Ports(b.body, s, j) { body := b.body; } else { body := BranchOf(h, b.more, s, j, p); }
  }

  /** The facts a pair of bundles is walked with. */
  ghost predicate PairedBundles(g: Schema, h: Schema, x: Instance, b: Block, b': Block, s: Id, j: Id, j': Id) {
    && Aligned(g, h, x) && IsBundle(b) && IsBundle(b')
    && Embedded(g.nodes, multiset(g.edges), b, s, j) && Embedded(h.nodes, multiset(h.edges), b', s, j')
    && s in FinishedNodes(x) && Closes(g, j) && Closes(h, j')
    && (forall e :: e in h.edges && e.source == s ==> IsEntry(Ports(b', s, j'), e))
  }

  /** The branch of the other bundle with the same head. */
  lemma Partner(g: Schema, h: Schema, x: Instance, b: Block, b': Block, s: Id, j: Id, j': Id) returns (body': Block)
    requires PairedBundles(g, h, x, b, b', s, j, j') && b.Branch?
    ensures Paired(g, h, x, b.body, body', s, j, j')
    ensures Port(Edge(s, First(body', j')), Edge(Last(body', s), j')) in Ports(b', s, j')
  {
    EmbeddedBranch(g.nodes, multiset(g.edges), b, s, j);
    var p := ChainPort(b.body, s, j);
    assert p.entry in multiset(g.edges);
    assert p.entry in h.edges && IsEntry(Ports(b', s, j'), p.entry);
    var p' :| p' in Ports(b', s, j') && p'.entry == p.entry;
    body' := BranchOf(h, b', s, j', p');
  }

  lemma {:induction false} SyncBundles(g: Schema, h: Schema, x: Instance, b: Block, b': Block, s: Id, j: Id, j': Id)
    requires PairedBundles(g, h, x, b, b', s, j, j')
    ensures forall p :: p in Ports(b, s, j) ==> Matched(g, h, FinishedNodes(x), p, Ports(b', s, j'))
    ensures forall n :: n in Ids(b) ==> JoinKept(g, h, x, n)
    decreases b, 2
  {
    if b.Branch? {
      var body' := Partner(g, h, x, b, b', s, j, j');
      Sync(g, h, x, b.body, body', s, j, j');
      EmbeddedBranch(g.nodes, multiset(g.edges), b, s, j);
      SyncBundles(g, h, x, b.more, b', s, j, j');
      var p, p' := Port(Edge(s, First(b.body, j)), Edge(Last(b.body, s), j)), Port(Edge(s, First(body', j')), Edge(Last(body', s), j'));
      assert p' in Ports(b', s, j') && p'.entry == p.entry && Agree(g, h, FinishedNodes(x), p, p');
      assert Matched(g, h, FinishedNodes(x), p, Ports(b', s, j'));
    }
  }

  /** The walk: two chains entered from the same finished node agree about everything passed. */
  lemma {:induction false} Sync(g: Schema, h: Schema, x: Instance, b: Block, b': Block, src: Id, dst: Id, dst': Id)
    requires Paired(g, h, x, b, b', src, dst, dst')
    ensures Synced(g, h, x, b, b', src, dst, dst')
    decreases b, 1
  {
    match b
    case Done => DoneHead(g, h, x, b, b', src, dst, dst');
    case Task(_, _, _) => SyncTask(g, h, x, b, b', src, dst, dst');
    case Gateway(_, _, _, _, _) => SyncGateway(g, h, x, b, b', src, dst, dst');
  }

  lemma SyncTask(g: Schema, h: Schema, x: Instance, b: Block, b': Block, src: Id, dst: Id, dst': Id)
    requires Paired(g, h, x, b, b', src, dst, dst') && b.Task?
    ensures Synced(g, h, x, b, b', src, dst, dst')
    decreases b, 0
  {
    var id := b.id;
    if id in FinishedNodes(x) {
      TaskHead(g, h, x, b, b', src, dst, dst');
      NextPaired(g, h, x, b, b', src, dst, dst');
      Sync(g, h, x, b.next, b'.next, id, dst, dst');
      assert !g.nodes[id].IsJoin();
    } else {
      TaskAhead(g, h, x, b, b', src, dst, dst');
    }
  }

  lemma SyncGateway(g: Schema, h: Schema, x: Instance, b: Block, b': Block, src: Id, dst: Id, dst': Id)
    requires Paired(g, h, x, b, b', src, dst, dst') && b.Gateway?
    ensures Synced(g, h, x, b, b', src, dst, dst')
    decreases b, 0
  {
    var s, j := b.split, b.join;
    GatewayHead(g, h, x, b, b', src, dst, dst');
    GatewayPaired(g, h, x, b, b', src, dst, dst');
    SyncBundles(g, h, x, b.branches, b'.branches, s, j, b'.join);
    SyncJoin(g, h, x, b, b', src, dst, dst');
    assert !g.nodes[s].IsJoin() && JoinKept(g, h, x, s);
    SyncRest(g, h, x, b, b', src, dst, dst');
  }

  /** Behind the joins, if they are passed. */
  lemma SyncRest(g: Schema, h: Schema, x: Instance, b: Block, b': Block, src: Id, dst: Id, dst': Id)
    requires Paired(g, h, x, b, b', src, dst, dst') && b.Gateway? && b'.Gateway? && b'.split == b.split
    requires b.join in FinishedNodes(x) || b'.join in FinishedNodes(x) ==> b.join == b'.join
    ensures Agree(g, h, FinishedNodes(x), Port(Edge(src, First(b, dst)), Edge(Last(b, src), dst)),
                                    Port(Edge(src, First(b', dst')), Edge(Last(b', src), dst')))
    ensures forall n :: n in Ids(b.next) ==> JoinKept(g, h, x, n)
    decreases b.next, 2
  {
    if b.join in FinishedNodes(x) {
      NextPaired(g, h, x, b, b', src, dst, dst');
      Sync(g, h, x, b.next, b'.next, b.join, dst, dst');
    } else {
      EmbeddedGateway(g.nodes, multiset(g.edges), b, src, dst);
      EmbeddedGateway(h.nodes, multiset(h.edges), b', src, dst');
      Ahead(g, h, x, b.next, b'.next, b.join, b'.join, dst, dst');
    }
  }

  lemma GatewayPaired(g: Schema, h: Schema, x: Instance, b: Block, b': Block, src: Id, dst: Id, dst': Id)
    requires Paired(g, h, x, b, b', src, dst, dst') && b.Gateway? && b'.Gateway? && b'.split == b.split
    requires b.split in FinishedNodes(x)
    ensures PairedBundles(g, h, x, b.branches, b'.branches, b.split, b.join, b'.join)
  {
    EmbeddedGateway(g.nodes, multiset(g.edges), b, src, dst);
    EmbeddedGateway(h.nodes, multiset(h.edges), b', src, dst');
    GatewayIsBundled(h, b', src, dst');
  }

  /** Behind the branches: the joins. */
  lemma SyncJoin(g: Schema, h: Schema, x: Instance, b: Block, b': Block, src: Id, dst: Id, dst': Id)
    requires Paired(g, h, x, b, b', src, dst, dst') && b.Gateway? && b'.Gateway? && b'.split == b.split
    requires b.split in FinishedNodes(x)
    requires forall p :: p in Ports(b.branches, b.split, b.join) ==>
               Matched(g, h, FinishedNodes(x), p, Ports(b'.branches, b.split, b'.join))
    ensures b.join in FinishedNodes(x) || b'.join in FinishedNodes(x) ==> b.join == b'.join
    ensures JoinKept(g, h, x, b.join)
  {
    var ports, ports' := Ports(b.branches, b.split, b.join), Ports(b'.branches, b.split, b'.join);
    GatewayIsBundled(g, b, src, dst);
    GatewayIsBundled(h, b', src, dst');
    JoinsAgree(g, h, x, ports, ports', b.split, b.join, b'.join);
  }

  lemma JoinsAgree(g: Schema, h: Schema, x: Instance, ports: set<Port>, ports': set<Port>, s: Id, j: Id, j': Id)
    requires Aligned(g, h, x) && Settled(g, x) && s in FinishedNodes(x)
    requires Bundled(g, ports, s, j) && Bundled(h, ports', s, j')
    requires forall p :: p in ports ==> Matched(g, h, FinishedNodes(x), p, ports')
    requires j in g.nodes && g.nodes[j].IsJoin() && j' in h.nodes && !h.nodes[j'].START?
    ensures j in FinishedNodes(x) || j' in FinishedNodes(x) ==> j == j'
    ensures JoinKept(g, h, x, j)
  {
    JoinsCoincide(g, h, x, ports, ports', s, j, j');
    assert SettledAt(g, x, j) && NodeOk(g, x, j);
    if j in FinishedNodes(x) {
      PassedJoinKept(g, h, x, ports, ports', s, j);
    } else if EnteredFrom(g, FinishedNodes(x), j) && j in h.nodes && h.nodes[j].IsJoin() {
      WaitingJoinKept(g, h, x, ports, ports', s, j, j');
    }
  }

  // --- when the moved marking is in order ------------------------------------------------------

  /** A settled instance of a block-structured schema, and a block-structured target that M2 and M3 accept. */
  ghost predicate Moving(g: Schema, p: Process, h: Schema, q: Process, x: Instance) {
    Flattens(g, p) && Flattens(h, q) && Inv(g, x) && Settled(g, x) && Passes(x, g, h)
  }

  /** SKIPPED nodes gain no successor (M3 asks this of COMPLETED nodes only). */
  ghost predicate SkippedKeep(g: Schema, h: Schema, x: Instance) {
    forall e :: e in h.edges && e.source in x.nodeStates && x.nodeStates[e.source].SKIPPED? ==> e in g.edges
  }

  /** ACTIVATED nodes stay activities (M2 and M3 look at reached nodes only from RUNNING on). */
  ghost predicate ActiveKeep(h: Schema, x: Instance) {
    forall n :: n in x.nodeStates && x.nodeStates[n].ACTIVATED? && n in h.nodes ==> h.nodes[n].ACTIVITY?
  }

  predicate Awaited(x: Instance, n: Id) {
    n in x.nodeStates && x.nodeStates[n].NOT_ACTIVATED?
  }

  /** A node waiting behind a signaled edge stays a join. */
  ghost predicate WaitingKeep(g: Schema, h: Schema, x: Instance) {
    forall e :: e in g.edges && e.source in FinishedNodes(x) && Awaited(x, e.target) && e.target in h.nodes ==>
      h.nodes[e.target].IsJoin()
  }

  lemma DegreeOne(g: Schema, p: Process, n: Id)
    requires Flattens(g, p) && n in g.nodes
    ensures !g.nodes[n].IsJoin() && !g.nodes[n].START? ==> |Incoming(g.edges, n)| == 1
    ensures !g.nodes[n].IsSplit() && !g.nodes[n].END? ==> |Outgoing(g.edges, n)| == 1
  {
    FlatteningK2(g, p);
    assert DegreesOk(g.nodes[n], |Incoming(g.edges, n)|, |Outgoing(g.edges, n)|);
  }

  lemma OnlyMember(es: seq<Edge>, e: Edge, f: Edge)
    requires |es| == 1 && e in es && f in es
    ensures e == f
  {}

  lemma SingleIn(g: Schema, p: Process, e: Edge, f: Edge)
    requires Flattens(g, p) && e in g.edges && f in g.edges && e.target == f.target
    ensures e.target in g.nodes && (e == f || g.nodes[e.target].IsJoin())
  {
    EdgesInside(g, p, e);
    DegreeOne(g, p, e.target);
    if !g.nodes[e.target].IsJoin() { OnlyMember(Incoming(g.edges, e.target), e, f); }
  }

  lemma SingleOut(g: Schema, p: Process, e: Edge, f: Edge)
    requires Flattens(g, p) && e in g.edges && f in g.edges && e.source == f.source
    ensures e.source in g.nodes && (e == f || g.nodes[e.source].IsSplit())
  {
    EdgesInside(g, p, e);
    DegreeOne(g, p, e.source);
    if !g.nodes[e.source].IsSplit() { OnlyMember(Outgoing(g.edges, e.source), e, f); }
  }

  lemma EdgesInside(g: Schema, p: Process, e: Edge)
    requires Flattens(g, p) && e in g.edges
    ensures e.source in g.nodes && !g.nodes[e.source].END? && e.target in g.nodes && !g.nodes[e.target].START?
  {
    EndsConnected(g, p);
    TypedEnds(g, p);
  }

  lemma FrozenKept(g: Schema, h: Schema, x: Instance, n: Id)
    requires Passes(x, g, h) && n in g.nodes && n in FrozenNodes(x)
    ensures n in h.nodes && h.nodes[n] == g.nodes[n]
  {
    assert !IsM2(x, g, h, Missing(n)) && !IsM2(x, g, h, Retyped(n));
  }

  /** Inside the block of a skipped split everything is skipped. */
  lemma {:induction false} DeadInside(g: Schema, rank: map<Id, nat>, x: Instance, b: Block, src: Id, dst: Id, n: Id)
    requires Ranked(g, rank) && Connected(g) && Inv(g, x) && Settled(g, x)
    requires IsChain(b) && b.Gateway? && Embedded(g.nodes, multiset(g.edges), b, src, dst)
    requires x.nodeStates[b.split].SKIPPED? && (n in Ids(b.branches) || n == b.join)
    ensures n in g.nodes && x.nodeStates[n].SKIPPED?
    decreases if n in rank then rank[n] else 0
  {
    EmbeddedGateway(g.nodes, multiset(g.edges), b, src, dst);
    if n in Ids(b.branches) { TypedInside(g.nodes, b.branches, n); }
    forall e | e in g.edges && e.target == n ensures x.edgeStates[e].FALSE_SIGNALED? {
      DeadSource(g, b, src, dst, e);
      if e.source != b.split { DeadInside(g, rank, x, b, src, dst, e.source); }
      assert x.edgeStates[e] == Told(g, x, e);
    }
    assert Entered(g, n);
    assert SettledAt(g, x, n) && NodeOk(g, x, n);
  }

  lemma DeadSource(g: Schema, b: Block, src: Id, dst: Id, e: Edge)
    requires IsChain(b) && b.Gateway? && Embedded(g.nodes, multiset(g.edges), b, src, dst) && e in g.edges
    requires e.target in Ids(b.branches) || e.target == b.join
    ensures e.source in Ids(b.branches) || e.source == b.split
  {
    if e.target == b.join {
      JoinIncoming(g, b, src, dst, e);
      var p :| p in Ports(b.branches, b.split, b.join) && p.exit == e;
      PortEdges(b.branches, b.split, b.join, p);
    } else {
      EmbeddedGateway(g.nodes, multiset(g.edges), b, src, dst);
      assert e in multiset(g.edges) && Touches(e, Ids(b.branches));
    }
    EdgeEnds(b.branches, b.split, b.join, e);
  }

  lemma DeadSuccessor(g: Schema, p: Process, x: Instance, e: Edge)
    requires Flattens(g, p) && Inv(g, x) && Settled(g, x) && e in g.edges
    requires x.nodeStates[e.source].SKIPPED? && g.nodes[e.source].IsSplit()
    ensures x.nodeStates[e.target].SKIPPED?
  {
    var s := SiteOf(p.body, p.start, p.end, e.source);
    TypedEnds(g, p);
    SiteFacts(g, p, e.source);
    SplitOutgoing(g, s.chain, s.before, s.after, e);
    var q :| q in Ports(s.chain.branches, s.chain.split, s.chain.join) && q.entry == e;
    PortEdges(s.chain.branches, s.chain.split, s.chain.join, q);
    EdgeEnds(s.chain.branches, s.chain.split, s.chain.join, e);
    FlatteningIsAcyclic(g, p);
    EveryNodeConnected(g, p);
    var rank :| Ranked(g, rank);
    DeadInside(g, rank, x, s.chain, s.before, s.after, e.target);
  }

  lemma CompletedOut(g: Schema, h: Schema, x: Instance, e: Edge)
    requires Passes(x, g, h) && Inv(g, x) && e.source in g.nodes && x.nodeStates[e.source].COMPLETED?
    ensures e in g.edges <==> e in h.edges
  {
    var n := e.source;
    FrozenKept(g, h, x, n);
    assert !IsM3(x, g, h, Rewired(n));
    assert e.target in Ends(Outgoing(g.edges, n)) <==> e in g.edges;
    assert e.target in Ends(Outgoing(h.edges, n)) <==> e in h.edges;
  }

  lemma SkippedOut(g: Schema, p: Process, h: Schema, q: Process, x: Instance, e: Edge)
    requires Moving(g, p, h, q, x) && SkippedKeep(g, h, x) && e.source in g.nodes && x.nodeStates[e.source].SKIPPED?
    ensures e in g.edges <==> e in h.edges
  {
    if e in g.edges {
      FrozenKept(g, h, x, e.source);
      if g.nodes[e.source].IsSplit() {
        DeadSuccessor(g, p, x, e);
        assert !IsM2(x, g, h, EdgeLost(e));
      } else {
        TypedEnds(g, p);
        EndsConnected(g, p);
        EveryNodeConnected(h, q);
        assert Left(h, e.source);
        var f :| f in h.edges && f.source == e.source;
        SingleOut(g, p, e, f);
      }
    }
  }

  lemma OutKept(g: Schema, p: Process, h: Schema, q: Process, x: Instance)
    requires Moving(g, p, h, q, x) && SkippedKeep(g, h, x)
    ensures SameOut(g, h, FinishedNodes(x))
  {
    forall e: Edge | e.source in FinishedNodes(x) ensures e in g.edges <==> e in h.edges {
      if x.nodeStates[e.source].COMPLETED? { CompletedOut(g, h, x, e); } else { SkippedOut(g, p, h, q, x, e); }
    }
  }

  /** A reached node stands behind a completed one. */
  lemma ReachedFrom(g: Schema, p: Process, x: Instance, n: Id) returns (e: Edge)
    requires Flattens(g, p) && Inv(g, x) && n in g.nodes && x.nodeStates[n] != NOT_ACTIVATED && n != p.start
    ensures e in g.edges && e.target == n && e.source in FinishedNodes(x)
    ensures forall f :: f in g.edges && f.target == n ==> f.source in FinishedNodes(x)
  {
    TypedEnds(g, p);
    EveryNodeConnected(g, p);
    assert NodeOk(g, x, n) && Entered(g, n);
    e :| e in g.edges && e.target == n;
    forall f | f in g.edges && f.target == n ensures f.source in FinishedNodes(x) { SignaledIff(g, x, f); }
  }

  lemma StartDone(g: Schema, p: Process, x: Instance)
    requires Flattens(g, p) && Inv(g, x) && Settled(g, x)
    ensures x.nodeStates[p.start].COMPLETED?
  {
    assert NodeOk(g, x, p.start) && SettledAt(g, x, p.start);
  }

  lemma PastRooted(g: Schema, p: Process, h: Schema, q: Process, x: Instance)
    requires Moving(g, p, h, q, x) && SameOut(g, h, FinishedNodes(x))
    ensures Rooted(g, FinishedNodes(x)) && Rooted(h, FinishedNodes(x))
  {
    var past := FinishedNodes(x);
    TypedEnds(g, p);
    forall n | n in past && n in g.nodes && !g.nodes[n].START? ensures EnteredFrom(g, past, n) && EnteredFrom(h, past, n) {
      var e := ReachedFrom(g, p, x, n);
      assert e in h.edges;
    }
    forall n | n in past ensures n in g.nodes && n in h.nodes && h.nodes[n] == g.nodes[n] { FrozenKept(g, h, x, n); }
  }

  lemma MovingAligned(g: Schema, p: Process, h: Schema, q: Process, x: Instance)
    requires Moving(g, p, h, q, x) && SkippedKeep(g, h, x)
    ensures Aligned(g, h, x)
  {
    OutKept(g, p, h, q, x);
    PastRooted(g, p, h, q, x);
    FlatteningIsAcyclic(g, p);
    FlatteningIsAcyclic(h, q);
    forall n | n in FinishedNodes(x) ensures n in g.nodes && n in h.nodes && h.nodes[n] == g.nodes[n] { FrozenKept(g, h, x, n); }
  }

  lemma MovedShaped(h: Schema, q: Process, x: Instance, mapping: map<Id, Value>)
    requires Flattens(h, q)
    ensures Shaped(h, Migrated(h, x, mapping))
  {
    EveryNodeConnected(h, q);
  }

  lemma MovedTold(g: Schema, p: Process, h: Schema, q: Process, x: Instance, mapping: map<Id, Value>, e: Edge)
    requires Moving(g, p, h, q, x) && SameOut(g, h, FinishedNodes(x)) && e in h.edges
    ensures var y := Migrated(h, x, mapping); Shaped(h, y) && y.edgeStates[e] == Told(h, y, e)
  {
    MovedShaped(h, q, x, mapping);
    if e in g.edges { assert x.edgeStates[e] == Told(g, x, e); }
    if e.source in FinishedNodes(x) { FrozenKept(g, h, x, e.source); }
  }

  lemma BodiesPaired(g: Schema, p: Process, h: Schema, q: Process, x: Instance)
    requires Moving(g, p, h, q, x) && Aligned(g, h, x)
    ensures q.start == p.start && Paired(g, h, x, p.body, q.body, p.start, p.end, q.end)
  {
    StartDone(g, p, x);
    FrozenKept(g, h, x, p.start);
    TypedEnds(h, q);
    var was := ChainPort(p.body, p.start, p.end);
    var now := ChainPort(q.body, q.start, q.end);
    assert was.entry in multiset(g.edges) && now.entry in multiset(h.edges);
    assert was.entry in h.edges;
    SingleOut(h, q, was.entry, now.entry);
  }

  lemma JoinsKept(g: Schema, p: Process, h: Schema, q: Process, x: Instance)
    requires Moving(g, p, h, q, x) && Aligned(g, h, x)
    ensures forall n :: n in g.nodes ==> JoinKept(g, h, x, n)
  {
    BodiesPaired(g, p, h, q, x);
    Sync(g, h, x, p.body, q.body, p.start, p.end, q.end);
    TypedEnds(g, p);
    forall n | n in g.nodes ensures JoinKept(g, h, x, n) {
      if n !in Ids(p.body) { assert !g.nodes[n].IsJoin(); }
    }
  }

  /** ACTIVATED nodes do not become joins. */
  ghost predicate ActiveEntered(h: Schema, x: Instance) {
    forall n :: n in x.nodeStates && x.nodeStates[n].ACTIVATED? && n in h.nodes ==> !h.nodes[n].IsJoin()
  }

  /** An ACTIVATED node is an activity, and is still there. */
  lemma ActiveIsThere(g: Schema, p: Process, h: Schema, q: Process, x: Instance, n: Id) returns (e: Edge)
    requires Moving(g, p, h, q, x) && SameOut(g, h, FinishedNodes(x)) && n in g.nodes && x.nodeStates[n].ACTIVATED?
    ensures g.nodes[n].ACTIVITY? && n in h.nodes && !h.nodes[n].START?
    ensures e in g.edges && e in h.edges && e.target == n && e.source in FinishedNodes(x)
    ensures forall f :: f in g.edges && f.target == n ==> f == e
  {
    StartDone(g, p, x);
    e := ReachedFrom(g, p, x, n);
    assert SettledAt(g, x, n);
    EdgesInside(h, q, e);
    forall f | f in g.edges && f.target == n ensures f == e { SingleIn(g, p, e, f); }
  }

  /** Reached nodes keep their incoming edges. */
  lemma EntriesKept(g: Schema, p: Process, h: Schema, q: Process, x: Instance, n: Id)
    requires Moving(g, p, h, q, x) && Aligned(g, h, x) && n in g.nodes && n in h.nodes && x.nodeStates[n] != NOT_ACTIVATED
    requires x.nodeStates[n].ACTIVATED? ==> !h.nodes[n].IsJoin()
    ensures SameIn(g, h, n)
  {
    if n == p.start {
      BodiesPaired(g, p, h, q, x);
      EndsConnected(g, p);
      EndsConnected(h, q);
      assert forall e :: e in g.edges ==> e.target != n;
      assert forall e :: e in h.edges ==> e.target != n;
    } else if g.nodes[n].IsJoin() {
      JoinsKept(g, p, h, q, x);
      assert JoinKept(g, h, x, n);
    } else {
      SingleEntryKept(g, p, h, q, x, n);
    }
  }

  lemma SingleEntryKept(g: Schema, p: Process, h: Schema, q: Process, x: Instance, n: Id)
    requires Moving(g, p, h, q, x) && Aligned(g, h, x) && n in g.nodes && n in h.nodes && x.nodeStates[n] != NOT_ACTIVATED && n != p.start
    requires !g.nodes[n].IsJoin() && (x.nodeStates[n].ACTIVATED? ==> !h.nodes[n].IsJoin())
    ensures SameIn(g, h, n)
  {
    var before := ReachedFrom(g, p, x, n);
    assert before in h.edges;
    if !x.nodeStates[n].ACTIVATED? { FrozenKept(g, h, x, n); }
    forall e: Edge | e.target == n ensures e in g.edges <==> e in h.edges {
      if e in h.edges { SingleIn(h, q, e, before); }
    }
  }

  /** A node with the same edges into it and the same finished state is in order in both schemas. */
  lemma FrozenNode(g: Schema, p: Process, h: Schema, q: Process, x: Instance, mapping: map<Id, Value>, n: Id)
    requires Moving(g, p, h, q, x) && Aligned(g, h, x) && n in g.nodes && n in FrozenNodes(x)
    ensures n in h.nodes && Shaped(h, Migrated(h, x, mapping)) && NodeOk(h, Migrated(h, x, mapping), n)
  {
    var y := Migrated(h, x, mapping);
    MovedShaped(h, q, x, mapping);
    FrozenKept(g, h, x, n);
    EntriesKept(g, p, h, q, x, n);
    assert NodeOk(g, x, n);
    assert n in x.decisions ==> Edge(n, x.decisions[n]) in h.edges;
    EntryKept(g, h, x, y, n);
  }

  /** An ACTIVATED node that has not become a join. */
  lemma ActiveNode(g: Schema, p: Process, h: Schema, q: Process, x: Instance, mapping: map<Id, Value>, n: Id)
    requires Moving(g, p, h, q, x) && Aligned(g, h, x) && n in g.nodes && x.nodeStates[n].ACTIVATED? && n in h.nodes && !h.nodes[n].IsJoin()
    ensures Shaped(h, Migrated(h, x, mapping)) && NodeOk(h, Migrated(h, x, mapping), n)
  {
    var y := Migrated(h, x, mapping);
    MovedShaped(h, q, x, mapping);
    var e := ActiveIsThere(g, p, h, q, x, n);
    EntriesKept(g, p, h, q, x, n);
    assert NodeOk(g, x, n);
    assert x.edgeStates[e].TRUE_SIGNALED? && y.edgeStates[e] == x.edgeStates[e];
  }

  /** A node that was not reached, or is new. */
  lemma UnreachedNode(g: Schema, p: Process, h: Schema, q: Process, x: Instance, mapping: map<Id, Value>, n: Id)
    requires Moving(g, p, h, q, x) && Aligned(g, h, x) && n in h.nodes && (n in x.nodeStates ==> Awaited(x, n))
    ensures Shaped(h, Migrated(h, x, mapping)) && NodeOk(h, Migrated(h, x, mapping), n) && !h.nodes[n].START?
  {
    BodiesPaired(g, p, h, q, x);
    StartDone(g, p, x);
    TypedEnds(h, q);
    MovedShaped(h, q, x, mapping);
    assert n in g.nodes ==> NodeOk(g, x, n);
  }

  lemma MovedNode(g: Schema, p: Process, h: Schema, q: Process, x: Instance, mapping: map<Id, Value>, n: Id)
    requires Moving(g, p, h, q, x) && Aligned(g, h, x) && ActiveEntered(h, x) && n in h.nodes
    ensures Shaped(h, Migrated(h, x, mapping)) && NodeOk(h, Migrated(h, x, mapping), n)
  {
    if n !in x.nodeStates || x.nodeStates[n].NOT_ACTIVATED? {
      UnreachedNode(g, p, h, q, x, mapping, n);
    } else if x.nodeStates[n].ACTIVATED? {
      ActiveNode(g, p, h, q, x, mapping, n);
    } else {
      FrozenNode(g, p, h, q, x, mapping, n);
    }
  }

  lemma MovedInv(g: Schema, p: Process, h: Schema, q: Process, x: Instance, mapping: map<Id, Value>)
    requires Moving(g, p, h, q, x) && SkippedKeep(g, h, x) && ActiveEntered(h, x)
    ensures Inv(h, Migrated(h, x, mapping))
  {
    var y := Migrated(h, x, mapping);
    MovingAligned(g, p, h, q, x);
    MovedShaped(h, q, x, mapping);
    forall e | e in h.edges ensures y.edgeStates[e] == Told(h, y, e) { MovedTold(g, p, h, q, x, mapping, e); }
    forall n | n in h.nodes ensures NodeOk(h, y, n) { MovedNode(g, p, h, q, x, mapping, n); }
    MovedDone(g, p, h, q, x);
  }

  /** A chain that is left at its entry is empty. */
  lemma EmptyIfLeftAt(b: Block, src: Id, dst: Id)
    requires IsChain(b) && src !in Ids(b) && Last(b, src) == src
    ensures b.Done?
  {
    if !b.Done? { PortsOfChain(b, src, dst, src, dst); }
  }

  /** If all branches are left through the same edge, they are all empty. */
  lemma {:induction false} AllEmpty(b: Block, t: Id, n: Id, e: Edge, p: Port)
    requires IsBundle(b) && t !in Ids(b) && n !in Ids(b) && e.source == t
    requires (forall u :: u in Ports(b, t, n) ==> u.exit == e) && p in Ports(b, t, n)
    ensures p.entry == e
  {
    if p in Ports(b.body, t, n) {
      EmptyIfLeftAt(b.body, t, n);
    } else {
      AllEmpty(b.more, t, n, e, p);
    }
  }

  lemma OneIsEmpty(b: Block, t: Id, n: Id, e: Edge)
    requires IsBundle(b) && Width(b) >= 2 && Distinct(b)
    requires forall u :: u in Ports(b, t, n) ==> u.exit == e
    ensures e.source == t
  {
    var u := ChainPort(b.body, t, n);
    var v := ChainPort(b.more.body, t, n);
    assert v in Ports(b.more, t, n);
    assert u.exit == e && v.exit == e;
    if !b.body.Done? { PortsOfChain(b.body, t, n, t, n); }
    if !b.more.body.Done? { PortsOfChain(b.more.body, t, n, t, n); }
  }

  /** If all branches are left through the edge `e` out of the split, nothing else leaves the split. */
  lemma OneEntry(h: Schema, b: Block, src: Id, dst: Id, e: Edge)
    requires b.Gateway? && IsChain(b) && Embedded(h.nodes, multiset(h.edges), b, src, dst) && e.source == b.split
    requires forall u :: u in Ports(b.branches, b.split, b.join) ==> u.exit == e
    ensures forall f :: f in h.edges && f.source == b.split ==> f == e
  {
    EmbeddedGateway(h.nodes, multiset(h.edges), b, src, dst);
    forall f | f in h.edges && f.source == b.split ensures f == e {
      SplitOutgoing(h, b, src, dst, f);
      var p :| p in Ports(b.branches, b.split, b.join) && p.entry == f;
      AllEmpty(b.branches, b.split, b.join, e, p);
    }
  }

  lemma SameExit(h: Schema, b: Block, src: Id, dst: Id, e: Edge)
    requires b.Gateway? && IsChain(b) && Embedded(h.nodes, multiset(h.edges), b, src, dst)
    requires forall f :: f in h.edges && f.target == b.join ==> f == e
    ensures forall u :: u in Ports(b.branches, b.split, b.join) ==> u.exit == e
  {
    GatewayIsBundled(h, b, src, dst);
  }

  /** Two different edges lead into a join, unless its gateway has nothing but empty branches. */
  lemma SecondEntry(h: Schema, q: Process, n: Id, e: Edge)
    requires Flattens(h, q) && n in h.nodes && h.nodes[n].IsJoin() && forall f :: f in h.edges && f.target == n ==> f == e
    ensures forall f :: f in h.edges && f.source == e.source ==> f == e
  {
    TypedEnds(h, q);
    SiteFacts(h, q, n);
    var s := SiteOf(q.body, q.start, q.end, n);
    var b := s.chain;
    SameExit(h, b, s.before, s.after, e);
    EmbeddedGateway(h.nodes, multiset(h.edges), b, s.before, s.after);
    OneIsEmpty(b.branches, b.split, n, e);
    OneEntry(h, b, s.before, s.after, e);
  }

  /** A node entered once that becomes a join gets a second edge, from a node not finished. */
  lemma NewEntry(g: Schema, p: Process, h: Schema, q: Process, x: Instance, n: Id, e: Edge)
    requires Moving(g, p, h, q, x) && SameOut(g, h, FinishedNodes(x)) && e in g.edges && e in h.edges && e.target == n
    requires e.source in FinishedNodes(x) && n in g.nodes && !g.nodes[n].IsJoin() && n in h.nodes && h.nodes[n].IsJoin()
    ensures StillOpen(h, FinishedNodes(x), n)
  {
    if f :| f in h.edges && f.target == n && f != e {
      if f.source in FinishedNodes(x) { SingleIn(g, p, e, f); }
    } else {
      var f := OtherWayOn(g, p, h, q, x, n, e);
      SecondEntry(h, q, n, e);
    }
  }

  /** Two edges into a join from the same finished node mean that this node has another successor. */
  lemma OtherWayOn(g: Schema, p: Process, h: Schema, q: Process, x: Instance, n: Id, e: Edge) returns (f: Edge)
    requires Moving(g, p, h, q, x) && SameOut(g, h, FinishedNodes(x)) && e in g.edges && e in h.edges && e.target == n
    requires e.source in FinishedNodes(x) && n in g.nodes && !g.nodes[n].IsJoin() && n in h.nodes && h.nodes[n].IsJoin()
    requires forall f :: f in h.edges && f.target == n ==> f == e
    ensures f in h.edges && f.source == e.source && f != e
  {
    EdgesInside(g, p, e);
    FrozenKept(g, h, x, e.source);
    TwoCopies(h, q, n, e);
    f := OtherCopy(g, p, h, q, e);
  }

  lemma OtherCopy(g: Schema, p: Process, h: Schema, q: Process, e: Edge) returns (f: Edge)
    requires Flattens(g, p) && Flattens(h, q) && e in g.edges && e.source in g.nodes && e.source in h.nodes
    requires h.nodes[e.source] == g.nodes[e.source] && |Outgoing(h.edges, e.source)| >= 2
    requires e.target in g.nodes && !g.nodes[e.target].IsJoin()
    ensures f in g.edges && f.source == e.source && f != e
  {
    FlatteningK2(h, q);
    FlatteningK2(g, p);
    assert DegreesOk(h.nodes[e.source], |Incoming(h.edges, e.source)|, |Outgoing(h.edges, e.source)|);
    assert DegreesOk(g.nodes[e.source], |Incoming(g.edges, e.source)|, |Outgoing(g.edges, e.source)|);
    assert DegreesOk(g.nodes[e.target], |Incoming(g.edges, e.target)|, |Outgoing(g.edges, e.target)|);
    if forall f :: f in g.edges && f.source == e.source ==> f == e { CopiesAtBothEnds(g.edges, e); }
    f :| f in g.edges && f.source == e.source && f != e;
  }

  lemma {:induction false} CopiesAtBothEnds(es: seq<Edge>, e: Edge)
    requires forall f :: f in es && f.source == e.source ==> f == e
    ensures |Outgoing(es, e.source)| <= |Incoming(es, e.target)|
  {
    if es != [] {
      assert forall f :: f in es <==> f == es[0] || f in es[1..];
      CopiesAtBothEnds(es[1..], e);
    }
  }

  lemma JoinDegree(h: Schema, q: Process, n: Id)
    requires Flattens(h, q) && n in h.nodes && h.nodes[n].IsJoin()
    ensures |Incoming(h.edges, n)| >= 2
  {
    FlatteningK2(h, q);
    assert DegreesOk(h.nodes[n], |Incoming(h.edges, n)|, |Outgoing(h.edges, n)|);
  }

  lemma TwoCopies(h: Schema, q: Process, n: Id, e: Edge)
    requires Flattens(h, q) && n in h.nodes && h.nodes[n].IsJoin() && e.target == n && forall f :: f in h.edges && f.target == n ==> f == e
    ensures |Outgoing(h.edges, e.source)| >= 2
  {
    JoinDegree(h, q, n);
    CopiesBack(h.edges, e);
  }

  lemma {:induction false} CopiesBack(es: seq<Edge>, e: Edge)
    requires forall f :: f in es && f.target == e.target ==> f == e
    ensures |Incoming(es, e.target)| <= |Outgoing(es, e.source)|
  {
    if es != [] {
      assert forall f :: f in es <==> f == es[0] || f in es[1..];
      CopiesBack(es[1..], e);
    }
  }

  /** The invariant needs both conditions. */
  lemma InvNeeds(g: Schema, p: Process, h: Schema, q: Process, x: Instance, mapping: map<Id, Value>)
    requires Moving(g, p, h, q, x) && Inv(h, Migrated(h, x, mapping))
    ensures SkippedKeep(g, h, x) && ActiveEntered(h, x)
  {
    var y := Migrated(h, x, mapping);
    forall e | e in h.edges && e.source in x.nodeStates && x.nodeStates[e.source].SKIPPED? ensures e in g.edges {
      assert y.edgeStates[e] == Told(h, y, e);
    }
    OutKept(g, p, h, q, x);
    forall n | n in x.nodeStates && x.nodeStates[n].ACTIVATED? && n in h.nodes ensures !h.nodes[n].IsJoin() {
      if h.nodes[n].IsJoin() {
        var e := ActiveIsThere(g, p, h, q, x, n);
        NewEntry(g, p, h, q, x, n, e);
        OpenIsNotArrived(h, y, n);
      }
    }
  }

  lemma OpenIsNotArrived(h: Schema, y: Instance, n: Id)
    requires Inv(h, y) && n in h.nodes && !h.nodes[n].START? && y.nodeStates[n] != NOT_ACTIVATED
    ensures !StillOpen(h, FinishedNodes(y), n)
  {
    assert NodeOk(h, y, n);
    forall e | e in h.edges && e.target == n ensures e.source in FinishedNodes(y) { SignaledIff(h, y, e); }
  }

  /**
   Migration keeps the marking invariant exactly when skipped nodes gain no successor and activated
   nodes do not become joins.
   */
  lemma MigrationInvIff(g: Schema, p: Process, h: Schema, q: Process, x: Instance, mapping: map<Id, Value>)
    requires Moving(g, p, h, q, x)
    ensures Inv(h, Migrated(h, x, mapping)) <==> SkippedKeep(g, h, x) && ActiveEntered(h, x)
  {
    if Inv(h, Migrated(h, x, mapping)) { InvNeeds(g, p, h, q, x, mapping); }
    if SkippedKeep(g, h, x) && ActiveEntered(h, x) { MovedInv(g, p, h, q, x, mapping); }
  }

  /** A node that was not reached, or is new, still waits for an edge. */
  lemma OthersWait(g: Schema, p: Process, h: Schema, q: Process, x: Instance, n: Id)
    requires Moving(g, p, h, q, x) && Aligned(g, h, x) && WaitingKeep(g, h, x) && n in h.nodes && (n in x.nodeStates ==> Awaited(x, n))
    ensures StillOpen(h, FinishedNodes(x), n)
  {
    BodiesPaired(g, p, h, q, x);
    TypedEnds(h, q);
    EveryNodeConnected(h, q);
    StartDone(g, p, x);
    assert Entered(h, n);
    var e :| e in h.edges && e.target == n;
    if e.source in FinishedNodes(x) {
      assert e in g.edges;
      EdgesInside(g, p, e);
      if g.nodes[n].IsJoin() {
        JoinsKept(g, p, h, q, x);
        assert JoinKept(g, h, x, n) && EnteredFrom(g, FinishedNodes(x), n);
      } else {
        forall f | f in g.edges && f.target == n ensures f == e { SingleIn(g, p, e, f); }
        Behind(g, x, e.source, n);
      }
    }
  }

  lemma MovedSettled(g: Schema, p: Process, h: Schema, q: Process, x: Instance, mapping: map<Id, Value>, n: Id)
    requires Moving(g, p, h, q, x) && Aligned(g, h, x) && ActiveKeep(h, x) && WaitingKeep(g, h, x) && n in h.nodes
    ensures Shaped(h, Migrated(h, x, mapping)) && SettledAt(h, Migrated(h, x, mapping), n)
  {
    MovedShaped(h, q, x, mapping);
    if n !in x.nodeStates || x.nodeStates[n].NOT_ACTIVATED? {
      OthersWait(g, p, h, q, x, n);
      var e :| e in h.edges && e.target == n && e.source !in FinishedNodes(x);
      MovedTold(g, p, h, q, x, mapping, e);
    }
  }

  /** Under the three conditions the moved marking satisfies the invariant and is a fixpoint. */
  lemma MovedIsSound(g: Schema, p: Process, h: Schema, q: Process, x: Instance, mapping: map<Id, Value>)
    requires Moving(g, p, h, q, x) && SkippedKeep(g, h, x) && ActiveKeep(h, x) && WaitingKeep(g, h, x)
    ensures Inv(h, Migrated(h, x, mapping)) && Settled(h, Migrated(h, x, mapping))
  {
    MovedInv(g, p, h, q, x, mapping);
    MovingAligned(g, p, h, q, x);
    forall n | n in h.nodes ensures SettledAt(h, Migrated(h, x, mapping), n) { MovedSettled(g, p, h, q, x, mapping, n); }
  }

  lemma MovedDone(g: Schema, p: Process, h: Schema, q: Process, x: Instance)
    requires Moving(g, p, h, q, x)
    ensures x.done <==> exists n :: n in h.nodes && h.nodes[n].END? && n in x.nodeStates && x.nodeStates[n].COMPLETED?
    ensures x.decisions.Keys <= h.nodes.Keys
  {
    forall n | n in g.nodes && x.nodeStates[n].COMPLETED? ensures n in h.nodes && h.nodes[n] == g.nodes[n] { FrozenKept(g, h, x, n); }
    forall n | n in x.decisions ensures n in h.nodes { assert NodeOk(g, x, n); }
  }

  /** Each of the three conditions is needed. */
  lemma SoundNeeds(g: Schema, p: Process, h: Schema, q: Process, x: Instance, mapping: map<Id, Value>)
    requires Moving(g, p, h, q, x) && Inv(h, Migrated(h, x, mapping)) && Settled(h, Migrated(h, x, mapping))
    ensures SkippedKeep(g, h, x) && ActiveKeep(h, x) && WaitingKeep(g, h, x)
  {
    var y := Migrated(h, x, mapping);
    forall e | e in h.edges && e.source in x.nodeStates && x.nodeStates[e.source].SKIPPED? ensures e in g.edges {
      assert y.edgeStates[e] == Told(h, y, e);
    }
    forall n | n in x.nodeStates && x.nodeStates[n].ACTIVATED? && n in h.nodes ensures h.nodes[n].ACTIVITY? {
      assert SettledAt(h, y, n);
    }
    OutKept(g, p, h, q, x);
    forall e | e in g.edges && e.source in FinishedNodes(x) && Awaited(x, e.target) && e.target in h.nodes
      ensures h.nodes[e.target].IsJoin()
    {
      WaitingNeeded(h, q, y, e);
    }
  }

  /** A node with one way in is reached once that way is signaled. */
  lemma WaitingNeeded(h: Schema, q: Process, y: Instance, e: Edge)
    requires Flattens(h, q) && Inv(h, y) && Settled(h, y) && e in h.edges && e.source in FinishedNodes(y)
    requires y.nodeStates[e.target].NOT_ACTIVATED?
    ensures h.nodes[e.target].IsJoin()
  {
    if !h.nodes[e.target].IsJoin() {
      forall f | f in h.edges && f.target == e.target ensures f == e { SingleIn(h, q, e, f); }
      Behind(h, y, e.source, e.target);
    }
  }

  /**
   Migration keeps the marking invariant and the fixpoint exactly when skipped nodes gain no
   successor, activated nodes stay activities and nodes that wait stay joins.
   */
  lemma MigrationSoundIff(g: Schema, p: Process, h: Schema, q: Process, x: Instance, mapping: map<Id, Value>)
    requires Moving(g, p, h, q, x)
    ensures Inv(h, Migrated(h, x, mapping)) && Settled(h, Migrated(h, x, mapping))
       <==> SkippedKeep(g, h, x) && ActiveKeep(h, x) && WaitingKeep(g, h, x)
  {
    var y := Migrated(h, x, mapping);
    if Inv(h, y) && Settled(h, y) { SoundNeeds(g, p, h, q, x, mapping); }
    if SkippedKeep(g, h, x) && ActiveKeep(h, x) && WaitingKeep(g, h, x) { MovedIsSound(g, p, h, q, x, mapping); }
  }

  /** The edges alone: every target edge carries what its source told exactly when skipped nodes gain no successor. */
  lemma EdgesSoundIff(g: Schema, p: Process, h: Schema, q: Process, x: Instance, mapping: map<Id, Value>)
    requires Moving(g, p, h, q, x)
    ensures SkippedKeep(g, h, x) <==>
            forall e :: e in h.edges ==>
              var s := Migrated(h, x, mapping).edgeStates[e];
              && (s != NOT_SIGNALED <==> e.source in FinishedNodes(x))
              && (s != NOT_SIGNALED ==> e in g.edges && s == x.edgeStates[e])
  {
    var y := Migrated(h, x, mapping);
    if SkippedKeep(g, h, x) {
      OutKept(g, p, h, q, x);
      forall e | e in h.edges
        ensures y.edgeStates[e] != NOT_SIGNALED <==> e.source in FinishedNodes(x)
      {
        if e in g.edges { SignaledIff(g, x, e); }
      }
    }
  }

  // --- the request -----------------------------------------------------------------------------

  /** A data access of the target schema. */
  datatype Access = Access(node: Id, element: Id, reading: bool, mandatory: bool)

  /** M4: an executed node must read an element that has no value. */
  predicate IsM4(x: Instance, mapping: map<Id, Value>, a: Access) {
    a.mandatory && a.reading && a.node in FrozenNodes(x) && a.element !in x.data.Keys + mapping.Keys
  }

  /** `_check_m4` */
  method CheckM4(x: Instance, accesses: seq<Access>, mapping: map<Id, Value>) returns (findings: seq<Access>)
    ensures forall a :: a in findings <==> a in accesses && IsM4(x, mapping, a)
    ensures forall a :: a in findings <==>
              && a in accesses && a.mandatory && a.reading && Executed(x, a.node)
              && a.element !in x.data && a.element !in mapping
  {
    findings := [];
    var available, frozen := x.data.Keys + mapping.Keys, FrozenNodes(x);
    for i := 0 to |accesses|
      invariant forall a :: a in findings <==> a in accesses[..i] && IsM4(x, mapping, a)
    {
      var access := accesses[i];
      assert accesses[..i + 1] == accesses[..i] + [access];
      if !access.mandatory { continue; }
      if !access.reading { continue; }
      if access.node !in frozen { continue; }
      if access.element !in available { findings := findings + [access]; }
    }
    assert accesses[..|accesses|] == accesses;
  }

  /** M5: the instance carries ad-hoc deltas or a schema variant of its own. */
  predicate IsM5(deltas: seq<string>, variant: Option<Schema>) {
    deltas != [] || variant.Some?
  }

  /** What a migration needs: a valid released target (M1), no findings of M2, M3 and M4, nothing ad hoc (M5). */
  ghost predicate Migratable(x: Instance, g: Schema, h: Schema, rest: Schema -> bool, accesses: seq<Access>, mapping: map<Id, Value>,
                             deltas: seq<string>, variant: Option<Schema>) {
    && h.lifecycle.RELEASED? && Valid(h, rest) && Passes(x, g, h)
    && (forall a :: a in accesses ==> !IsM4(x, mapping, a)) && !IsM5(deltas, variant)
  }

  /** The executed region is the same in both schemas and goes on the same way, and what it must have read is there. */
  ghost predicate NothingFound(x: Instance, g: Schema, h: Schema, accesses: seq<Access>, mapping: map<Id, Value>) {
    && (forall n :: Executed(x, n) ==> n in h.nodes && (n in g.nodes ==> h.nodes[n] == g.nodes[n]))
    && (forall a, b :: Executed(x, a) && Executed(x, b) ==> (Edge(a, b) in g.edges <==> Edge(a, b) in h.edges))
    && (forall n :: n in x.nodeStates && x.nodeStates[n] == COMPLETED && n in h.nodes ==> SameSuccessors(g, h, n))
    && (forall n :: n in x.nodeStates && x.nodeStates[n] == RUNNING && n in h.nodes ==> h.nodes[n] in {ACTIVITY, SUBPROCESS})
    && ReadsThere(x, accesses, mapping)
  }

  lemma PassesMeans(x: Instance, g: Schema, h: Schema)
    ensures Passes(x, g, h) <==> NothingFound(x, g, h, [], map[])
  {
    if Passes(x, g, h) {
      PassedRegion(x, g, h);
      PassedMapping(x, g, h);
    }
    if NothingFound(x, g, h, [], map[]) {
      forall f ensures !IsM2(x, g, h, f) { NoM2(x, g, h, f); }
      forall f ensures !IsM3(x, g, h, f) { NoM3(x, g, h, f); }
    }
  }

  lemma PassedRegion(x: Instance, g: Schema, h: Schema)
    requires Passes(x, g, h)
    ensures forall n :: Executed(x, n) ==> n in h.nodes && (n in g.nodes ==> h.nodes[n] == g.nodes[n])
    ensures forall a, b :: Executed(x, a) && Executed(x, b) ==> (Edge(a, b) in g.edges <==> Edge(a, b) in h.edges)
  {
    forall n | Executed(x, n) ensures n in h.nodes && (n in g.nodes ==> h.nodes[n] == g.nodes[n]) {
      assert !IsM2(x, g, h, Missing(n)) && !IsM2(x, g, h, Retyped(n));
    }
    forall a, b | Executed(x, a) && Executed(x, b) ensures Edge(a, b) in g.edges <==> Edge(a, b) in h.edges {
      assert !IsM2(x, g, h, EdgeLost(Edge(a, b))) && !IsM2(x, g, h, EdgeAdded(Edge(a, b)));
    }
  }

  lemma PassedMapping(x: Instance, g: Schema, h: Schema)
    requires Passes(x, g, h)
    ensures forall n :: n in x.nodeStates && x.nodeStates[n] == COMPLETED && n in h.nodes ==> SameSuccessors(g, h, n)
    ensures forall n :: n in x.nodeStates && x.nodeStates[n] == RUNNING && n in h.nodes ==> h.nodes[n] in {ACTIVITY, SUBPROCESS}
  {
    forall n | n in x.nodeStates && x.nodeStates[n] == COMPLETED && n in h.nodes ensures SameSuccessors(g, h, n) {
      assert !IsM3(x, g, h, Rewired(n));
      SuccessorsSame(g, h, n);
    }
    forall n | n in x.nodeStates && x.nodeStates[n] == RUNNING && n in h.nodes ensures h.nodes[n] in {ACTIVITY, SUBPROCESS} {
      assert !IsM3(x, g, h, NotAStep(n));
    }
  }

  lemma NoM2(x: Instance, g: Schema, h: Schema, f: Finding)
    requires NothingFound(x, g, h, [], map[])
    ensures !IsM2(x, g, h, f)
  {
    if f.Missing? || f.Retyped? { assert Executed(x, f.id) <==> f.id in FrozenNodes(x); }
    if f.EdgeLost? || f.EdgeAdded? {
      assert f.edge == Edge(f.edge.source, f.edge.target);
      assert Executed(x, f.edge.source) <==> f.edge.source in FrozenNodes(x);
      assert Executed(x, f.edge.target) <==> f.edge.target in FrozenNodes(x);
    }
  }

  lemma NoM3(x: Instance, g: Schema, h: Schema, f: Finding)
    requires NothingFound(x, g, h, [], map[])
    ensures !IsM3(x, g, h, f)
  {
    if f.Rewired? { SuccessorsSame(g, h, f.id); }
    if f.RunningLost? || f.NotAStep? { assert f.id in x.nodeStates && x.nodeStates[f.id] == RUNNING ==> Executed(x, f.id); }
  }

  /** What a migration needs, in full. */
  lemma MigratableMeans(x: Instance, g: Schema, h: Schema, rest: Schema -> bool, accesses: seq<Access>, mapping: map<Id, Value>,
                        deltas: seq<string>, variant: Option<Schema>)
    ensures Migratable(x, g, h, rest, accesses, mapping, deltas, variant) <==>
              h.lifecycle == RELEASED && Valid(h, rest) && NothingFound(x, g, h, accesses, mapping) && deltas == [] && variant == None
  {
    PassesMeans(x, g, h);
    M4Means(x, accesses, mapping);
    ReadsApart(x, g, h, accesses, mapping);
  }

  /** The executed nodes have what they must read. */
  predicate ReadsThere(x: Instance, accesses: seq<Access>, mapping: map<Id, Value>) {
    forall a :: a in accesses && a.mandatory && a.reading && Executed(x, a.node) ==> a.element in x.data || a.element in mapping
  }

  lemma M4Means(x: Instance, accesses: seq<Access>, mapping: map<Id, Value>)
    ensures (forall a :: a in accesses ==> !IsM4(x, mapping, a)) <==> ReadsThere(x, accesses, mapping)
  {
    forall a: Access ensures IsM4(x, mapping, a) <==>
      a.mandatory && a.reading && Executed(x, a.node) && !(a.element in x.data || a.element in mapping) {}
  }

  lemma ReadsApart(x: Instance, g: Schema, h: Schema, accesses: seq<Access>, mapping: map<Id, Value>)
    ensures NothingFound(x, g, h, accesses, mapping) <==> NothingFound(x, g, h, [], map[]) && ReadsThere(x, accesses, mapping)
  {}

  /** `check_migration`; `accesses` are those of the target; `deltas` and `variant` are the ad-hoc part of the instance. */
  method CheckMigration(x: Instance, g: Schema, h: Schema, rest: Schema -> bool, accesses: seq<Access>, mapping: map<Id, Value>,
                        deltas: seq<string>, variant: Option<Schema>)
    returns (ok: bool)
    ensures ok <==> Migratable(x, g, h, rest, accesses, mapping, deltas, variant)
    ensures ok <==> h.lifecycle == RELEASED && Valid(h, rest) && NothingFound(x, g, h, accesses, mapping) && deltas == [] && variant == None
  {
    MigratableMeans(x, g, h, rest, accesses, mapping, deltas, variant);
    var correct := RaiseIfInvalid(h, rest);
    if !h.lifecycle.RELEASED? || correct.Err? { return false; }
    var m2 := CheckM2(x, g, h);
    var m3 := CheckM3(x, g, h);
    var m4 := CheckM4(x, accesses, mapping);
    NoFindings(x, g, h, m2, m3);
    assert m4 != [] ==> m4[0] in m4;
    return m2 == [] && m3 == [] && m4 == [] && !IsM5(deltas, variant);
  }

  lemma NoFindings(x: Instance, g: Schema, h: Schema, m2: seq<Finding>, m3: seq<Finding>)
    requires forall f :: f in m2 <==> IsM2(x, g, h, f)
    requires forall f :: f in m3 <==> IsM3(x, g, h, f)
    ensures Passes(x, g, h) <==> m2 == [] && m3 == []
  {
    assert m2 != [] ==> m2[0] in m2;
    assert m3 != [] ==> m3[0] in m3;
    if m2 == [] && m3 == [] {
      forall f ensures !IsM2(x, g, h, f) && !IsM3(x, g, h, f) { assert f !in m2 && f !in m3; }
    }
  }

  /** The copy of `migrate_instance`: fresh markings, then the states of every element in both schemas. */
  method MoveMarking(x: Instance, h: Schema, mapping: map<Id, Value>) returns (y: Instance)
    ensures y == Migrated(h, x, mapping)
  {
    var result := new Run(x);
    result.nodeStates := map n | n in h.nodes :: if n in x.nodeStates then x.nodeStates[n] else NOT_ACTIVATED;
    result.edgeStates := map e | e in h.edges :: if e in x.edgeStates then x.edgeStates[e] else NOT_SIGNALED;
    result.data := result.data + mapping;
    return result.View();
  }

  /** For a settled instance on block-structured schemas, `y` is in order exactly under the three conditions. */
  ghost predicate InOrderIff(g: Schema, p: Process, h: Schema, q: Process, x: Instance, y: Instance) {
    Moving(g, p, h, q, x) ==> (Inv(h, y) && Settled(h, y) <==> SkippedKeep(g, h, x) && ActiveKeep(h, x) && WaitingKeep(g, h, x))
  }

  lemma MovedInOrderIff(g: Schema, p: Process, h: Schema, q: Process, x: Instance, mapping: map<Id, Value>)
    ensures InOrderIff(g, p, h, q, x, Migrated(h, x, mapping))
  {
    if Moving(g, p, h, q, x) { MigrationSoundIff(g, p, h, q, x, mapping); }
  }

  /** Every element an executed node must read has a value. */
  ghost predicate ReadsCovered(accesses: seq<Access>, y: Instance) {
    forall a :: a in accesses && a.mandatory && a.reading && a.node in FrozenNodes(y) ==> a.element in y.data
  }

  /** M4 finds nothing exactly if what executed nodes must read has a value after the migration. */
  lemma M4Iff(x: Instance, h: Schema, accesses: seq<Access>, mapping: map<Id, Value>)
    ensures (forall a :: a in accesses ==> !IsM4(x, mapping, a)) <==>
            forall a :: a in accesses && a.mandatory && a.reading && Executed(x, a.node) ==> a.element in Migrated(h, x, mapping).data
  {
    forall a: Access ensures IsM4(x, mapping, a) <==> a.mandatory && a.reading && Executed(x, a.node) && a.element !in Migrated(h, x, mapping).data {}
  }

  /** For accesses of nodes of the target: nothing is found exactly if the migrated instance has all it must have read. */
  lemma M4Covers(x: Instance, h: Schema, accesses: seq<Access>, mapping: map<Id, Value>)
    requires forall a :: a in accesses ==> a.node in h.nodes
    ensures (forall a :: a in accesses ==> !IsM4(x, mapping, a)) <==> ReadsCovered(accesses, Migrated(h, x, mapping))
  {
    M4Iff(x, h, accesses, mapping);
    forall n | n in h.nodes ensures n in FrozenNodes(Migrated(h, x, mapping)) <==> Executed(x, n) {}
  }

  lemma MovedReads(x: Instance, h: Schema, accesses: seq<Access>, mapping: map<Id, Value>)
    requires forall a :: a in accesses ==> !IsM4(x, mapping, a)
    ensures ReadsCovered(accesses, Migrated(h, x, mapping))
  {
    forall a | a in accesses && a.mandatory && a.reading && a.node in FrozenNodes(Migrated(h, x, mapping))
      ensures a.element in Migrated(h, x, mapping).data
    {
      assert a.node in FrozenNodes(x);
    }
  }

  /** Every element of the target that existed before has the state it had, every new one that of a fresh marking. */
  ghost predicate KeepsStates(nodes: map<Id, NodeState>, edges: map<Edge, Signal>, h: Schema, y: Instance) {
    && y.nodeStates.Keys == h.nodes.Keys
    && (forall n :: n in h.nodes ==> y.nodeStates[n] == if n in nodes then nodes[n] else NOT_ACTIVATED)
    && (forall e :: e in y.edgeStates <==> e in h.edges)
    && (forall e :: e in h.edges ==> y.edgeStates[e] == if e in edges then edges[e] else NOT_SIGNALED)
  }

  /** `migrate_instance` */
  method MigrateInstance(x: Instance, g: Schema, h: Schema, mapping: map<Id, Value>, rest: Schema -> bool, accesses: seq<Access>,
                         deltas: seq<string>, variant: Option<Schema>, ghost p: Process, ghost q: Process)
    returns (r: Result<Instance>)
    ensures r.Ok? <==> Migratable(x, g, h, rest, accesses, mapping, deltas, variant)
    ensures r.Ok? <==> h.lifecycle == RELEASED && Valid(h, rest) && NothingFound(x, g, h, accesses, mapping) && deltas == [] && variant == None
    ensures r.Ok? ==> r.value == Migrated(h, x, mapping) && InOrderIff(g, p, h, q, x, r.value) && ReadsCovered(accesses, r.value)
    ensures r.Ok? ==> && r.value.data == x.data + mapping && r.value.done == x.done && r.value.decisions == x.decisions
                      && KeepsStates(x.nodeStates, x.edgeStates, h, r.value)
  {
    var ok := CheckMigration(x, g, h, rest, accesses, mapping, deltas, variant);
    if !ok { return Err(Incorrect("M1-M5")); }
    var y := MoveMarking(x, h, mapping);
    MovedInOrderIff(g, p, h, q, x, mapping);
    MovedReads(x, h, accesses, mapping);
    return Ok(y);
  }

  // --- the three gaps ----------------------------------------------------------------------------

  /** The target inserts the activity `n` behind the skipped node `u`, in front of a node not reached yet. */
  ghost predicate InsertedBehindSkipped(g: Schema, p: Process, h: Schema, q: Process, x: Instance, u: Id, n: Id, t: Id) {
    && Flattens(g, p) && Flattens(h, q) && Inv(g, x) && Settled(g, x)
    && StepInserted(g, h, u, n, t) && x.nodeStates[u].SKIPPED? && Awaited(x, t)
  }

  lemma GapM2(g: Schema, p: Process, h: Schema, q: Process, x: Instance, u: Id, n: Id, t: Id, f: Finding)
    requires InsertedBehindSkipped(g, p, h, q, x, u, n, t)
    ensures !IsM2(x, g, h, f)
  {}

  lemma GapM3(g: Schema, p: Process, h: Schema, q: Process, x: Instance, u: Id, n: Id, t: Id, f: Finding)
    requires InsertedBehindSkipped(g, p, h, q, x, u, n, t)
    ensures !IsM3(x, g, h, f)
  {
    if f.Rewired? && f.id in x.nodeStates && x.nodeStates[f.id].COMPLETED? { SameEnds(g, h, u, n, t, f.id); }
    if f.RunningLost? || f.NotAStep? { assert f.id in g.nodes ==> NodeOk(g, x, f.id); }
  }

  lemma GapPasses(g: Schema, p: Process, h: Schema, q: Process, x: Instance, u: Id, n: Id, t: Id)
    requires InsertedBehindSkipped(g, p, h, q, x, u, n, t)
    ensures Passes(x, g, h)
  {
    forall f ensures !IsM2(x, g, h, f) && !IsM3(x, g, h, f) {
      GapM2(g, p, h, q, x, u, n, t, f);
      GapM3(g, p, h, q, x, u, n, t, f);
    }
  }

  /** An edge behind a skipped node without a signal, in a marking that is in order otherwise. */
  ghost predicate Gap(h: Schema, y: Instance, u: Id, n: Id) {
    && Shaped(h, y) && Edge(u, n) in h.edges && y.nodeStates[u].SKIPPED? && y.edgeStates[Edge(u, n)] == NOT_SIGNALED
    && (forall m :: m in h.nodes && !h.nodes[m].START? && y.nodeStates[m] != NOT_ACTIVATED ==> Arrived(h, y, m))
    && (forall e :: e in h.edges && y.edgeStates[e] != NOT_SIGNALED ==> y.nodeStates[e.source].Finished())
  }

  /** Such a target passes M2 and M3, and the migrated instance has a gap in its marking. */
  lemma MigrationLeavesGap(g: Schema, p: Process, h: Schema, q: Process, x: Instance, mapping: map<Id, Value>, u: Id, n: Id, t: Id)
    requires InsertedBehindSkipped(g, p, h, q, x, u, n, t)
    ensures Passes(x, g, h) && Gap(h, Migrated(h, x, mapping), u, n)
  {
    var y := Migrated(h, x, mapping);
    GapPasses(g, p, h, q, x, u, n, t);
    MovedShaped(h, q, x, mapping);
    forall m | m in h.nodes && !h.nodes[m].START? && y.nodeStates[m] != NOT_ACTIVATED ensures Arrived(h, y, m) {
      assert NodeOk(g, x, m);
      assert forall e: Edge :: e.target == m ==> (e in h.edges <==> e in g.edges);
    }
    forall e | e in h.edges && y.edgeStates[e] != NOT_SIGNALED ensures y.nodeStates[e.source].Finished() {
      SignaledIff(g, x, e);
    }
  }

  /** One elementary step of the engine: a node is completed, started, activated or skipped. */
  ghost predicate Moves(h: Schema, y: Instance, z: Instance, k: Id) {
    && Shaped(h, y) && k in h.nodes
    && (|| ((y.nodeStates[k].ACTIVATED? || y.nodeStates[k].RUNNING?) && Signals(h, y, z, k) && z.nodeStates == y.nodeStates[k := COMPLETED])
        || (y.nodeStates[k].ACTIVATED? && z.edgeStates == y.edgeStates && z.nodeStates == y.nodeStates[k := RUNNING])
        || (y.nodeStates[k].NOT_ACTIVATED? && Arrived(h, y, k) && z.edgeStates == y.edgeStates && z.nodeStates == y.nodeStates[k := ACTIVATED])
        || (y.nodeStates[k].NOT_ACTIVATED? && Arrived(h, y, k) && Signals(h, y, z, k) && z.nodeStates == y.nodeStates[k := SKIPPED]))
  }

  /** At most the edges leaving `k` are signaled; no signal is taken back. */
  ghost predicate Signals(h: Schema, y: Instance, z: Instance, k: Id)
    requires Shaped(h, y)
  {
    && z.edgeStates.Keys == y.edgeStates.Keys
    && forall e :: e in y.edgeStates ==>
         (e.source != k ==> z.edgeStates[e] == y.edgeStates[e]) && (y.edgeStates[e] != NOT_SIGNALED ==> z.edgeStates[e] != NOT_SIGNALED)
  }

  lemma GapStays(h: Schema, y: Instance, z: Instance, u: Id, n: Id, k: Id)
    requires Gap(h, y, u, n) && Moves(h, y, z, k)
    ensures Gap(h, z, u, n)
  {
    assert k != u;
    forall m | m in h.nodes && !h.nodes[m].START? && z.nodeStates[m] != NOT_ACTIVATED ensures Arrived(h, z, m) {
      assert Arrived(h, y, m);
    }
  }

  ghost predicate IsRun(h: Schema, trace: seq<Instance>) {
    forall i {:trigger trace[i]} :: 0 < i < |trace| ==> Steps(h, trace[i - 1], trace[i])
  }

  ghost predicate Steps(h: Schema, y: Instance, z: Instance) {
    exists k :: Moves(h, y, z, k)
  }

  /** Whatever the engine does afterwards, an instance with a gap never completes its END. */
  lemma GapNeverCompletes(h: Schema, q: Process, trace: seq<Instance>, u: Id, n: Id)
    requires Flattens(h, q) && |trace| > 0 && Gap(h, trace[0], u, n) && IsRun(h, trace)
    ensures var z := trace[|trace| - 1]; q.end in z.nodeStates && !z.nodeStates[q.end].Finished()
  {
    for i := 1 to |trace|
      invariant Gap(h, trace[i - 1], u, n)
    {
      assert Steps(h, trace[i - 1], trace[i]);
      var k :| Moves(h, trace[i - 1], trace[i], k);
      GapStays(h, trace[i - 1], trace[i], u, n, k);
    }
    var z := trace[|trace| - 1];
    FlatteningIsAcyclic(h, q);
    EveryNodeConnected(h, q);
    TypedEnds(h, q);
    var rank :| Ranked(h, rank);
    var bound := Bounded(rank);
    if z.nodeStates[q.end].Finished() { GapBehind(h, rank, bound, z, u, n, q.end, n); }
  }

  lemma {:induction false} GapBehind(h: Schema, rank: map<Id, nat>, bound: nat, z: Instance, u: Id, n: Id, end: Id, m: Id)
    requires Gap(h, z, u, n) && Ranked(h, rank) && Connected(h) && end in h.nodes && z.nodeStates[end].Finished()
    requires (forall k :: k in h.nodes && h.nodes[k].END? ==> k == end) && (forall k :: k in h.nodes ==> rank[k] < bound)
    requires m in h.nodes
    ensures z.nodeStates[m].Finished() && m != n
    decreases bound - rank[m]
  {
    if m != end {
      assert Left(h, m);
      var e :| e in h.edges && e.source == m;
      GapBehind(h, rank, bound, z, u, n, end, e.target);
      assert Entered(h, e.target);
    }
    assert Entered(h, n);
    assert !Arrived(h, z, n);
  }

  /**
   Turning an ACTIVATED activity into a SUBPROCESS passes M2 and M3; if it was the only activity
   to work on, the migrated instance is RUNNING and nobody can complete anything.
   */
  lemma ConvertedActivitySticks(g: Schema, p: Process, h: Schema, q: Process, x: Instance, mapping: map<Id, Value>, n: Id)
    requires Flattens(g, p) && Flattens(h, q) && Inv(g, x) && Settled(g, x)
    requires h.edges == g.edges && n in g.nodes && x.nodeStates[n].ACTIVATED? && h.nodes == g.nodes[n := SUBPROCESS]
    requires forall m :: ReadyAt(g, x, m) ==> m == n
    ensures Passes(x, g, h) && !Settled(h, Migrated(h, x, mapping)) && !Ready(h, Migrated(h, x, mapping))
    ensures !Migrated(h, x, mapping).done
  {
    var y := Migrated(h, x, mapping);
    MovedShaped(h, q, x, mapping);
    assert !SettledAt(h, y, n);
    assert x.nodeStates[n] != COMPLETED;
    if x.done { ProperCompletion(g, p, x); }
    forall m ensures !ReadyAt(h, y, m) {
      if ReadyAt(h, y, m) { assert ReadyAt(g, x, m); }
    }
    forall f ensures !IsM2(x, g, h, f) && !IsM3(x, g, h, f) {
      if f.NotAStep? && f.id in g.nodes { assert NodeOk(g, x, f.id); }
    }
  }

  /** The edge `e` was signaled and its target waited at a join; in the target schema that node is no join. */
  ghost predicate NoLongerJoin(g: Schema, h: Schema, x: Instance, e: Edge) {
    e in g.edges && e.source in FinishedNodes(x) && Awaited(x, e.target) && e.target in h.nodes && !h.nodes[e.target].IsJoin()
  }

  /** All its edges are signaled, and the engine has not reached it. */
  ghost predicate Overdue(h: Schema, y: Instance, n: Id) {
    Shaped(h, y) && n in h.nodes && y.nodeStates[n].NOT_ACTIVATED? && Arrived(h, y, n)
  }

  lemma IsOverdue(g: Schema, p: Process, h: Schema, q: Process, x: Instance, mapping: map<Id, Value>, e: Edge)
    requires Moving(g, p, h, q, x) && SameOut(g, h, FinishedNodes(x)) && NoLongerJoin(g, h, x, e)
    requires Inv(h, Migrated(h, x, mapping))
    ensures Overdue(h, Migrated(h, x, mapping), e.target)
  {
    var y := Migrated(h, x, mapping);
    assert e in h.edges;
    forall f | f in h.edges && f.target == e.target ensures y.edgeStates[f] != NOT_SIGNALED {
      SingleIn(h, q, e, f);
      SignaledIff(h, y, f);
    }
  }

  /** M2 and M3 let a join that waits become an activity: the marking is in order, but nobody is offered that activity. */
  lemma WaitingLeftBehind(g: Schema, p: Process, h: Schema, q: Process, x: Instance, mapping: map<Id, Value>, e: Edge)
    requires Moving(g, p, h, q, x) && SkippedKeep(g, h, x) && ActiveKeep(h, x) && NoLongerJoin(g, h, x, e)
    ensures Inv(h, Migrated(h, x, mapping)) && Overdue(h, Migrated(h, x, mapping), e.target)
    ensures Ready(h, Migrated(h, x, mapping))
  {
    MovedInv(g, p, h, q, x, mapping);
    OutKept(g, p, h, q, x);
    IsOverdue(g, p, h, q, x, mapping, e);
    EdgesInside(g, p, e);
    if x.done { ProperCompletion(g, p, x); }
    StaysReadyInTarget(g, p, h, q, x, mapping);
  }

  /** Work that was on offer stays on offer. */
  lemma StaysReadyInTarget(g: Schema, p: Process, h: Schema, q: Process, x: Instance, mapping: map<Id, Value>)
    requires Moving(g, p, h, q, x) && SkippedKeep(g, h, x) && ActiveKeep(h, x) && !x.done
    ensures Ready(h, Migrated(h, x, mapping))
  {
    NoDeadlock(g, p, x);
    OutKept(g, p, h, q, x);
    var n :| ReadyAt(g, x, n);
    if x.nodeStates[n].ACTIVATED? {
      var before := ActiveIsThere(g, p, h, q, x, n);
    } else {
      FrozenKept(g, h, x, n);
    }
    assert ReadyAt(h, Migrated(h, x, mapping), n);
  }

  lemma CaughtUp(h: Schema, y: Instance, t: Id, m: Id, written: map<Id, Value>, z: Instance)
    requires Inv(h, y) && Overdue(h, y, t) && ReadyAt(h, y, m) && Outcome(h, Begun(h, y, m, written), z)
    ensures z.nodeStates[t].SKIPPED? <==> !Enabled(h, y, t)
    ensures z.nodeStates[t] != NOT_ACTIVATED && (h.nodes[t].ACTIVITY? && Enabled(h, y, t) ==> ReadyAt(h, z, t))
  {
    forall f | f in h.edges && f.target == t ensures z.edgeStates[f] == y.edgeStates[f] != NOT_SIGNALED {
      SignaledIff(h, y, f);
      assert Grows(h, Begun(h, y, m, written), z, f.source) && NodeOk(h, y, f.source);
      assert y.edgeStates[f] == Told(h, y, f) && z.edgeStates[f] == Told(h, z, f);
    }
    NotTheStart(h, y, t);
    assert SettledAt(h, z, t) && NodeOk(h, z, t);
    assert Grows(h, Begun(h, y, m, written), z, t);
  }

  lemma NotTheStart(h: Schema, y: Instance, t: Id)
    requires Inv(h, y) && Overdue(h, y, t)
    ensures !h.nodes[t].START?
  {
    assert NodeOk(h, y, t);
  }

  /** The next completion repairs it, whichever activity is completed: its advance reaches the node. */
  lemma NextAdvanceRepairs(h: Schema, q: Process, y: Instance, t: Id, m: Id, written: map<Id, Value>)
    returns (z: Instance, stuck: Option<Id>)
    requires Flattens(h, q) && K7(h) && Inv(h, y) && Overdue(h, y, t) && ReadyAt(h, y, m)
    ensures if stuck.Some? then StuckAt(h, z, stuck.value) else Outcome(h, Begun(h, y, m, written), z)
    ensures stuck.None? ==> z.nodeStates[t] != NOT_ACTIVATED && (z.nodeStates[t].SKIPPED? <==> !Enabled(h, y, t))
    ensures stuck.None? && h.nodes[t].ACTIVITY? && Enabled(h, y, t) ==> ReadyAt(h, z, t)
  {
    FlatteningIsRunnable(h, q);
    BegunKeepsInv(h, y, m, written);
    z, stuck := AdvanceEnds(h, Begun(h, y, m, written));
    if stuck.None? { CaughtUp(h, y, t, m, written, z); }
  }

  // --- which serial insertions can be rolled out ---------------------------------------------------

  /** The target inserts the activity `n` behind `u`, in front of `t`, and changes nothing else. */
  ghost predicate InsertedBehind(g: Schema, p: Process, h: Schema, q: Process, x: Instance, u: Id, n: Id, t: Id) {
    Flattens(g, p) && Flattens(h, q) && Inv(g, x) && Settled(g, x) && StepInserted(g, h, u, n, t)
  }

  /** Inside the executed region edges are signaled. */
  lemma InternalIsSignaled(g: Schema, p: Process, x: Instance, e: Edge)
    requires Flattens(g, p) && Inv(g, x) && e in g.edges && Internal(x, e)
    ensures e.source in FinishedNodes(x)
  {
    EdgesInside(g, p, e);
    assert NodeOk(g, x, e.target);
    SignaledIff(g, x, e);
  }

  lemma AheadPasses(g: Schema, p: Process, h: Schema, q: Process, x: Instance, u: Id, n: Id, t: Id)
    requires InsertedBehind(g, p, h, q, x, u, n, t) && !x.nodeStates[u].Finished()
    ensures Passes(x, g, h)
  {
    forall f ensures !IsM2(x, g, h, f) && !IsM3(x, g, h, f) {
      if f.EdgeLost? && f.edge in g.edges && Internal(x, f.edge) { InternalIsSignaled(g, p, x, f.edge); }
      if f.Rewired? && f.id in x.nodeStates && x.nodeStates[f.id].COMPLETED? { SameEnds(g, h, u, n, t, f.id); }
      if f.RunningLost? || f.NotAStep? { assert f.id in g.nodes ==> NodeOk(g, x, f.id); }
    }
  }

  lemma SameEnds(g: Schema, h: Schema, u: Id, n: Id, t: Id, m: Id)
    requires StepInserted(g, h, u, n, t) && m in g.nodes && m != u
    ensures Ends(Outgoing(g.edges, m)) == Ends(Outgoing(h.edges, m))
  {
    assert forall e :: e in Outgoing(g.edges, m) <==> e in Outgoing(h.edges, m);
  }

  /** A node that waits behind a signaled edge is a join. */
  lemma WaitingIsJoin(g: Schema, p: Process, x: Instance, e: Edge)
    requires Flattens(g, p) && Inv(g, x) && Settled(g, x) && e in g.edges && e.source in FinishedNodes(x)
    requires x.nodeStates[e.target].NOT_ACTIVATED?
    ensures g.nodes[e.target].IsJoin()
  {
    WaitingNeeded(g, p, x, e);
  }

  /**
   A serial insertion passes M2 and M3 and keeps the marking sound exactly when its anchor is not
   finished: behind a COMPLETED anchor M3 refuses it, behind a SKIPPED one it slips through and
   leaves a gap.
   */
  lemma InsertionMovesIff(g: Schema, p: Process, h: Schema, q: Process, x: Instance, u: Id, n: Id, t: Id)
    requires InsertedBehind(g, p, h, q, x, u, n, t)
    ensures Passes(x, g, h) && SkippedKeep(g, h, x) && ActiveKeep(h, x) && WaitingKeep(g, h, x) <==> !x.nodeStates[u].Finished()
  {
    if !x.nodeStates[u].Finished() {
      AheadPasses(g, p, h, q, x, u, n, t);
      forall m | m in x.nodeStates && x.nodeStates[m].ACTIVATED? && m in h.nodes ensures h.nodes[m].ACTIVITY? { assert SettledAt(g, x, m); }
      forall e | e in g.edges && e.source in FinishedNodes(x) && Awaited(x, e.target) ensures h.nodes[e.target].IsJoin() {
        WaitingIsJoin(g, p, x, e);
      }
    } else if x.nodeStates[u].COMPLETED? {
      assert Edge(u, n) in Outgoing(h.edges, u);
      assert n in Ends(Outgoing(h.edges, u));
      assert n !in Ends(Outgoing(g.edges, u)) by { EdgesKnown(g, p, u, n); }
      assert IsM3(x, g, h, Rewired(u));
    } else {
      assert Edge(u, n) in h.edges && Edge(u, n) !in g.edges by { EdgesKnown(g, p, u, n); }
    }
  }

  lemma EdgesKnown(g: Schema, p: Process, u: Id, n: Id)
    requires Flattens(g, p) && n !in g.nodes
    ensures Edge(u, n) !in g.edges && n !in Ends(Outgoing(g.edges, u))
  {
    forall e | e in g.edges ensures e.target != n { EdgesInside(g, p, e); }
  }
}

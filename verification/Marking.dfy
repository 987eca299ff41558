/**
 The theory of markings: the invariant every reachable instance keeps, the outcome relation
 of the advance step, its uniqueness on acyclic graphs, and what block structure adds.
 */
module Marking {
  import opened Model
  import opened Blocks

  /** The marking has exactly the nodes and edges of the graph, and edges join nodes. */
  ghost predicate Shaped(g: Schema, x: Instance) {
    && x.nodeStates.Keys == g.nodes.Keys
    && (forall e {:trigger e in x.edgeStates} {:trigger e in g.edges} :: e in x.edgeStates <==> e in g.edges)
    && (forall e {:trigger e in g.edges} :: e in g.edges ==> e.source in g.nodes && e.target in g.nodes)
  }

  /** The signal an edge carries once its source has reached its present state. */
  function Told(g: Schema, x: Instance, e: Edge): Signal
    requires e.source in g.nodes && e.source in x.nodeStates
  {
    match x.nodeStates[e.source]
    case COMPLETED =>
      if g.nodes[e.source].XOR_SPLIT? && !(e.source in x.decisions && x.decisions[e.source] == e.target)
      then FALSE_SIGNALED else TRUE_SIGNALED
    case SKIPPED => FALSE_SIGNALED
    case _ => NOT_SIGNALED
  }

  /** Every incoming edge of `n` has been signaled. */
  ghost predicate Arrived(g: Schema, x: Instance, n: Id)
    requires Shaped(g, x)
  {
    forall e :: e in g.edges && e.target == n ==> x.edgeStates[e] != NOT_SIGNALED
  }

  /** AND_JOIN needs all incoming TRUE; any other node needs at least one. */
  ghost predicate Enabled(g: Schema, x: Instance, n: Id)
    requires Shaped(g, x) && n in g.nodes
  {
    if g.nodes[n].AND_JOIN?
    then forall e :: e in g.edges && e.target == n ==> x.edgeStates[e] == TRUE_SIGNALED
    else exists e :: e in g.edges && e.target == n && x.edgeStates[e] == TRUE_SIGNALED
  }

  ghost predicate NodeOk(g: Schema, x: Instance, n: Id)
    requires Shaped(g, x) && n in g.nodes
  {
    var s := x.nodeStates[n];
    && (s.RUNNING? ==> g.nodes[n].ACTIVITY?)
    && (n in x.decisions <==> g.nodes[n].XOR_SPLIT? && s.COMPLETED?)
    && (n in x.decisions ==> Edge(n, x.decisions[n]) in g.edges)
    && if g.nodes[n].START? then
         s != NOT_ACTIVATED && s != SKIPPED
       else
         s != NOT_ACTIVATED ==> Arrived(g, x, n) && (s.SKIPPED? <==> !Enabled(g, x, n))
  }

  /** The marking invariant. */
  ghost predicate Inv(g: Schema, x: Instance) {
    && Shaped(g, x)
    && (forall e {:trigger x.edgeStates[e]} :: e in g.edges ==> x.edgeStates[e] == Told(g, x, e))
    && (forall n {:trigger NodeOk(g, x, n)} :: n in g.nodes ==> NodeOk(g, x, n))
    && x.decisions.Keys <= g.nodes.Keys
    && (x.done <==> exists n :: n in g.nodes && g.nodes[n].END? && x.nodeStates[n].COMPLETED?)
  }

  /** Nothing is left for the engine to do on its own: a fixpoint of `_advance`. */
  ghost predicate SettledAt(g: Schema, x: Instance, n: Id)
    requires Shaped(g, x) && n in g.nodes
  {
    && (x.nodeStates[n].ACTIVATED? ==> g.nodes[n].ACTIVITY?)
    && (x.nodeStates[n].NOT_ACTIVATED? ==> !Arrived(g, x, n))
  }

  ghost predicate Settled(g: Schema, x: Instance) {
    Shaped(g, x) && forall n {:trigger SettledAt(g, x, n)} :: n in g.nodes ==> SettledAt(g, x, n)
  }

  /** What the instance data select at an XOR split. */
  function Choice(g: Schema, data: map<Id, Value>, n: Id): Option<Id> {
    if n in g.decisions && g.decisions[n].discriminator in data
    then ResolveTarget(g.decisions[n], data[g.decisions[n].discriminator])
    else None
  }

  /** How far the engine alone may move one node: activities are activated, never completed. */
  ghost predicate Grows(g: Schema, x: Instance, y: Instance, n: Id)
    requires n in g.nodes && n in x.nodeStates && n in y.nodeStates
  {
    var s, t := x.nodeStates[n], y.nodeStates[n];
    && match s {
         case NOT_ACTIVATED => !t.RUNNING? && (g.nodes[n].ACTIVITY? ==> !t.COMPLETED?)
         case ACTIVATED => t.ACTIVATED? || (t.COMPLETED? && !g.nodes[n].ACTIVITY?)
         case _ => t == s
       }
    && (n in x.decisions ==> n in y.decisions && y.decisions[n] == x.decisions[n])
    && (n in y.decisions && n !in x.decisions ==> Choice(g, x.data, n) == Some(y.decisions[n]))
  }

  ghost predicate Extends(g: Schema, x: Instance, y: Instance) {
    && x.nodeStates.Keys == g.nodes.Keys == y.nodeStates.Keys
    && y.data == x.data
    && forall n {:trigger Grows(g, x, y, n)} :: n in g.nodes ==> Grows(g, x, y, n)
  }

  /** `y` is what advancing from `x` must end in. */
  ghost predicate Outcome(g: Schema, x: Instance, y: Instance) {
    Extends(g, x, y) && Inv(g, y) && Settled(g, y)
  }

  /** A topological ranking: the graph has no cycle. */
  ghost predicate Ranked(g: Schema, rank: map<Id, nat>) {
    && g.nodes.Keys <= rank.Keys
    && forall e :: e in g.edges ==> e.source in g.nodes && e.target in g.nodes && rank[e.source] < rank[e.target]
  }

  ghost predicate Entered(g: Schema, n: Id) {
    exists e :: e in g.edges && e.target == n
  }

  ghost predicate Left(g: Schema, n: Id) {
    exists e :: e in g.edges && e.source == n
  }

  /** Every node but START, and only they, are entered by an edge; every node but END is left by one. */
  ghost predicate Connected(g: Schema) {
    && (forall e :: e in g.edges ==> e.source in g.nodes && e.target in g.nodes)
    && (forall n {:trigger Entered(g, n)} :: n in g.nodes ==> (Entered(g, n) <==> !g.nodes[n].START?))
    && (forall n {:trigger Left(g, n)} :: n in g.nodes ==> (Left(g, n) <==> !g.nodes[n].END?))
  }

  ghost predicate Acyclic(g: Schema) {
    exists rank :: Ranked(g, rank)
  }

  lemma {:induction false} ExtendsTransitive(g: Schema, x: Instance, y: Instance, z: Instance)
    requires Extends(g, x, y) && Extends(g, y, z)
    ensures Extends(g, x, z)
  {
    forall n | n in g.nodes ensures Grows(g, x, z, n) {
      assert Grows(g, x, y, n) && Grows(g, y, z, n);
    }
  }

  // --- confluence ----------------------------------------------------------

  /** Every partial advance stays below every outcome, node by node. */
  lemma {:induction false} DominatesAt(g: Schema, rank: map<Id, nat>, x: Instance, y: Instance, z: Instance, n: Id)
    requires Ranked(g, rank) && n in g.nodes
    requires Extends(g, x, y) && Inv(g, y) && Outcome(g, x, z)
    ensures Grows(g, y, z, n)
    decreases rank[n]
  {
    forall e | e in g.edges && e.target == n && y.edgeStates[e] != NOT_SIGNALED
      ensures z.edgeStates[e] == y.edgeStates[e]
    {
      DominatesAt(g, rank, x, y, z, e.source);
      assert NodeOk(g, y, e.source) && NodeOk(g, z, e.source);
    }
    assert Grows(g, x, y, n) && Grows(g, x, z, n);
    assert NodeOk(g, y, n) && NodeOk(g, z, n) && SettledAt(g, z, n);
  }

  lemma Dominates(g: Schema, rank: map<Id, nat>, x: Instance, y: Instance, z: Instance)
    requires Ranked(g, rank) && Extends(g, x, y) && Inv(g, y) && Outcome(g, x, z)
    ensures Extends(g, y, z)
  {
    forall n | n in g.nodes ensures Grows(g, y, z, n) { DominatesAt(g, rank, x, y, z, n); }
  }

  /** Confluence: the marking reached does not depend on the order of the steps. */
  lemma OutcomeIsUnique(g: Schema, rank: map<Id, nat>, x: Instance, y: Instance, z: Instance)
    requires Ranked(g, rank) && Outcome(g, x, y) && Outcome(g, x, z)
    ensures y == z
  {
    Dominates(g, rank, x, y, z);
    Dominates(g, rank, x, z, y);
    forall n | n in g.nodes
      ensures y.nodeStates[n] == z.nodeStates[n]
      ensures n in y.decisions <==> n in z.decisions
      ensures n in y.decisions ==> y.decisions[n] == z.decisions[n]
    {
      assert Grows(g, y, z, n) && Grows(g, z, y, n);
    }
    assert y.nodeStates == z.nodeStates;
    assert y.decisions == z.decisions;
    forall e | e in g.edges ensures y.edgeStates[e] == z.edgeStates[e] {
      assert y.edgeStates[e] == Told(g, y, e);
    }
    assert y.edgeStates.Keys == z.edgeStates.Keys;
    assert y.edgeStates == z.edgeStates;
  }

  /** A split reached on the way to an outcome has a defined choice. */
  lemma OutcomeChose(g: Schema, rank: map<Id, nat>, x: Instance, y: Instance, z: Instance, n: Id)
    requires Ranked(g, rank) && Extends(g, x, y) && Inv(g, y) && Outcome(g, x, z)
    requires n in g.nodes && g.nodes[n].XOR_SPLIT? && y.nodeStates[n].ACTIVATED?
    ensures n in z.decisions && Choice(g, y.data, n) == Some(z.decisions[n])
  {
    Dominates(g, rank, x, y, z);
    assert Grows(g, y, z, n) && SettledAt(g, z, n) && NodeOk(g, z, n) && NodeOk(g, y, n);
  }

  /** A split whose choice is undefined stops every run: there is no outcome at all. */
  lemma StuckHasNoOutcome(g: Schema, rank: map<Id, nat>, x: Instance, y: Instance, n: Id)
    requires Ranked(g, rank) && Extends(g, x, y) && Inv(g, y)
    requires n in g.nodes && g.nodes[n].XOR_SPLIT? && y.nodeStates[n].ACTIVATED? && Choice(g, y.data, n).None?
    ensures !exists z :: Outcome(g, x, z)
  {
    forall z ensures !Outcome(g, x, z) {
      if Outcome(g, x, z) { OutcomeChose(g, rank, x, y, z, n); }
    }
  }

  // --- progress on acyclic graphs -------------------------------------------

  ghost predicate ReadyAt(g: Schema, x: Instance, n: Id) {
    && n in g.nodes && n in x.nodeStates
    && g.nodes[n].ACTIVITY? && (x.nodeStates[n].ACTIVATED? || x.nodeStates[n].RUNNING?)
  }

  ghost predicate Ready(g: Schema, x: Instance) {
    exists n :: ReadyAt(g, x, n)
  }

  lemma {:induction false} FinishedAt(g: Schema, rank: map<Id, nat>, x: Instance, n: Id)
    requires Ranked(g, rank) && Inv(g, x) && Settled(g, x) && !Ready(g, x) && n in g.nodes
    ensures x.nodeStates[n].Finished()
    decreases rank[n]
  {
    forall e | e in g.edges && e.target == n ensures x.edgeStates[e] != NOT_SIGNALED {
      FinishedAt(g, rank, x, e.source);
    }
    assert NodeOk(g, x, n) && SettledAt(g, x, n) && !ReadyAt(g, x, n);
  }

  /**
   On any acyclic graph, a settled instance with no ready activity has finished every node;
   it is stuck (RUNNING for good) exactly when its END was skipped.
   */
  lemma StuckIffEndSkipped(g: Schema, x: Instance, end: Id)
    requires Acyclic(g) && Inv(g, x) && Settled(g, x) && !Ready(g, x)
    requires end in g.nodes && forall n :: n in g.nodes ==> (g.nodes[n].END? <==> n == end)
    ensures forall n :: n in g.nodes ==> x.nodeStates[n].Finished()
    ensures !x.done <==> x.nodeStates[end].SKIPPED?
  {
    var rank :| Ranked(g, rank);
    forall n | n in g.nodes ensures x.nodeStates[n].Finished() { FinishedAt(g, rank, x, n); }
  }

  // --- what block structure adds ---------------------------------------------

  /** A signal leaving a chain is the signal that entered it. */
  lemma {:induction false} Through(g: Schema, x: Instance, b: Block, src: Id, dst: Id, p: Port)
    requires Inv(g, x) && (IsChain(b) || IsBundle(b)) && Embedded(g.nodes, multiset(g.edges), b, src, dst)
    requires p in Ports(b, src, dst)
    ensures p.entry in g.edges && p.exit in g.edges
    ensures x.edgeStates[p.exit] != NOT_SIGNALED ==> x.edgeStates[p.entry] == x.edgeStates[p.exit]
    decreases b, 1
  {
    PortEdges(b, src, dst, p);
    match b
    case Done =>
    case NoBranch =>
    case Branch(body, more) =>
      EmbeddedBranch(g.nodes, multiset(g.edges), b, src, dst);
      if p in Ports(body, src, dst) { Through(g, x, body, src, dst, p); } else { Through(g, x, more, src, dst, p); }
    case Task(id, _, next) =>
      EmbeddedTask(g.nodes, multiset(g.edges), b, src, dst);
      var q := Port(Edge(id, First(next, dst)), p.exit);
      Through(g, x, next, id, dst, q);
      OnlyIncoming(g, b, src, dst, id);
      Relay(g, x, p.entry, q.entry);
    case Gateway(_, s, j, branches, next) =>
      EmbeddedGateway(g.nodes, multiset(g.edges), b, src, dst);
      var q := Port(Edge(j, First(next, dst)), p.exit);
      Through(g, x, next, j, dst, q);
      if x.edgeStates[p.exit] != NOT_SIGNALED {
        SignaledMeansArrived(g, x, q.entry);
        JoinAgrees(g, x, b, src, dst);
        OnlyIncoming(g, b, src, dst, s);
        GatewayRelay(g, x, s, p.entry, q.entry);
      }
  }

  lemma SignaledMeansArrived(g: Schema, x: Instance, e: Edge)
    requires Inv(g, x) && e in g.edges && x.edgeStates[e] != NOT_SIGNALED && !g.nodes[e.source].START?
    ensures Arrived(g, x, e.source)
  {
    assert NodeOk(g, x, e.source);
  }

  lemma GatewayRelay(g: Schema, x: Instance, s: Id, before: Edge, after: Edge)
    requires Inv(g, x) && before in g.edges && after in g.edges && before.target == s
    requires s in g.nodes && g.nodes[s].IsSplit() && g.nodes[after.source].IsJoin()
    requires forall e :: e in g.edges && e.target == s <==> e == before
    requires x.nodeStates[s].Finished() && (x.nodeStates[s].COMPLETED? <==> Enabled(g, x, after.source))
    requires x.edgeStates[after] != NOT_SIGNALED
    ensures x.edgeStates[before] == x.edgeStates[after]
  {
    assert NodeOk(g, x, s) && NodeOk(g, x, after.source);
    assert x.edgeStates[after] == Told(g, x, after);
  }

  /** A step with one incoming edge passes its signal on. */
  lemma Relay(g: Schema, x: Instance, before: Edge, after: Edge)
    requires Inv(g, x) && before in g.edges && after in g.edges && before.target == after.source
    requires g.nodes[after.source].IsStep()
    requires forall e :: e in g.edges && e.target == after.source <==> e == before
    ensures x.edgeStates[after] != NOT_SIGNALED ==> x.edgeStates[before] == x.edgeStates[after]
  {
    assert NodeOk(g, x, after.source);
    assert x.edgeStates[after] == Told(g, x, after);
  }

  /** The first node of a chain has the chain's entry edge as its only incoming edge. */
  lemma OnlyIncoming(g: Schema, b: Block, src: Id, dst: Id, n: Id)
    requires (b.Task? && n == b.id) || (b.Gateway? && n == b.split)
    requires Embedded(g.nodes, multiset(g.edges), b, src, dst)
    ensures forall e :: e in g.edges && e.target == n <==> e == Edge(src, n)
  {
    forall e | e in g.edges && e.target == n ensures e == Edge(src, n) {
      assert multiset(g.edges)[e] == EdgeBag(b, src, dst)[e];
      if b.Task? {
        if e in EdgeBag(b.next, n, dst) { EdgeEnds(b.next, n, dst, e); }
      } else {
        if e in EdgeBag(b.branches, n, b.join) { EdgeEnds(b.branches, n, b.join, e); }
        if e in EdgeBag(b.next, b.join, dst) { EdgeEnds(b.next, b.join, dst, e); }
      }
    }
    assert Edge(src, n) in EdgeBag(b, src, dst);
  }

  /** The incoming edges of a join are the exit edges of its branches. */
  lemma JoinIncoming(g: Schema, b: Block, src: Id, dst: Id, e: Edge)
    requires b.Gateway? && IsChain(b) && Embedded(g.nodes, multiset(g.edges), b, src, dst)
    requires e in g.edges && e.target == b.join
    ensures exists p :: p in Ports(b.branches, b.split, b.join) && p.exit == e
  {
    assert multiset(g.edges)[e] == EdgeBag(b, src, dst)[e];
    if e in EdgeBag(b.next, b.join, dst) { EdgeEnds(b.next, b.join, dst, e); }
    ExitEdge(b.branches, b.split, b.join, e);
  }

  /** The outgoing edges of a split are the entry edges of its branches. */
  lemma SplitOutgoing(g: Schema, b: Block, src: Id, dst: Id, e: Edge)
    requires b.Gateway? && IsChain(b) && Embedded(g.nodes, multiset(g.edges), b, src, dst)
    requires e in g.edges && e.source == b.split
    ensures exists p :: p in Ports(b.branches, b.split, b.join) && p.entry == e
  {
    assert multiset(g.edges)[e] == EdgeBag(b, src, dst)[e];
    if e in EdgeBag(b.next, b.join, dst) { EdgeEnds(b.next, b.join, dst, e); }
    EntryEdge(b.branches, b.split, b.join, e);
  }

  ghost predicate IsExit(ports: set<Port>, e: Edge) {
    exists p :: p in ports && p.exit == e
  }

  ghost predicate IsEntry(ports: set<Port>, e: Edge) {
    exists p :: p in ports && p.entry == e
  }

  /** What a set of branch ports needs to satisfy between a split and its join. */
  ghost predicate Bundled(g: Schema, ports: set<Port>, s: Id, j: Id) {
    && (exists p :: p in ports)
    && (forall p :: p in ports ==> p.entry in g.edges && p.exit in g.edges && p.entry.source == s && p.exit.target == j)
    && (forall e :: e in g.edges && e.target == j ==> IsExit(ports, e))
    && (forall e :: e in g.edges && e.source == s ==> IsEntry(ports, e))
    && (forall p, q :: p in ports && q in ports && p.entry == q.entry ==> p == q)
  }

  lemma GatewayIsBundled(g: Schema, b: Block, src: Id, dst: Id)
    requires b.Gateway? && IsChain(b) && Embedded(g.nodes, multiset(g.edges), b, src, dst)
    ensures Bundled(g, Ports(b.branches, b.split, b.join), b.split, b.join)
  {
    var s, j := b.split, b.join;
    EmbeddedGateway(g.nodes, multiset(g.edges), b, src, dst);
    var _ := BundlePort(b.branches, s, j);
    forall p | p in Ports(b.branches, s, j)
      ensures p.entry in g.edges && p.exit in g.edges && p.entry.source == s && p.exit.target == j
    { PortEdges(b.branches, s, j, p); }
    forall e | e in g.edges && e.target == j
      ensures IsExit(Ports(b.branches, s, j), e)
    { JoinIncoming(g, b, src, dst, e); }
    forall e | e in g.edges && e.source == s
      ensures IsEntry(Ports(b.branches, s, j), e)
    { SplitOutgoing(g, b, src, dst, e); }
    forall p, q | p in Ports(b.branches, s, j) && q in Ports(b.branches, s, j) && p.entry == q.entry
      ensures p == q
    { PortByEntry(b.branches, s, j, p, q); }
  }

  /** All branches have been passed through. */
  ghost predicate PassedThrough(g: Schema, x: Instance, ports: set<Port>)
    requires Shaped(g, x)
  {
    forall p :: p in ports ==>
      && p.entry in g.edges && p.exit in g.edges
      && x.edgeStates[p.entry] == x.edgeStates[p.exit] && x.edgeStates[p.exit] != NOT_SIGNALED
  }

  /** A split whose branches have been passed is finished and tells every exit its signal. */
  lemma BundleTold(g: Schema, x: Instance, ports: set<Port>, s: Id, j: Id)
    requires Inv(g, x) && Bundled(g, ports, s, j) && PassedThrough(g, x, ports) && s in g.nodes
    ensures x.nodeStates[s].Finished()
    ensures forall p :: p in ports ==> x.edgeStates[p.exit] == Told(g, x, p.entry)
  {
    var p0 :| p0 in ports;
    assert x.edgeStates[p0.entry] == Told(g, x, p0.entry);
  }

  lemma AndBundleAgrees(g: Schema, x: Instance, ports: set<Port>, s: Id, j: Id)
    requires Inv(g, x) && Bundled(g, ports, s, j) && PassedThrough(g, x, ports)
    requires s in g.nodes && g.nodes[s].AND_SPLIT? && j in g.nodes && g.nodes[j].AND_JOIN?
    ensures x.nodeStates[s].Finished()
    ensures x.nodeStates[s].COMPLETED? <==> Enabled(g, x, j)
    ensures SameSignals(g, x, j)
  {
    BundleTold(g, x, ports, s, j);
    var signal := if x.nodeStates[s].COMPLETED? then TRUE_SIGNALED else FALSE_SIGNALED;
    forall e | e in g.edges && e.target == j ensures x.edgeStates[e] == signal {
      var p :| p in ports && p.exit == e;
    }
    var p0 :| p0 in ports;
    assert p0.exit in g.edges && p0.exit.target == j;
  }

  lemma XorBundleAgrees(g: Schema, x: Instance, ports: set<Port>, s: Id, j: Id)
    requires Inv(g, x) && Bundled(g, ports, s, j) && PassedThrough(g, x, ports)
    requires s in g.nodes && g.nodes[s].XOR_SPLIT? && j in g.nodes && g.nodes[j].XOR_JOIN?
    ensures x.nodeStates[s].Finished()
    ensures x.nodeStates[s].COMPLETED? <==> Enabled(g, x, j)
    ensures OneTrue(g, x, j)
  {
    BundleTold(g, x, ports, s, j);
    assert NodeOk(g, x, s);
    forall e | e in g.edges && e.target == j && x.edgeStates[e].TRUE_SIGNALED?
      ensures s in x.decisions
      ensures exists p :: p in ports && p.exit == e && p.entry == Edge(s, x.decisions[s])
    {
      var p :| p in ports && p.exit == e;
    }
    if s in x.decisions {
      var p :| p in ports && p.entry == Edge(s, x.decisions[s]);
      assert x.edgeStates[p.exit].TRUE_SIGNALED? && p.exit in g.edges && p.exit.target == j;
    }
  }

  /** An AND join never sees a mix of TRUE and FALSE. */
  ghost predicate SameSignals(g: Schema, x: Instance, j: Id)
    requires Shaped(g, x)
  {
    forall e, f :: e in g.edges && f in g.edges && e.target == j && f.target == j ==> x.edgeStates[e] == x.edgeStates[f]
  }

  /** An XOR join sees at most one TRUE. */
  ghost predicate OneTrue(g: Schema, x: Instance, j: Id)
    requires Shaped(g, x)
  {
    forall e, f :: e in g.edges && f in g.edges && e.target == j && f.target == j ==>
      x.edgeStates[e].TRUE_SIGNALED? && x.edgeStates[f].TRUE_SIGNALED? ==> e == f
  }

  /**
   The join of every block agrees with its split: once all its incoming edges are signaled,
   its split is finished, it is enabled exactly when the split completed (so it is skipped
   exactly when the split was), an AND join has seen no mix of signals, and an XOR join has
   seen at most one TRUE.
   */
  lemma {:induction false} JoinAgrees(g: Schema, x: Instance, b: Block, src: Id, dst: Id)
    requires Inv(g, x) && b.Gateway? && IsChain(b) && Embedded(g.nodes, multiset(g.edges), b, src, dst)
    requires Arrived(g, x, b.join)
    ensures x.nodeStates[b.split].Finished()
    ensures x.nodeStates[b.split].COMPLETED? <==> Enabled(g, x, b.join)
    ensures b.logic.AND? ==> SameSignals(g, x, b.join)
    ensures b.logic.XOR? ==> OneTrue(g, x, b.join)
    decreases b, 0
  {
    EmbeddedGateway(g.nodes, multiset(g.edges), b, src, dst);
    GatewayIsBundled(g, b, src, dst);
    var ports := Ports(b.branches, b.split, b.join);
    forall p | p in ports
      ensures x.edgeStates[p.entry] == x.edgeStates[p.exit] && x.edgeStates[p.exit] != NOT_SIGNALED
    { Through(g, x, b.branches, b.split, b.join, p); }
    if b.logic.AND? {
      AndBundleAgrees(g, x, ports, b.split, b.join);
    } else {
      XorBundleAgrees(g, x, ports, b.split, b.join);
    }
  }

  /** Soundness: on a block-structured schema END is never skipped. */
  lemma EndNeverSkipped(g: Schema, p: Process, x: Instance)
    requires Flattens(g, p) && Inv(g, x)
    ensures !x.nodeStates[p.end].SKIPPED?
  {
    var port := Port(Edge(p.start, First(p.body, p.end)), Edge(Last(p.body, p.start), p.end));
    Through(g, x, p.body, p.start, p.end, port);
    assert NodeOk(g, x, p.start) && NodeOk(g, x, p.end);
  }

  /** A block-structured schema has no cycle. */
  lemma FlatteningIsAcyclic(g: Schema, p: Process)
    requires Flattens(g, p)
    ensures Acyclic(g)
  {
    var rank := (map n | n in Ids(p.body) :: Position(p.body, 1, n))[p.start := 0][p.end := 1 + Size(p.body)];
    forall e | e in g.edges
      ensures e.source in g.nodes && e.target in g.nodes && rank[e.source] < rank[e.target]
    {
      assert e in multiset(g.edges);
      EdgesAscend(p.body, p.start, p.end, 1, rank, e);
    }
    assert Ranked(g, rank);
  }

  /**
   No deadlock: a settled instance of a block-structured schema that is still RUNNING has an
   activity to work on; once it is COMPLETED every node is COMPLETED or SKIPPED.
   */
  lemma NoDeadlock(g: Schema, p: Process, x: Instance)
    requires Flattens(g, p) && Inv(g, x) && Settled(g, x)
    ensures x.done || Ready(g, x)
  {
    FlatteningIsAcyclic(g, p);
    EndNeverSkipped(g, p, x);
    if !Ready(g, x) {
      TypedEnds(g, p);
      StuckIffEndSkipped(g, x, p.end);
    }
  }

  lemma TypedEnds(g: Schema, p: Process)
    requires Flattens(g, p)
    ensures forall n :: n in g.nodes ==> (g.nodes[n].END? <==> n == p.end) && (g.nodes[n].START? <==> n == p.start)
  {
    forall n | n in Ids(p.body) ensures !g.nodes[n].START? && !g.nodes[n].END? { TypedInside(g.nodes, p.body, n); }
  }

  lemma TypedInside(nodes: map<Id, NodeType>, b: Block, n: Id)
    requires (IsChain(b) || IsBundle(b)) && Typed(nodes, b) && n in Ids(b)
    ensures n in nodes && !nodes[n].START? && !nodes[n].END?
  {}

  lemma EveryNodeConnected(g: Schema, p: Process)
    requires Flattens(g, p)
    ensures Connected(g)
  {
    TypedEnds(g, p);
    EndsConnected(g, p);
    forall n | n in Ids(p.body) ensures Entered(g, n) && Left(g, n) {
      var before, after := InsideConnected(p.body, p.start, p.end, n);
      assert before in multiset(g.edges) && after in multiset(g.edges);
    }
  }

  lemma EndsConnected(g: Schema, p: Process)
    requires Flattens(g, p)
    ensures forall e :: e in g.edges ==> e.source in Ids(p.body) + {p.start} && e.target in Ids(p.body) + {p.end}
    ensures Left(g, p.start) && !Entered(g, p.start) && Entered(g, p.end) && !Left(g, p.end)
  {
    var port := ChainPort(p.body, p.start, p.end);
    assert port.entry in multiset(g.edges) && port.exit in multiset(g.edges);
    forall e | e in g.edges ensures e.source in Ids(p.body) + {p.start} && e.target in Ids(p.body) + {p.end} {
      assert e in multiset(g.edges);
      EdgeEnds(p.body, p.start, p.end, e);
    }
  }

  lemma {:induction false} InsideConnected(b: Block, src: Id, dst: Id, n: Id) returns (before: Edge, after: Edge)
    requires (IsChain(b) || IsBundle(b)) && n in Ids(b)
    ensures before in EdgeBag(b, src, dst) && before.target == n
    ensures after in EdgeBag(b, src, dst) && after.source == n
  {
    match b
    case Task(id, _, next) =>
      if n == id {
        var p := ChainPort(next, id, dst);
        before, after := Edge(src, id), p.entry;
      } else { before, after := InsideConnected(next, id, dst, n); }
    case Gateway(_, s, j, branches, next) =>
      assert EdgeBag(b, src, dst) == multiset{Edge(src, s)} + EdgeBag(branches, s, j) + EdgeBag(next, j, dst);
      var p := BundlePort(branches, s, j);
      var q := ChainPort(next, j, dst);
      if n == s {
        before, after := Edge(src, s), p.entry;
      } else if n == j {
        before, after := p.exit, q.entry;
      } else if n in Ids(branches) {
        before, after := InsideConnected(branches, s, j, n);
      } else {
        before, after := InsideConnected(next, j, dst, n);
      }
    case Branch(body, more) =>
      if n in Ids(body) {
        before, after := InsideConnected(body, src, dst, n);
      } else {
        before, after := InsideConnected(more, src, dst, n);
      }
  }

  /** The port of a chain. */
  lemma ChainPort(b: Block, src: Id, dst: Id) returns (p: Port)
    requires IsChain(b)
    ensures p in Ports(b, src, dst) && p.entry in EdgeBag(b, src, dst) && p.exit in EdgeBag(b, src, dst)
    ensures p == Port(Edge(src, First(b, dst)), Edge(Last(b, src), dst))
  {
    p := Port(Edge(src, First(b, dst)), Edge(Last(b, src), dst));
    PortEdges(b, src, dst, p);
  }

  lemma BundlePort(b: Block, src: Id, dst: Id) returns (p: Port)
    requires IsBundle(b) && Width(b) >= 1
    ensures p in Ports(b, src, dst) && p.entry in EdgeBag(b, src, dst) && p.exit in EdgeBag(b, src, dst)
    ensures p.entry.source == src && p.exit.target == dst
  {
    p := ChainPort(b.body, src, dst);
  }

  lemma Bounded(rank: map<Id, nat>) returns (bound: nat)
    ensures forall n :: n in rank ==> rank[n] < bound
    decreases |rank|
  {
    bound := 0;
    if rank.Keys != {} {
      var k :| k in rank;
      var rest := map n | n in rank && n != k :: rank[n];
      assert rest.Keys == rank.Keys - {k};
      var b := Bounded(rest);
      bound := b + rank[k] + 1;
      forall n | n in rank ensures rank[n] < bound {
        assert n != k ==> rest[n] < b;
      }
    }
  }

  lemma {:induction false} PastAt(g: Schema, rank: map<Id, nat>, bound: nat, x: Instance, end: Id, n: Id)
    requires Ranked(g, rank) && Inv(g, x) && end in g.nodes && x.nodeStates[end].COMPLETED?
    requires Connected(g) && forall m :: m in g.nodes && g.nodes[m].END? ==> m == end
    requires forall m :: m in g.nodes ==> rank[m] < bound
    requires n in g.nodes
    ensures x.nodeStates[n].Finished()
    decreases bound - rank[n]
  {
    if n != end {
      assert Left(g, n);
      var e :| e in g.edges && e.source == n;
      assert Entered(g, e.target);
      PastAt(g, rank, bound, x, end, e.target);
      FinishedBefore(g, x, e);
    }
  }

  lemma FinishedBefore(g: Schema, x: Instance, e: Edge)
    requires Inv(g, x) && e in g.edges && x.nodeStates[e.target].Finished() && !g.nodes[e.target].START?
    ensures x.nodeStates[e.source].Finished()
  {
    assert NodeOk(g, x, e.target);
    assert x.edgeStates[e] == Told(g, x, e);
  }

  /** Proper completion: in a COMPLETED instance every node is COMPLETED or SKIPPED. */
  lemma ProperCompletion(g: Schema, p: Process, x: Instance)
    requires Flattens(g, p) && Inv(g, x) && x.done
    ensures forall n :: n in g.nodes ==> x.nodeStates[n].Finished()
  {
    FlatteningIsAcyclic(g, p);
    EveryNodeConnected(g, p);
    TypedEnds(g, p);
    var rank :| Ranked(g, rank);
    var bound := Bounded(rank);
    forall n | n in g.nodes ensures x.nodeStates[n].Finished() { PastAt(g, rank, bound, x, p.end, n); }
  }
}

/**
 Which join belongs to which split is a matter of the edges alone. So retyping joins gives a
 block-structured schema only if every split keeps a join of its own kind, while the structural
 rules merely count.
 */
module Pairing {
  import opened Model
  import opened Blocks
  import opened Edits
  import opened Marking
  import opened Validator
  import opened DataFlow
  import opened Structure
  import opened Operations
  import opened Deletion

  // --- a split has one join -------------------------------------------------------------------

  /** Edges out of the inside of a gateway block lead back into it or to its join. */
  lemma StaysInside(g: Schema, b: Block, src: Id, dst: Id, e: Edge)
    requires b.Gateway? && IsChain(b) && Embedded(g.nodes, multiset(g.edges), b, src, dst)
    requires e in g.edges && e.source in Ids(b.branches) + {b.split}
    ensures e.target in Ids(b.branches) + {b.join}
  {
    EmbeddedGateway(g.nodes, multiset(g.edges), b, src, dst);
    if e.source == b.split {
      SplitOutgoing(g, b, src, dst, e);
      var p :| p in Ports(b.branches, b.split, b.join) && p.entry == e;
      PortEdges(b.branches, b.split, b.join, p);
    } else {
      assert Touches(e, Ids(b.branches)) && multiset(g.edges)[e] > 0;
    }
    EdgeEnds(b.branches, b.split, b.join, e);
  }

  /** Of two branches at least one does without the node `n`. */
  lemma {:induction false} FreeBranch(b: Block, s: Id, j: Id, n: Id) returns (body: Block)
    requires IsBundle(b) && Width(b) >= 1 && Distinct(b) && (Width(b) >= 2 || n !in Ids(b))
    ensures IsChain(body) && n !in Ids(body) && EdgeBag(body, s, j) <= EdgeBag(b, s, j)
  {
    if n !in Ids(b.body) { body := b.body; } else { body := FreeBranch(b.more, s, j, n); }
  }

  /** If two blocks of one split had different joins, each would lie inside the other block. */
  lemma JoinInside(g: Schema, b: Block, src: Id, dst: Id, h: Schema, b': Block, src': Id, dst': Id)
    requires b.Gateway? && IsChain(b) && Embedded(g.nodes, multiset(g.edges), b, src, dst)
    requires b'.Gateway? && IsChain(b') && Embedded(h.nodes, multiset(h.edges), b', src', dst')
    requires g.edges == h.edges && b.split == b'.split && b.join != b'.join
    ensures b'.join in Ids(b.branches)
  {
    var s, j' := b.split, b'.join;
    EmbeddedGateway(h.nodes, multiset(h.edges), b', src', dst');
    var body := FreeBranch(b'.branches, s, j', b.join);
    var path := EdgeList(body, s, j');
    EdgeListBag(body, s, j');
    Crosses(body, s, j', path);
    forall e | e in path && e.source in Ids(b.branches) + {s} ensures e.target in Ids(b.branches) + {s} {
      assert e in multiset(path);
      EdgeEnds(body, s, j', e);
      StaysInside(g, b, src, dst, e);
    }
    ClosedContains(path, Ids(b.branches) + {s}, s, j');
  }

  lemma RankAlong(g: Schema, rank: map<Id, nat>, a: Id, b: Id)
    requires Ranked(g, rank) && Reaches(g.edges, a, b) && a != b
    ensures a in rank && b in rank && rank[a] < rank[b]
  {
    var walk :| IsWalk(g.edges, walk) && walk[0] == a && walk[|walk| - 1] == b;
    for i := 1 to |walk|
      invariant i == 1 || (a in rank && walk[i - 1] in rank && rank[a] < rank[walk[i - 1]])
    {
      assert Edge(walk[i - 1], walk[i]) in g.edges;
    }
  }

  /** The join of a split is determined by the edges. */
  lemma OneJoin(g: Schema, b: Block, src: Id, dst: Id, h: Schema, b': Block, src': Id, dst': Id)
    requires b.Gateway? && IsChain(b) && Embedded(g.nodes, multiset(g.edges), b, src, dst)
    requires b'.Gateway? && IsChain(b') && Embedded(h.nodes, multiset(h.edges), b', src', dst')
    requires Acyclic(g) && g.edges == h.edges && b.split == b'.split
    ensures b.join == b'.join
  {
    if b.join != b'.join {
      JoinInside(g, b, src, dst, h, b', src', dst');
      JoinInside(h, b', src', dst', g, b, src, dst);
      EmbeddedGateway(g.nodes, multiset(g.edges), b, src, dst);
      EmbeddedGateway(h.nodes, multiset(h.edges), b', src', dst');
      OnTheWay(b.branches, b.split, b.join, g.edges, b'.join);
      OnTheWay(b'.branches, b.split, b'.join, g.edges, b.join);
      var rank :| Ranked(g, rank);
      RankAlong(g, rank, b.join, b'.join);
      RankAlong(g, rank, b'.join, b.join);
    }
  }

  // --- retyped joins ----------------------------------------------------------------------------

  /** `h` is `g`, except that some joins may be of the other kind. */
  ghost predicate JoinsRetyped(g: Schema, h: Schema) {
    && h.edges == g.edges && h.decisions == g.decisions && h.nodes.Keys == g.nodes.Keys
    && forall n :: n in g.nodes ==> if g.nodes[n].IsJoin() then h.nodes[n].IsJoin() else h.nodes[n] == g.nodes[n]
  }

  /** Every split of the term has a join of its own kind. */
  predicate JoinsFit(nodes: map<Id, NodeType>, b: Block) {
    match b
    case Task(_, _, next) => JoinsFit(nodes, next)
    case Gateway(logic, _, j, branches, next) =>
      j in nodes && nodes[j] == logic.JoinType() && JoinsFit(nodes, branches) && JoinsFit(nodes, next)
    case Branch(body, more) => JoinsFit(nodes, body) && JoinsFit(nodes, more)
    case _ => true
  }

  lemma OwnJoin(g: Schema, h: Schema, q: Process, b: Block, src: Id, dst: Id)
    requires JoinsRetyped(g, h) && Flattens(h, q) && Acyclic(g)
    requires b.Gateway? && IsChain(b) && Embedded(g.nodes, multiset(g.edges), b, src, dst)
    ensures b.join in h.nodes && h.nodes[b.join] == b.logic.JoinType()
  {
    assert h.nodes[b.split] == b.logic.SplitType();
    TypedEnds(h, q);
    SplitSite(h, q, b.split);
    SiteFacts(h, q, b.split);
    var t := SiteOf(q.body, q.start, q.end, b.split);
    OneJoin(g, b, src, dst, h, t.chain, t.before, t.after);
  }

  lemma {:induction false} FlatteningFits(g: Schema, h: Schema, q: Process, b: Block, src: Id, dst: Id)
    requires JoinsRetyped(g, h) && Flattens(h, q) && Acyclic(g)
    requires (IsChain(b) || IsBundle(b)) && Embedded(g.nodes, multiset(g.edges), b, src, dst)
    ensures JoinsFit(h.nodes, b)
  {
    match b
    case Task(id, _, next) =>
      EmbeddedTask(g.nodes, multiset(g.edges), b, src, dst);
      FlatteningFits(g, h, q, next, id, dst);
    case Gateway(_, s, j, branches, next) =>
      OwnJoin(g, h, q, b, src, dst);
      EmbeddedGateway(g.nodes, multiset(g.edges), b, src, dst);
      FlatteningFits(g, h, q, branches, s, j);
      FlatteningFits(g, h, q, next, j, dst);
    case Branch(body, more) =>
      EmbeddedBranch(g.nodes, multiset(g.edges), b, src, dst);
      FlatteningFits(g, h, q, body, src, dst);
      FlatteningFits(g, h, q, more, src, dst);
    case _ =>
  }

  lemma {:induction false} FitsIsTyped(g: Schema, h: Schema, b: Block)
    requires JoinsRetyped(g, h) && (IsChain(b) || IsBundle(b)) && Typed(g.nodes, b) && JoinsFit(h.nodes, b)
    ensures Typed(h.nodes, b)
  {
    match b
    case Task(_, _, next) => FitsIsTyped(g, h, next);
    case Gateway(_, _, _, branches, next) => FitsIsTyped(g, h, branches); FitsIsTyped(g, h, next);
    case Branch(body, more) => FitsIsTyped(g, h, body); FitsIsTyped(g, h, more);
    case _ =>
  }

  /**
   A block-structured schema with retyped joins is block-structured, under whatever term, exactly
   when the own join of every split is of the kind of the split.
   */
  lemma RetypedFlattensIff(g: Schema, p: Process, h: Schema)
    requires Flattens(g, p) && JoinsRetyped(g, h)
    ensures (exists q :: Flattens(h, q)) <==> JoinsFit(h.nodes, p.body)
  {
    if JoinsFit(h.nodes, p.body) {
      FitsIsTyped(g, h, p.body);
      assert Flattens(h, p);
    }
    if q :| Flattens(h, q) {
      FlatteningIsAcyclic(g, p);
      FlatteningFits(g, h, q, p.body, p.start, p.end);
    }
  }

  lemma JoinCounts(g: Schema, h: Schema)
    requires JoinsRetyped(g, h)
    ensures forall t: NodeType :: !t.IsJoin() ==> OfType(h, t) == OfType(g, t)
    ensures |OfType(h, AND_JOIN)| + |OfType(h, XOR_JOIN)| == |OfType(g, AND_JOIN)| + |OfType(g, XOR_JOIN)|
  {
    assert OfType(h, AND_JOIN) + OfType(h, XOR_JOIN) == OfType(g, AND_JOIN) + OfType(g, XOR_JOIN);
    assert OfType(h, AND_JOIN) !! OfType(h, XOR_JOIN) && OfType(g, AND_JOIN) !! OfType(g, XOR_JOIN);
    assert |OfType(h, AND_JOIN) + OfType(h, XOR_JOIN)| == |OfType(h, AND_JOIN)| + |OfType(h, XOR_JOIN)|;
    assert |OfType(g, AND_JOIN) + OfType(g, XOR_JOIN)| == |OfType(g, AND_JOIN)| + |OfType(g, XOR_JOIN)|;
  }

  lemma RetypedK2(g: Schema, h: Schema)
    requires JoinsRetyped(g, h) && K2(g)
    ensures K2(h)
  {
    JoinCounts(g, h);
    forall n | n in h.nodes ensures DegreesOk(h.nodes[n], |Incoming(h.edges, n)|, |Outgoing(h.edges, n)|) {
      assert DegreesOk(g.nodes[n], |Incoming(g.edges, n)|, |Outgoing(g.edges, n)|);
    }
  }

  lemma RetypedK3(g: Schema, h: Schema)
    requires JoinsRetyped(g, h) && K3(g)
    ensures K3(h)
  {
    forall n | n in h.nodes ensures OnSomeWay(h, n) { assert OnSomeWay(g, n); }
  }

  lemma RetypedK7(g: Schema, h: Schema)
    requires JoinsRetyped(g, h) && K7(g)
    ensures K7(h)
  {
    JoinCounts(g, h);
  }

  lemma RetypedK1(g: Schema, h: Schema)
    requires JoinsRetyped(g, h) && K1(g)
    ensures K1(h) <==> |OfType(h, AND_JOIN)| == |OfType(g, AND_JOIN)|
  {
    JoinCounts(g, h);
  }

  /** The rules K1, K2, K3 and K7 accept it exactly when as many joins are of each kind as before. */
  lemma RetypedPassesIff(g: Schema, p: Process, h: Schema)
    requires Flattens(g, p) && K7(g) && JoinsRetyped(g, h)
    ensures Structural(h) <==> |OfType(h, AND_JOIN)| == |OfType(g, AND_JOIN)|
  {
    FlatteningIsStructural(g, p);
    EndsConnected(g, p);
    JoinedResolves(h);
    RetypedK1(g, h);
    RetypedK2(g, h);
    RetypedK3(g, h);
    RetypedK7(g, h);
  }

  // --- which instances of a retyped schema complete ---------------------------------------------

  /** The branch that starts with `first` is taken: the split is an AND split or has decided so. */
  predicate Taken(logic: Logic, decisions: map<Id, Id>, s: Id, first: Id) {
    logic.AND? || (s in decisions && decisions[s] == first)
  }

  /**
   A chain carries a TRUE signal from its entry to its exit, given the decisions taken: at every AND
   join all branches are taken and carry it, at every other join one does.
   */
  predicate Carries(nodes: map<Id, NodeType>, decisions: map<Id, Id>, b: Block) {
    match b
    case Task(_, _, next) => Carries(nodes, decisions, next)
    case Gateway(logic, s, j, branches, next) =>
      && Carries(nodes, decisions, next)
      && if j in nodes && nodes[j].AND_JOIN?
         then AllCarry(nodes, decisions, branches, logic, s, j)
         else SomeCarries(nodes, decisions, branches, logic, s, j)
    case _ => true
  }

  predicate AllCarry(nodes: map<Id, NodeType>, decisions: map<Id, Id>, b: Block, logic: Logic, s: Id, j: Id) {
    b.Branch? ==>
      && Taken(logic, decisions, s, First(b.body, j)) && Carries(nodes, decisions, b.body)
      && AllCarry(nodes, decisions, b.more, logic, s, j)
  }

  predicate SomeCarries(nodes: map<Id, NodeType>, decisions: map<Id, Id>, b: Block, logic: Logic, s: Id, j: Id) {
    b.Branch? &&
      (|| (Taken(logic, decisions, s, First(b.body, j)) && Carries(nodes, decisions, b.body))
       || SomeCarries(nodes, decisions, b.more, logic, s, j))
  }

  /** Every node is finished. */
  ghost predicate AllFinished(h: Schema, x: Instance) {
    Inv(h, x) && forall n :: n in h.nodes ==> x.nodeStates[n].Finished()
  }

  /** A finished node with one way in is completed exactly if that way is TRUE. */
  lemma OneWayIn(h: Schema, x: Instance, e: Edge, n: Id)
    requires AllFinished(h, x) && e in h.edges && e.target == n && n in h.nodes && !h.nodes[n].START?
    requires forall f :: f in h.edges && f.target == n <==> f == e
    ensures x.nodeStates[n].COMPLETED? <==> x.edgeStates[e].TRUE_SIGNALED?
  {
    assert NodeOk(h, x, n);
    assert x.edgeStates[e] == Told(h, x, e);
  }

  lemma WayOut(h: Schema, x: Instance, e: Edge)
    requires AllFinished(h, x) && e in h.edges
    ensures e.source in h.nodes
    ensures x.edgeStates[e].TRUE_SIGNALED? <==>
            x.nodeStates[e.source].COMPLETED? && (h.nodes[e.source].XOR_SPLIT? ==> e.source in x.decisions && x.decisions[e.source] == e.target)
  {
    assert x.edgeStates[e] == Told(h, x, e);
  }

  /** The signal at the exit of a chain. */
  lemma {:induction false} ChainCarries(g: Schema, h: Schema, x: Instance, b: Block, src: Id, dst: Id)
    requires JoinsRetyped(g, h) && AllFinished(h, x)
    requires IsChain(b) && Embedded(g.nodes, multiset(g.edges), b, src, dst)
    ensures var entry, exit := Edge(src, First(b, dst)), Edge(Last(b, src), dst);
            && entry in h.edges && exit in h.edges
            && (x.edgeStates[exit].TRUE_SIGNALED? <==> x.edgeStates[entry].TRUE_SIGNALED? && Carries(h.nodes, x.decisions, b))
    decreases b, 1
  {
    var port := ChainPort(b, src, dst);
    match b
    case Done =>
    case Task(id, _, next) =>
      EmbeddedTask(g.nodes, multiset(g.edges), b, src, dst);
      ChainCarries(g, h, x, next, id, dst);
      OnlyIncoming(g, b, src, dst, id);
      OneWayIn(h, x, Edge(src, id), id);
      WayOut(h, x, Edge(id, First(next, dst)));
    case Gateway(_, s, j, _, next) =>
      EmbeddedGateway(g.nodes, multiset(g.edges), b, src, dst);
      ChainCarries(g, h, x, next, j, dst);
      JoinCarries(g, h, x, b, src, dst);
      OnlyIncoming(g, b, src, dst, s);
      OneWayIn(h, x, Edge(src, s), s);
      WayOut(h, x, Edge(j, First(next, dst)));
  }

  lemma JoinCarries(g: Schema, h: Schema, x: Instance, b: Block, src: Id, dst: Id)
    requires JoinsRetyped(g, h) && AllFinished(h, x)
    requires IsChain(b) && b.Gateway? && Embedded(g.nodes, multiset(g.edges), b, src, dst)
    ensures b.join in h.nodes && b.split in h.nodes
    ensures x.nodeStates[b.join].COMPLETED? <==>
            && x.nodeStates[b.split].COMPLETED?
            && if h.nodes[b.join].AND_JOIN?
               then AllCarry(h.nodes, x.decisions, b.branches, b.logic, b.split, b.join)
               else SomeCarries(h.nodes, x.decisions, b.branches, b.logic, b.split, b.join)
    decreases b, 0
  {
    var ports := Ports(b.branches, b.split, b.join);
    EmbeddedGateway(g.nodes, multiset(g.edges), b, src, dst);
    GatewayIsBundled(g, b, src, dst);
    BranchesCarry(g, h, x, b.branches, b.logic, b.split, b.join);
    JoinEnabled(g, h, x, ports, b.split, b.join);
    assert NodeOk(h, x, b.join);
  }

  lemma JoinEnabled(g: Schema, h: Schema, x: Instance, ports: set<Port>, s: Id, j: Id)
    requires JoinsRetyped(g, h) && Inv(h, x) && Bundled(g, ports, s, j) && j in h.nodes && h.nodes[j].IsJoin()
    ensures Enabled(h, x, j) <==>
            if h.nodes[j].AND_JOIN? then AllBring(x, ports) else SomeBrings(x, ports)
  {
    if AllBring(x, ports) {
      forall e | e in h.edges && e.target == j ensures x.edgeStates[e].TRUE_SIGNALED? {
        assert IsExit(ports, e);
      }
    }
    if e :| e in h.edges && e.target == j && x.edgeStates[e].TRUE_SIGNALED? {
      assert IsExit(ports, e);
      var p :| p in ports && p.exit == e;
      assert p.exit in x.edgeStates;
    }
  }

  ghost predicate AllBring(x: Instance, ports: set<Port>) {
    forall p :: p in ports ==> p.exit in x.edgeStates && x.edgeStates[p.exit].TRUE_SIGNALED?
  }

  ghost predicate SomeBrings(x: Instance, ports: set<Port>) {
    exists p :: p in ports && p.exit in x.edgeStates && x.edgeStates[p.exit].TRUE_SIGNALED?
  }

  /** Behind a completed split the branches bring what they carry, behind a skipped one nothing. */
  lemma {:induction false} BranchesCarry(g: Schema, h: Schema, x: Instance, b: Block, logic: Logic, s: Id, j: Id)
    requires JoinsRetyped(g, h) && AllFinished(h, x)
    requires IsBundle(b) && Embedded(g.nodes, multiset(g.edges), b, s, j) && s in g.nodes && g.nodes[s] == logic.SplitType()
    ensures x.nodeStates[s].COMPLETED? ==> (AllBring(x, Ports(b, s, j)) <==> AllCarry(h.nodes, x.decisions, b, logic, s, j))
    ensures x.nodeStates[s].COMPLETED? ==> (SomeBrings(x, Ports(b, s, j)) <==> SomeCarries(h.nodes, x.decisions, b, logic, s, j))
    ensures x.nodeStates[s].SKIPPED? ==> !SomeBrings(x, Ports(b, s, j))
    decreases b, 0
  {
    if b.Branch? {
      EmbeddedBranch(g.nodes, multiset(g.edges), b, s, j);
      ChainCarries(g, h, x, b.body, s, j);
      BranchesCarry(g, h, x, b.more, logic, s, j);
      var port := ChainPort(b.body, s, j);
      WayOut(h, x, port.entry);
      MorePorts(x, port, Ports(b.body, s, j), Ports(b.more, s, j));
    }
  }

  lemma MorePorts(x: Instance, port: Port, first: set<Port>, more: set<Port>)
    requires first == {port} && port.exit in x.edgeStates
    ensures AllBring(x, first + more) <==> x.edgeStates[port.exit].TRUE_SIGNALED? && AllBring(x, more)
    ensures SomeBrings(x, first + more) <==> x.edgeStates[port.exit].TRUE_SIGNALED? || SomeBrings(x, more)
  {}

  /**
   An instance of a retyped schema with nothing left to work on is COMPLETED exactly if the whole term
   carries its signal under the decisions that were taken; otherwise it is stuck.
   */
  lemma RetypedCompletesIff(g: Schema, p: Process, h: Schema, x: Instance)
    requires Flattens(g, p) && JoinsRetyped(g, h) && Inv(h, x) && Settled(h, x) && !Ready(h, x)
    ensures x.done <==> Carries(h.nodes, x.decisions, p.body)
    ensures x.nodeStates[p.end].SKIPPED? <==> !Carries(h.nodes, x.decisions, p.body)
  {
    TypedEnds(g, p);
    FlatteningIsAcyclic(g, p);
    RetypedAcyclic(g, h);
    StuckIffEndSkipped(h, x, p.end);
    ChainCarries(g, h, x, p.body, p.start, p.end);
    WayOut(h, x, Edge(p.start, First(p.body, p.end)));
    assert NodeOk(h, x, p.start);
    LastWay(g, p);
    OneWayIn(h, x, Edge(Last(p.body, p.start), p.end), p.end);
  }

  lemma RetypedAcyclic(g: Schema, h: Schema)
    requires JoinsRetyped(g, h) && Acyclic(g)
    ensures Acyclic(h)
  {
    var rank :| Ranked(g, rank);
    assert Ranked(h, rank);
  }

  lemma LastWay(g: Schema, p: Process)
    requires Flattens(g, p)
    ensures forall f :: f in g.edges && f.target == p.end <==> f == Edge(Last(p.body, p.start), p.end)
  {
    var port := ChainPort(p.body, p.start, p.end);
    assert port.exit in multiset(g.edges);
    forall f | f in g.edges && f.target == p.end ensures f == port.exit {
      assert f in multiset(g.edges);
      ExitEdge(p.body, p.start, p.end, f);
    }
  }

  /** An XOR block with an AND join carries nothing, unless all its branches start with the same edge. */
  lemma ExchangedXorKills(nodes: map<Id, NodeType>, decisions: map<Id, Id>, b: Block, u: Port, v: Port)
    requires b.Gateway? && IsChain(b) && b.logic.XOR? && b.join in nodes && nodes[b.join].AND_JOIN?
    requires u in Ports(b.branches, b.split, b.join) && v in Ports(b.branches, b.split, b.join) && u.entry != v.entry
    ensures !Carries(nodes, decisions, b)
  {
    if Carries(nodes, decisions, b) {
      AllTaken(nodes, decisions, b.branches, b.split, b.join, u);
      AllTaken(nodes, decisions, b.branches, b.split, b.join, v);
    }
  }

  lemma {:induction false} AllTaken(nodes: map<Id, NodeType>, decisions: map<Id, Id>, b: Block, s: Id, j: Id, p: Port)
    requires IsBundle(b) && AllCarry(nodes, decisions, b, XOR, s, j) && p in Ports(b, s, j)
    ensures s in decisions && p.entry == Edge(s, decisions[s])
  {
    if p in Ports(b.body, s, j) {
      var q := ChainPort(b.body, s, j);
    } else {
      AllTaken(nodes, decisions, b.more, s, j, p);
    }
  }
}

/**
 Block terms: the nested reading of a process graph. A chain is a sequence of steps and
 balanced gateway blocks; a bundle holds the parallel or alternative chains of one gateway.
 `EdgeBag(b, src, dst)` flattens a term placed between the nodes `src` and `dst`.
 */
module Blocks {
  import opened Model

  datatype Logic = AND | XOR
  {
    function SplitType(): NodeType { if AND? then AND_SPLIT else XOR_SPLIT }

    function JoinType(): NodeType { if AND? then AND_JOIN else XOR_JOIN }
  }

  datatype Block =
    | Done                                                                        // end of a chain
    | Task(id: Id, kind: NodeType, next: Block)
    | Gateway(logic: Logic, split: Id, join: Id, branches: Block, next: Block)
    | NoBranch                                                                    // end of a bundle
    | Branch(body: Block, more: Block)

  /** A process: one START, one END and the chain between them. */
  datatype Process = Process(start: Id, end: Id, body: Block)

  predicate IsChain(b: Block) {
    match b
    case Done => true
    case Task(_, kind, next) => kind.IsStep() && IsChain(next)
    case Gateway(_, _, _, branches, next) => IsBundle(branches) && Width(branches) >= 2 && IsChain(next)
    case _ => false
  }

  predicate IsBundle(b: Block) {
    match b
    case NoBranch => true
    case Branch(body, more) => IsChain(body) && IsBundle(more)
    case _ => false
  }

  /** The number of branches of a bundle. */
  function Width(b: Block): nat {
    if b.Branch? then 1 + Width(b.more) else 0
  }

  function Ids(b: Block): set<Id> {
    match b
    case Done => {}
    case Task(id, _, next) => {id} + Ids(next)
    case Gateway(_, s, j, branches, next) => {s, j} + Ids(branches) + Ids(next)
    case NoBranch => {}
    case Branch(body, more) => Ids(body) + Ids(more)
  }

  /** No id occurs twice in the term. */
  predicate Distinct(b: Block) {
    match b
    case Done => true
    case Task(id, _, next) => id !in Ids(next) && Distinct(next)
    case Gateway(_, s, j, branches, next) =>
      && s != j && s !in Ids(branches) + Ids(next) && j !in Ids(branches) + Ids(next)
      && Ids(branches) !! Ids(next) && Distinct(branches) && Distinct(next)
    case NoBranch => true
    case Branch(body, more) => Ids(body) !! Ids(more) && Distinct(body) && Distinct(more)
  }

  /** `nodes` gives every id of the term the type the term gives it. */
  predicate Typed(nodes: map<Id, NodeType>, b: Block) {
    match b
    case Done => true
    case Task(id, kind, next) => id in nodes && nodes[id] == kind && Typed(nodes, next)
    case Gateway(logic, s, j, branches, next) =>
      && s in nodes && nodes[s] == logic.SplitType()
      && j in nodes && nodes[j] == logic.JoinType()
      && Typed(nodes, branches) && Typed(nodes, next)
    case NoBranch => true
    case Branch(body, more) => Typed(nodes, body) && Typed(nodes, more)
  }

  /** The node entered first when a chain runs into `dst`. */
  function First(b: Block, dst: Id): Id {
    match b
    case Task(id, _, _) => id
    case Gateway(_, s, _, _, _) => s
    case _ => dst
  }

  /** The node left last when a chain started from `src`. */
  function Last(b: Block, src: Id): Id
  {
    match b
    case Task(id, _, next) => Last(next, id)
    case Gateway(_, _, j, _, next) => Last(next, j)
    case _ => src
  }

  function EdgeBag(b: Block, src: Id, dst: Id): multiset<Edge> {
    match b
    case Done => multiset{Edge(src, dst)}
    case Task(id, _, next) => multiset{Edge(src, id)} + EdgeBag(next, id, dst)
    case Gateway(_, s, j, branches, next) =>
      multiset{Edge(src, s)} + EdgeBag(branches, s, j) + EdgeBag(next, j, dst)
    case NoBranch => multiset{}
    case Branch(body, more) => EdgeBag(body, src, dst) + EdgeBag(more, src, dst)
  }

  predicate WellFormed(p: Process) {
    && IsChain(p.body) && Distinct(p.body)
    && p.start != p.end && p.start !in Ids(p.body) && p.end !in Ids(p.body)
  }

  /** `nodes` and `edges` are the flattening of `p`. */
  ghost predicate Flattens(g: Schema, p: Process) {
    && WellFormed(p)
    && g.nodes.Keys == Ids(p.body) + {p.start, p.end}
    && g.nodes[p.start] == START && g.nodes[p.end] == END && Typed(g.nodes, p.body)
    && multiset(g.edges) == EdgeBag(p.body, p.start, p.end)
  }

  predicate Touches(e: Edge, ids: set<Id>) {
    e.source in ids || e.target in ids
  }

  /**
   The term `b` sits in the graph between `src` and `dst`: all its edges are there, and
   no other edge of the graph touches one of its nodes.
   */
  ghost predicate Embedded(nodes: map<Id, NodeType>, bag: multiset<Edge>, b: Block, src: Id, dst: Id) {
    && Distinct(b) && Typed(nodes, b) && src !in Ids(b) && dst !in Ids(b)
    && EdgeBag(b, src, dst) <= bag
    && forall e {:trigger bag[e]} :: Touches(e, Ids(b)) ==> bag[e] == EdgeBag(b, src, dst)[e]
  }

  lemma {:induction false} EdgeEnds(b: Block, src: Id, dst: Id, e: Edge)
    requires e in EdgeBag(b, src, dst)
    ensures e.source in Ids(b) + {src} && e.target in Ids(b) + {dst}
  {
    match b
    case Done =>
    case Task(id, _, next) =>
      if e != Edge(src, id) { EdgeEnds(next, id, dst, e); }
    case Gateway(_, s, j, branches, next) =>
      if e != Edge(src, s) {
        if e in EdgeBag(branches, s, j) { EdgeEnds(branches, s, j, e); } else { EdgeEnds(next, j, dst, e); }
      }
    case NoBranch =>
    case Branch(body, more) =>
      if e in EdgeBag(body, src, dst) { EdgeEnds(body, src, dst, e); } else { EdgeEnds(more, src, dst, e); }
  }

  lemma EdgeCountsAway(b: Block, src: Id, dst: Id, ids: set<Id>)
    requires ids !! Ids(b) + {src, dst}
    ensures forall e {:trigger EdgeBag(b, src, dst)[e]} :: Touches(e, ids) ==> EdgeBag(b, src, dst)[e] == 0
  {
    forall e | e in EdgeBag(b, src, dst) ensures !Touches(e, ids) { EdgeEnds(b, src, dst, e); }
  }

  lemma EmbeddedTask(nodes: map<Id, NodeType>, bag: multiset<Edge>, b: Block, src: Id, dst: Id)
    requires b.Task? && Embedded(nodes, bag, b, src, dst)
    ensures Embedded(nodes, bag, b.next, b.id, dst) && Edge(src, b.id) in bag
  {}

  lemma EmbeddedGateway(nodes: map<Id, NodeType>, bag: multiset<Edge>, b: Block, src: Id, dst: Id)
    requires b.Gateway? && Embedded(nodes, bag, b, src, dst)
    ensures Embedded(nodes, bag, b.branches, b.split, b.join)
    ensures Embedded(nodes, bag, b.next, b.join, dst)
    ensures Edge(src, b.split) in bag
  {
    EdgeCountsAway(b.branches, b.split, b.join, Ids(b.next));
    EdgeCountsAway(b.next, b.join, dst, Ids(b.branches));
    assert EdgeBag(b, src, dst)
        == multiset{Edge(src, b.split)} + EdgeBag(b.branches, b.split, b.join) + EdgeBag(b.next, b.join, dst);
    forall e | Touches(e, Ids(b.branches)) ensures bag[e] == EdgeBag(b.branches, b.split, b.join)[e] {
      assert EdgeBag(b.next, b.join, dst)[e] == 0;
    }
  }

  lemma EmbeddedBranch(nodes: map<Id, NodeType>, bag: multiset<Edge>, b: Block, src: Id, dst: Id)
    requires b.Branch? && Embedded(nodes, bag, b, src, dst)
    ensures Embedded(nodes, bag, b.body, src, dst)
    ensures Embedded(nodes, bag, b.more, src, dst)
  {
    EdgeCountsAway(b.body, src, dst, Ids(b.more));
    EdgeCountsAway(b.more, src, dst, Ids(b.body));
    forall e | Touches(e, Ids(b.body)) ensures bag[e] == EdgeBag(b.body, src, dst)[e] {
      assert EdgeBag(b.more, src, dst)[e] == 0;
    }
  }

  // --- entry and exit edges ------------------------------------------------

  datatype Port = Port(entry: Edge, exit: Edge)

  /** The entry and exit edge of a chain, or of every chain of a bundle. */
  function Ports(b: Block, src: Id, dst: Id): set<Port> {
    match b
    case NoBranch => {}
    case Branch(body, more) => Ports(body, src, dst) + Ports(more, src, dst)
    case _ => {Port(Edge(src, First(b, dst)), Edge(Last(b, src), dst))}
  }

  lemma LastIsInside(b: Block, src: Id)
    ensures Last(b, src) in Ids(b) + {src}
  {}

  lemma {:induction false} ExitEdge(b: Block, src: Id, dst: Id, e: Edge)
    requires IsChain(b) || IsBundle(b)
    requires e in EdgeBag(b, src, dst) && e.target == dst && dst !in Ids(b)
    ensures exists p :: p in Ports(b, src, dst) && p.exit == e
  {
    match b
    case Done => assert Port(e, e) in Ports(b, src, dst);
    case Task(id, _, next) =>
      ExitEdge(next, id, dst, e);
      assert Port(Edge(src, id), e) in Ports(b, src, dst);
    case Gateway(_, s, j, branches, next) =>
      if e in EdgeBag(branches, s, j) { EdgeEnds(branches, s, j, e); }
      ExitEdge(next, j, dst, e);
      assert Port(Edge(src, s), e) in Ports(b, src, dst);
    case NoBranch =>
    case Branch(body, more) =>
      if e in EdgeBag(body, src, dst) { ExitEdge(body, src, dst, e); } else { ExitEdge(more, src, dst, e); }
  }

  lemma {:induction false} EntryEdge(b: Block, src: Id, dst: Id, e: Edge)
    requires IsChain(b) || IsBundle(b)
    requires e in EdgeBag(b, src, dst) && e.source == src && src !in Ids(b)
    ensures exists p :: p in Ports(b, src, dst) && p.entry == e
  {
    match b
    case Done => assert Port(e, e) in Ports(b, src, dst);
    case Task(id, _, next) =>
      if e != Edge(src, id) { EdgeEnds(next, id, dst, e); }
      assert Port(e, Edge(Last(next, id), dst)) in Ports(b, src, dst);
    case Gateway(_, s, j, branches, next) =>
      if e in EdgeBag(branches, s, j) { EdgeEnds(branches, s, j, e); }
      if e in EdgeBag(next, j, dst) { EdgeEnds(next, j, dst, e); }
      assert Port(e, Edge(Last(next, j), dst)) in Ports(b, src, dst);
    case NoBranch =>
    case Branch(body, more) =>
      if e in EdgeBag(body, src, dst) { EntryEdge(body, src, dst, e); } else { EntryEdge(more, src, dst, e); }
  }

  lemma {:induction false} PortEdges(b: Block, src: Id, dst: Id, p: Port)
    requires IsChain(b) || IsBundle(b)
    requires p in Ports(b, src, dst)
    ensures p.entry in EdgeBag(b, src, dst) && p.entry.source == src
    ensures p.exit in EdgeBag(b, src, dst) && p.exit.target == dst
  {
    match b
    case Done =>
    case Task(id, _, next) => PortEdges(next, id, dst, Port(Edge(id, First(next, dst)), p.exit));
    case Gateway(_, s, j, branches, next) => PortEdges(next, j, dst, Port(Edge(j, First(next, dst)), p.exit));
    case NoBranch =>
    case Branch(body, more) =>
      if p in Ports(body, src, dst) { PortEdges(body, src, dst, p); } else { PortEdges(more, src, dst, p); }
  }

  /** Two branches of a bundle that start with the same edge are the same branch, or both empty. */
  lemma {:induction false} PortByEntry(b: Block, src: Id, dst: Id, p: Port, q: Port)
    requires (IsChain(b) || IsBundle(b)) && Distinct(b) && src !in Ids(b) && dst !in Ids(b)
    requires p in Ports(b, src, dst) && q in Ports(b, src, dst) && p.entry == q.entry
    ensures p == q
  {
    if b.Branch? {
      if p in Ports(b.body, src, dst) && q in Ports(b.body, src, dst) {
        PortByEntry(b.body, src, dst, p, q);
      } else if p in Ports(b.more, src, dst) && q in Ports(b.more, src, dst) {
        PortByEntry(b.more, src, dst, p, q);
      } else if p in Ports(b.body, src, dst) {
        EntryOwner(b.body, src, dst, p);
        EntryOwner(b.more, src, dst, q);
      } else {
        EntryOwner(b.more, src, dst, p);
        EntryOwner(b.body, src, dst, q);
      }
    }
  }

  /** A branch either is a direct edge or is entered through one of its own nodes. */
  lemma {:induction false} EntryOwner(b: Block, src: Id, dst: Id, p: Port)
    requires (IsChain(b) || IsBundle(b)) && p in Ports(b, src, dst)
    ensures p.entry.target in Ids(b) || (p.entry == p.exit == Edge(src, dst))
  {
    if b.Branch? {
      if p in Ports(b.body, src, dst) { EntryOwner(b.body, src, dst, p); } else { EntryOwner(b.more, src, dst, p); }
    }
  }

  // --- a topological numbering ----------------------------------------------

  function Size(b: Block): nat {
    match b
    case Done => 0
    case Task(_, _, next) => 1 + Size(next)
    case Gateway(_, _, _, branches, next) => 2 + Size(branches) + Size(next)
    case NoBranch => 0
    case Branch(body, more) => Size(body) + Size(more)
  }

  /** The position of `n` when the term is written out from position `base` on. */
  function Position(b: Block, base: nat, n: Id): nat {
    match b
    case Task(id, _, next) => if n == id then base else Position(next, base + 1, n)
    case Gateway(_, s, j, branches, next) =>
      if n == s then base
      else if n == j then base + 1 + Size(branches)
      else if n in Ids(branches) then Position(branches, base + 1, n)
      else Position(next, base + 2 + Size(branches), n)
    case Branch(body, more) =>
      if n in Ids(body) then Position(body, base, n) else Position(more, base + Size(body), n)
    case _ => base
  }

  lemma {:induction false} EdgesAscend(b: Block, src: Id, dst: Id, base: nat, rank: map<Id, nat>, e: Edge)
    requires Distinct(b) && Ids(b) + {src, dst} <= rank.Keys
    requires forall n :: n in Ids(b) ==> rank[n] == Position(b, base, n)
    requires rank[src] < base && base + Size(b) <= rank[dst]
    requires e in EdgeBag(b, src, dst)
    ensures e.source in rank && e.target in rank && rank[e.source] < rank[e.target]
  {
    match b
    case Done =>
    case Task(id, _, next) =>
      if e != Edge(src, id) { EdgesAscend(next, id, dst, base + 1, rank, e); }
    case Gateway(_, s, j, branches, next) =>
      if e == Edge(src, s) {
      } else if e in EdgeBag(branches, s, j) {
        EdgesAscend(branches, s, j, base + 1, rank, e);
      } else {
        EdgesAscend(next, j, dst, base + 2 + Size(branches), rank, e);
      }
    case NoBranch =>
    case Branch(body, more) =>
      if e in EdgeBag(body, src, dst) {
        EdgesAscend(body, src, dst, base, rank, e);
      } else {
        EdgesAscend(more, src, dst, base + Size(body), rank, e);
      }
  }
}

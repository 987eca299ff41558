/**
 The change operations. Each one works on a mutable deep copy of the schema and commits it only
 if the validator accepts it. On the flattening of a block term every accepted operation yields
 the flattening of the edited term.
 */
module Operations {
  import opened Model
  import opened Blocks
  import opened Edits
  import opened Marking
  import opened Partition
  import opened DataFlow
  import opened Validator
  import opened Structure
  import opened Decisions
  import MatchingBlock

  // --- edge list edits ---------------------------------------------------------------

  /** `edges.remove(e)`: without the first occurrence. */
  function RemoveEdge(es: seq<Edge>, e: Edge): seq<Edge> {
    if es == [] then [] else if es[0] == e then es[1..] else [es[0]] + RemoveEdge(es[1..], e)
  }

  lemma {:induction false} RemoveEdgeBag(es: seq<Edge>, e: Edge)
    requires e in es
    ensures multiset(RemoveEdge(es, e)) + multiset{e} == multiset(es)
  {
    assert es == [es[0]] + es[1..];
    if es[0] != e { RemoveEdgeBag(es[1..], e); }
  }

  /** The edges that touch none of the removed nodes. */
  function Detached(es: seq<Edge>, gone: set<Id>): seq<Edge> {
    if es == [] then [] else (if Touches(es[0], gone) then [] else [es[0]]) + Detached(es[1..], gone)
  }

  lemma {:induction false} DetachedCount(es: seq<Edge>, gone: set<Id>, e: Edge)
    ensures multiset(Detached(es, gone))[e] == if Touches(e, gone) then 0 else multiset(es)[e]
  {
    if es != [] {
      assert es == [es[0]] + es[1..];
      DetachedCount(es[1..], gone, e);
    }
  }

  /** If exactly the edges of `part` touch the removed nodes, detaching takes `part` away. */
  lemma DetachedBag(es: seq<Edge>, gone: set<Id>, part: multiset<Edge>)
    requires forall e :: Touches(e, gone) ==> multiset(es)[e] == part[e]
    requires forall e :: !Touches(e, gone) ==> part[e] == 0
    ensures multiset(Detached(es, gone)) + part == multiset(es)
  {
    forall e ensures (multiset(Detached(es, gone)) + part)[e] == multiset(es)[e] { DetachedCount(es, gone, e); }
  }

  /** The schema being edited: `model_copy(deep=True)`. */
  class Candidate {
    const lifecycle: Lifecycle
    const version: nat
    var nodes: map<Id, NodeType>
    var edges: seq<Edge>
    var decisions: map<Id, XorDecision>

    function View(): Schema
      reads this
    {
      Schema(lifecycle, version, nodes, edges, decisions)
    }

    constructor (g: Schema)
      ensures View() == g
    {
      lifecycle, version, nodes, edges, decisions := g.lifecycle, g.version, g.nodes, g.edges, g.decisions;
    }

    /** `_drop_nodes`, for the nodes and the decisions that depend on them. */
    method DropNodes(gone: set<Id>)
      modifies this
      ensures View() == old(View()).(nodes := old(nodes) - gone, decisions := old(decisions) - gone)
    {
      nodes := nodes - gone;
      decisions := decisions - gone;
    }
  }

  // --- insertions -----------------------------------------------------------------------

  /** Where an insertion is allowed: behind a node with one way out. */
  ghost predicate Anchor(g: Schema, after: Id) {
    g.lifecycle.ENTWURF? && after in g.nodes && !g.nodes[after].END? && !g.nodes[after].IsSplit()
  }

  /** `g'` is `g` with the chain `f` spliced into the edge from `after` to `h`. */
  ghost predicate Spliced(g: Schema, g': Schema, after: Id, h: Id, f: Block) {
    && g'.nodes.Keys == g.nodes.Keys + Ids(f)
    && (forall n :: n in g.nodes && n !in Ids(f) ==> g'.nodes[n] == g.nodes[n])
    && Typed(g'.nodes, f)
    && Outgoing(g.edges, after) == [Edge(after, h)]
    && multiset(g'.edges) + multiset{Edge(after, h)} == multiset(g.edges) + EdgeBag(f, after, h)
  }

  /** The chain that starts at a node of the schema, in its place in the graph. */
  lemma SiteFacts(g: Schema, p: Process, n: Id)
    requires Flattens(g, p) && n in Ids(p.body)
    ensures var s := SiteOf(p.body, p.start, p.end, n);
            && IsChain(s.chain) && Owns(s.chain, n) && Ids(s.chain) <= Ids(p.body)
            && Embedded(g.nodes, multiset(g.edges), s.chain, s.before, s.after)
  {
    SiteInside(p.body, p.start, p.end, n);
    SiteEmbedded(g.nodes, multiset(g.edges), p.body, p.start, p.end, n);
  }

  /** The edge behind the first block of a chain. */
  lemma BehindHead(g: Schema, b: Block, src: Id, dst: Id, n: Id)
    requires IsChain(b) && Owns(b, n) && Embedded(g.nodes, multiset(g.edges), b, src, dst) && !g.nodes[n].IsSplit()
    ensures HeadEnd(b, src) == n && Edge(n, First(b.next, dst)) in g.edges
  {
    var q := ChainPort(b.next, n, dst);
    assert q.entry in EdgeBag(b, src, dst);
    assert q.entry in multiset(g.edges);
  }

  /** The way out of an anchor, in the graph and in the term. */
  lemma AnchorSite(g: Schema, p: Process, after: Id, h: Id)
    requires Flattens(g, p) && after in Ids(p.body) && !g.nodes[after].IsSplit()
    requires Outgoing(g.edges, after) == [Edge(after, h)]
    ensures var s := SiteOf(p.body, p.start, p.end, after);
            IsChain(s.chain) && !s.chain.Done? && HeadEnd(s.chain, s.before) == after && First(s.chain.next, s.after) == h
  {
    var s := SiteOf(p.body, p.start, p.end, after);
    SiteFacts(g, p, after);
    BehindHead(g, s.chain, s.before, s.after, after);
    assert Edge(after, First(s.chain.next, s.after)) in Outgoing(g.edges, after);
  }

  /** An insertion of fresh nodes turns a flattening into the flattening of the edited term. */
  lemma InsertFlattens(g: Schema, g': Schema, p: Process, after: Id, h: Id, f: Block)
    requires Flattens(g, p) && after in g.nodes && !g.nodes[after].END? && !g.nodes[after].IsSplit()
    requires IsChain(f) && Distinct(f) && Ids(f) !! g.nodes.Keys && Spliced(g, g', after, h, f)
    ensures Flattens(g', EditProcess(p, after, Insert(f)))
  {
    if after == p.start { InsertAtStart(g, g', p, h, f); } else { InsertInside(g, g', p, after, h, f); }
  }

  lemma InsertInside(g: Schema, g': Schema, p: Process, after: Id, h: Id, f: Block)
    requires Flattens(g, p) && after in Ids(p.body) && !g.nodes[after].IsSplit()
    requires IsChain(f) && Distinct(f) && Ids(f) !! g.nodes.Keys && Spliced(g, g', after, h, f)
    ensures Flattens(g', p.(body := EditAt(p.body, after, Insert(f))))
  {
    var s := SiteOf(p.body, p.start, p.end, after);
    AnchorSite(g, p, after, h);
    SiteFacts(g, p, after);
    InsertAtSite(s.chain, s.before, s.after, f);
    InsertedChain(g.nodes, g'.nodes, s.chain, f);
    BagSum(multiset(g'.edges), multiset(g.edges), SiteBag(s), EdgeBag(Apply(Insert(f), s.chain), s.before, s.after),
           multiset{Edge(after, h)}, EdgeBag(f, after, h));
    EditFlattens(g, g', p, after, Insert(f));
  }

  lemma InsertAtStart(g: Schema, g': Schema, p: Process, h: Id, f: Block)
    requires Flattens(g, p) && IsChain(f) && Distinct(f) && Ids(f) !! g.nodes.Keys && Spliced(g, g', p.start, h, f)
    ensures Flattens(g', p.(body := Append(f, p.body)))
  {
    var q := ChainPort(p.body, p.start, p.end);
    assert q.entry in multiset(g.edges);
    assert q.entry in Outgoing(g.edges, p.start);
    TypedElsewhere(g.nodes, g'.nodes, p.body);
    AppendForm(f, p.body, g'.nodes);
    AppendEdges(f, p.body, p.start, p.end);
    EntryAndInner(p.body, p.start, p.end);
    BagCancel(multiset(g'.edges), EdgeBag(Append(f, p.body), p.start, p.end), multiset{Edge(p.start, h)});
  }

  lemma InsertedChain(nodes: map<Id, NodeType>, nodes': map<Id, NodeType>, b: Block, f: Block)
    requires IsChain(b) && !b.Done? && Distinct(b) && Typed(nodes, b) && Ids(b) <= nodes.Keys
    requires IsChain(f) && Distinct(f) && Typed(nodes', f) && Ids(f) !! nodes.Keys
    requires forall n :: n in Ids(b) ==> n in nodes' && nodes'[n] == nodes[n]
    ensures FitsAt(Insert(f), b, nodes.Keys) && Ids(Apply(Insert(f), b)) == Ids(b) + Ids(f)
    ensures Typed(nodes', Apply(Insert(f), b))
  {
    TypedElsewhere(nodes, nodes', b);
    AppendForm(f, b.next, nodes');
  }

  lemma BagSum(a': multiset<Edge>, a: multiset<Edge>, b: multiset<Edge>, b': multiset<Edge>, gone: multiset<Edge>, come: multiset<Edge>)
    requires a' + gone == a + come && b' + gone == b + come
    ensures a' + b == a + b'
  {
    forall e ensures (a' + b)[e] == (a + b')[e] {
      assert (a' + gone)[e] == (a + come)[e] && (b' + gone)[e] == (b + come)[e];
    }
  }

  // --- validated insertions bring in fresh ids -------------------------------------------------

  lemma {:induction false} DegreesAtLeast(b: Block, src: Id, dst: Id, n: Id)
    requires IsChain(b) || (IsBundle(b) && b.Branch?)
    ensures OutDegree(b, src, dst, n) >= One(n == src) + One(n in Ids(b))
    ensures InDegree(b, src, dst, n) >= One(n == dst) + One(n in Ids(b))
  {
    match b
    case Done =>
    case Task(id, _, next) => DegreesAtLeast(next, id, dst, n);
    case Gateway(_, s, j, branches, next) => DegreesAtLeast(branches, s, j, n); DegreesAtLeast(next, j, dst, n);
    case Branch(body, more) =>
      DegreesAtLeast(body, src, dst, n);
      if more.Branch? { DegreesAtLeast(more, src, dst, n); }
  }

  lemma SplicedDegrees(g: Schema, g': Schema, after: Id, h: Id, f: Block, n: Id)
    requires Spliced(g, g', after, h, f)
    ensures |Outgoing(g'.edges, n)| + One(n == after) == |Outgoing(g.edges, n)| + OutDegree(f, after, h, n)
    ensures |Incoming(g'.edges, n)| + One(n == h) == |Incoming(g.edges, n)| + InDegree(f, after, h, n)
  {
    var cut, more := [Edge(after, h)], EdgeList(f, after, h);
    EdgeListBag(f, after, h);
    SameDegrees(g'.edges + cut, g.edges + more, n);
    OutgoingConcat(g'.edges, cut, n);
    OutgoingConcat(g.edges, more, n);
    IncomingConcat(g'.edges, cut, n);
    IncomingConcat(g.edges, more, n);
    ListDegrees(f, after, h, n);
  }

  /** The id counter is not checked against stored ids; the degree rule K2 refuses any collision. */
  lemma AcceptedIsFresh(g: Schema, g': Schema, p: Process, after: Id, h: Id, f: Block)
    requires Flattens(g, p) && IsChain(f) && Spliced(g, g', after, h, f) && K2(g')
    ensures Ids(f) !! g.nodes.Keys
  {
    forall n | n in Ids(f) ensures n !in g.nodes { FreshId(g, g', p, after, h, f, n); }
  }

  lemma FreshId(g: Schema, g': Schema, p: Process, after: Id, h: Id, f: Block, n: Id)
    requires Flattens(g, p) && IsChain(f) && Spliced(g, g', after, h, f) && K2(g') && n in Ids(f)
    ensures n !in g.nodes
  {
    TypedEnds(g, p);
    if n == p.start { NoSuchType(g, g', f, START, n); }
    if n == p.end { NoSuchType(g, g', f, END, n); }
    if n in Ids(p.body) { CollisionBreaksDegrees(g, g', p, after, h, f, n); }
  }

  lemma CollisionBreaksDegrees(g: Schema, g': Schema, p: Process, after: Id, h: Id, f: Block, n: Id)
    requires Flattens(g, p) && IsChain(f) && Spliced(g, g', after, h, f) && n in Ids(f) && n in Ids(p.body)
    ensures n in g'.nodes && !DegreesOk(g'.nodes[n], |Incoming(g'.edges, n)|, |Outgoing(g'.edges, n)|)
  {
    TypedInside(g'.nodes, f, n);
    SplicedDegrees(g, g', after, h, f, n);
    DegreesAtLeast(f, after, h, n);
    FlatteningDegrees(g, p, n);
    DegreesAtLeast(p.body, p.start, p.end, n);
  }

  /** Overwriting the only node of a type leaves none. */
  lemma NoSuchType(g: Schema, g': Schema, f: Block, t: NodeType, n: Id)
    requires IsChain(f) && n in Ids(f) && g'.nodes.Keys == g.nodes.Keys + Ids(f) && Typed(g'.nodes, f)
    requires forall m :: m in g.nodes && m !in Ids(f) ==> g'.nodes[m] == g.nodes[m]
    requires t.START? || t.END?
    requires forall m :: m in g.nodes ==> (g.nodes[m] == t <==> m == n)
    ensures OfType(g', t) == {}
  {
    forall m | m in g'.nodes ensures g'.nodes[m] != t {
      if m in Ids(f) { TypedInside(g'.nodes, f, m); }
    }
  }

  /** An accepted splice is the edited term, over fresh ids. */
  lemma AcceptedSplice(g: Schema, g': Schema, p: Process, after: Id, h: Id, f: Block)
    requires Flattens(g, p) && after in g.nodes && !g.nodes[after].END? && !g.nodes[after].IsSplit()
    requires IsChain(f) && Distinct(f) && Spliced(g, g', after, h, f) && K2(g')
    ensures Ids(f) !! g.nodes.Keys && Flattens(g', EditProcess(p, after, Insert(f)))
  {
    AcceptedIsFresh(g, g', p, after, h, f);
    InsertFlattens(g, g', p, after, h, f);
  }

  /** A splice of fresh ids is refused only by the branch partitions or the remaining rule families. */
  lemma FreshSplice(g: Schema, g': Schema, p: Process, after: Id, h: Id, f: Block, rest: Schema -> bool)
    requires Flattens(g, p) && after in g.nodes && !g.nodes[after].END? && !g.nodes[after].IsSplit()
    requires IsChain(f) && Distinct(f) && Spliced(g, g', after, h, f) && Ids(f) !! g.nodes.Keys
    ensures Flattens(g', EditProcess(p, after, Insert(f)))
    ensures Valid(g', rest) <==> K7(g') && rest(g')
  {
    InsertFlattens(g, g', p, after, h, f);
    FlatteningIsStructural(g', EditProcess(p, after, Insert(f)));
  }

  /** A schema with an anchor has exactly one edge to splice. */
  lemma AnchorHasOneEdge(g: Schema, p: Process, after: Id)
    requires Flattens(g, p) && after in g.nodes
    ensures |Outgoing(g.edges, after)| == 1 <==> !g.nodes[after].END? && !g.nodes[after].IsSplit()
  {
    FlatteningK2(g, p);
    assert DegreesOk(g.nodes[after], |Incoming(g.edges, after)|, |Outgoing(g.edges, after)|);
  }

  /** The refusals shared by the insertions: R0, unknown anchor, END, more than one way out. */
  method CheckAnchor(g: Schema, after: Id, ghost p: Process) returns (r: Result<Edge>)
    requires Flattens(g, p)
    ensures (r.Ok? <==> Anchor(g, after)) && r != Err(KeyMissing)
    ensures r.Ok? <==> g.lifecycle == ENTWURF && after in g.nodes && g.nodes[after] !in {END, AND_SPLIT, XOR_SPLIT}
    ensures r.Ok? ==> r.value.source == after && Outgoing(g.edges, after) == [r.value]
  {
    if !g.lifecycle.ENTWURF? { return Err(Incorrect("R0")); }
    if after !in g.nodes || g.nodes[after].END? { return Err(Incorrect("OP")); }
    AnchorHasOneEdge(g, p, after);
    var out := Outgoing(g.edges, after);
    if |out| != 1 { return Err(Incorrect("OP")); }
    return Ok(out[0]);
  }

  /** `c` is the schema that inserting the chain `f` should propose, with branch decisions `ds`. */
  ghost predicate IsInsertion(g: Schema, p: Process, after: Id, f: Block, ds: map<Id, XorDecision>, c: Schema) {
    && Flattens(c, EditProcess(p, after, Insert(f))) && c.decisions == ds
    && c.lifecycle == g.lifecycle && c.version == g.version
  }

  /** `c` is a schema an insertion proposes, as a graph: the chain `f` spliced into the edge behind the anchor. */
  ghost predicate Splices(g: Schema, after: Id, f: Block, ds: map<Id, XorDecision>, c: Schema) {
    && c.lifecycle == g.lifecycle && c.version == g.version && c.decisions == ds
    && exists h :: Spliced(g, c, after, h, f)
  }

  /**
   What an insertion promises: the candidate is committed if it is valid. An accepted one is the edited
   term, over fresh ids; with fresh ids nothing but K7 and the other rule families refuses it. The
   data-flow analysis never fails on it.
   */
  ghost predicate InsertPost(g: Schema, p: Process, after: Id, f: Block, ds: map<Id, XorDecision>, rest: Schema -> bool, r: Result<Schema>) {
    && (Anchor(g, after) ==> exists c :: Splices(g, after, f, ds, c) && r == Committed(c, rest)) && r != Err(KeyMissing)
    && (r.Ok? ==> Anchor(g, after) && Valid(r.value, rest) && Ids(f) !! g.nodes.Keys && IsInsertion(g, p, after, f, ds, r.value))
    && (r.Err? && Anchor(g, after) && Ids(f) !! g.nodes.Keys ==>
          exists c :: IsInsertion(g, p, after, f, ds, c) && !(K7(c) && rest(c)))
  }

  /** The edges of a splice join nodes that are there. */
  lemma SpliceResolves(g: Schema, c: Schema, p: Process, after: Id, h: Id, f: Block)
    requires Flattens(g, p) && IsChain(f) && Spliced(g, c, after, h, f)
    ensures Resolves(c)
  {
    EndsConnected(g, p);
    assert Edge(after, h) in g.edges;
    forall e | e in c.edges ensures e.target in c.nodes {
      assert e in multiset(c.edges) + multiset{Edge(after, h)};
      if e in EdgeBag(f, after, h) { EdgeEnds(f, after, h, e); } else { assert e in multiset(g.edges); }
    }
    JoinedResolves(c);
  }

  /** Committing a splice, or refusing it. */
  method CommitSplice(g: Schema, c: Schema, after: Id, rest: Schema -> bool, ghost p: Process, ghost h: Id, ghost f: Block,
                      ghost ds: map<Id, XorDecision>)
    returns (r: Result<Schema>)
    requires Flattens(g, p) && Anchor(g, after) && IsChain(f) && Distinct(f) && Spliced(g, c, after, h, f)
    requires c.lifecycle == g.lifecycle && c.version == g.version && c.decisions == ds
    ensures InsertPost(g, p, after, f, ds, rest, r)
  {
    r := RaiseIfInvalid(c, rest);
    if Valid(c, rest) { AcceptedSplice(g, c, p, after, h, f); }
    if Ids(f) !! g.nodes.Keys { FreshSplice(g, c, p, after, h, f, rest); }
    SpliceResolves(g, c, p, after, h, f);
    assert Splices(g, after, f, ds, c);
  }

  /** Without an anchor there is nothing to promise. */
  lemma NoAnchor(g: Schema, p: Process, after: Id, f: Block, ds: map<Id, XorDecision>, rest: Schema -> bool, r: Result<Schema>)
    requires r.Err? && r.error != KeyMissing && !Anchor(g, after)
    ensures InsertPost(g, p, after, f, ds, rest, r)
  {}

  // --- what is inserted, in terms of nodes and edges; and that K7 minds decisions only -----------

  /** `c` is `g` with the step `n` on the edge behind `after`. */
  ghost predicate StepBetween(g: Schema, c: Schema, kind: NodeType, after: Id, n: Id) {
    && c.lifecycle == g.lifecycle && c.version == g.version && c.decisions == g.decisions
    && n !in g.nodes && c.nodes == g.nodes[n := kind]
    && exists h :: Edge(after, h) in g.edges && multiset(c.edges) + multiset{Edge(after, h)} == multiset(g.edges) + multiset{Edge(after, n), Edge(n, h)}
  }

  /** `g` and `c` have the same nodes but for new ones: a split, a join and the activities `ids`. */
  predicate NodesBetween(g: Schema, c: Schema, logic: Logic, split: Id, join: Id, ids: seq<Id>) {
    && c.nodes.Keys == g.nodes.Keys + {split, join} + (set n | n in ids) && g.nodes.Keys !! {split, join} + (set n | n in ids)
    && (forall n :: n in g.nodes ==> c.nodes[n] == g.nodes[n]) && (forall n :: n in ids ==> c.nodes[n] == ACTIVITY)
    && c.nodes[split] == (if logic.AND? then AND_SPLIT else XOR_SPLIT) && c.nodes[join] == (if logic.AND? then AND_JOIN else XOR_JOIN)
  }

  /** The edges from a split to each of its branches, and from there to the join. */
  ghost function Fan(split: Id, join: Id, ids: seq<Id>): multiset<Edge> {
    multiset(seq(|ids|, i requires 0 <= i < |ids| => Edge(split, ids[i]))) + multiset(seq(|ids|, i requires 0 <= i < |ids| => Edge(ids[i], join)))
  }

  /** `c` is `g` with a gateway block on the edge behind `after` that has one activity in each branch. */
  ghost predicate BlockBetween(g: Schema, c: Schema, logic: Logic, after: Id, split: Id, join: Id, ids: seq<Id>) {
    && c.lifecycle == g.lifecycle && c.version == g.version && NodesBetween(g, c, logic, split, join, ids)
    && exists h :: Edge(after, h) in g.edges && multiset(c.edges) + multiset{Edge(after, h)}
                   == multiset(g.edges) + multiset{Edge(after, split), Edge(join, h)} + Fan(split, join, ids)
  }

  /** The answer to a candidate about which only the other rule families can complain. */
  function UpToRest(c: Schema, rest: Schema -> bool): Result<Schema> {
    if rest(c) then Ok(c) else Err(Incorrect("findings"))
  }

  /** A splice of fresh nodes behind an anchor leaves the edges of the XOR splits alone. */
  lemma SplitEdgesKept(g: Schema, c: Schema, after: Id, h: Id, f: Block)
    requires Spliced(g, c, after, h, f) && Ids(f) !! g.nodes.Keys && after in g.nodes && !g.nodes[after].IsSplit()
    ensures forall n :: n in g.nodes && g.nodes[n].XOR_SPLIT? ==> SameWaysOut(g.edges, c.edges, n)
  {
    forall n, t | n in g.nodes && g.nodes[n].XOR_SPLIT? ensures multiset(c.edges)[Edge(n, t)] == multiset(g.edges)[Edge(n, t)] {
      var e := Edge(n, t);
      if e in EdgeBag(f, after, h) { EdgeEnds(f, after, h, e); }
      assert (multiset(c.edges) + multiset{Edge(after, h)})[e] == (multiset(g.edges) + EdgeBag(f, after, h))[e];
    }
  }

  /** Without a new split K7 is as it was. */
  lemma SpliceKeepsK7(g: Schema, c: Schema, after: Id, h: Id, f: Block)
    requires Spliced(g, c, after, h, f) && Ids(f) !! g.nodes.Keys && after in g.nodes && !g.nodes[after].IsSplit()
    requires c.decisions == g.decisions && forall n :: n in Ids(f) && n in c.nodes ==> !c.nodes[n].XOR_SPLIT?
    ensures K7(c) <==> K7(g)
  {
    SplitEdgesKept(g, c, after, h, f);
    SameSplitsFit(g, c);
    K7Iff(g);
    K7Iff(c);
  }

  /** Whatever graph the chain is part of, it has no XOR split. */
  ghost predicate AddsNoXor(f: Block) {
    forall nodes: map<Id, NodeType>, n :: Typed(nodes, f) && n in Ids(f) && n in nodes ==> !nodes[n].XOR_SPLIT?
  }

  /** If K7 holds before, an insertion of fresh nodes without a new split is refused by the other rule families only. */
  lemma InsertUpToRest(g: Schema, p: Process, after: Id, f: Block, rest: Schema -> bool, r: Result<Schema>) returns (c: Schema)
    requires Flattens(g, p) && K7(g) && Anchor(g, after) && IsChain(f) && Distinct(f) && Ids(f) !! g.nodes.Keys
    requires InsertPost(g, p, after, f, g.decisions, rest, r)
    requires AddsNoXor(f)
    ensures Splices(g, after, f, g.decisions, c) && r == UpToRest(c, rest)
  {
    c :| Splices(g, after, f, g.decisions, c) && r == Committed(c, rest);
    var h :| Spliced(g, c, after, h, f);
    assert Typed(c.nodes, f);
    SpliceKeepsK7(g, c, after, h, f);
    FreshSplice(g, c, p, after, h, f, rest);
    SpliceResolves(g, c, p, after, h, f);
  }

  lemma StepIsBetween(g: Schema, c: Schema, kind: NodeType, after: Id, n: Id)
    requires kind.IsStep() && Splices(g, after, Task(n, kind, Done), g.decisions, c) && n !in g.nodes
    ensures StepBetween(g, c, kind, after, n)
  {
    var f := Task(n, kind, Done);
    var h :| Spliced(g, c, after, h, f);
    assert Ids(Done) == {} && Ids(f) == {n};
    assert c.nodes == g.nodes[n := kind];
    assert Edge(after, h) in Outgoing(g.edges, after);
    assert EdgeBag(f, after, h) == multiset{Edge(after, n)} + multiset{Edge(n, h)} == multiset{Edge(after, n), Edge(n, h)};
  }

  lemma SerialMeans(g: Schema, p: Process, kind: NodeType, after: Id, n: Id, rest: Schema -> bool, r: Result<Schema>)
    requires Flattens(g, p) && kind.IsStep() && InsertPost(g, p, after, Task(n, kind, Done), g.decisions, rest, r)
    ensures r.Ok? ==> StepBetween(g, r.value, kind, after, n)
    ensures K7(g) && Anchor(g, after) && n !in g.nodes ==> exists c :: StepBetween(g, c, kind, after, n) && r == UpToRest(c, rest)
  {
    var f := Task(n, kind, Done);
    StepForm(kind, n);
    if r.Ok? { StepIsBetween(g, r.value, kind, after, n); }
    if K7(g) && Anchor(g, after) && n !in g.nodes {
      var c := InsertUpToRest(g, p, after, f, rest, r);
      StepIsBetween(g, c, kind, after, n);
    }
  }

  /** A step spliced into the only edge behind its anchor; `kept` are the other edges. */
  lemma StepSpliced(g: Schema, c: Schema, kept: seq<Edge>, edge: Edge, kind: NodeType, n: Id)
    requires kind.IsStep() && Outgoing(g.edges, edge.source) == [edge] && multiset(kept) + multiset{edge} == multiset(g.edges)
    requires c.nodes == g.nodes[n := kind]
    requires c.edges == kept + [Edge(edge.source, n)] + [Edge(n, edge.target)]
    ensures Spliced(g, c, edge.source, edge.target, Task(n, kind, Done))
  {
    StepEdges(g.edges, c.edges, kept, edge, kind, n);
    assert edge == Edge(edge.source, edge.target);
    assert Ids(Done) == {} && Typed(c.nodes, Done);
    assert Ids(Task(n, kind, Done)) == {n} && Typed(c.nodes, Task(n, kind, Done));
  }

  lemma StepEdges(es: seq<Edge>, es': seq<Edge>, kept: seq<Edge>, edge: Edge, kind: NodeType, n: Id)
    requires multiset(kept) + multiset{edge} == multiset(es)
    requires es' == kept + [Edge(edge.source, n)] + [Edge(n, edge.target)]
    ensures multiset(es') + multiset{edge} == multiset(es) + EdgeBag(Task(n, kind, Done), edge.source, edge.target)
  {
    var before, after := multiset{Edge(edge.source, n)}, multiset{Edge(n, edge.target)};
    assert EdgeBag(Task(n, kind, Done), edge.source, edge.target) == before + after;
    assert multiset(es') == multiset(kept) + before + after;
  }

  lemma StepForm(kind: NodeType, n: Id)
    requires kind.IsStep()
    ensures IsChain(Task(n, kind, Done)) && Distinct(Task(n, kind, Done)) && Ids(Task(n, kind, Done)) == {n}
  {
    assert Ids(Done) == {};
  }

  lemma StepCandidate(g: Schema, c: Schema, edge: Edge, kind: NodeType, n: Id)
    requires kind.IsStep() && Outgoing(g.edges, edge.source) == [edge]
    requires c.nodes == g.nodes[n := kind]
    requires c.edges == RemoveEdge(g.edges, edge) + [Edge(edge.source, n)] + [Edge(n, edge.target)]
    ensures Spliced(g, c, edge.source, edge.target, Task(n, kind, Done))
    ensures IsChain(Task(n, kind, Done)) && Distinct(Task(n, kind, Done))
  {
    assert edge in Outgoing(g.edges, edge.source);
    RemoveEdgeBag(g.edges, edge);
    StepSpliced(g, c, RemoveEdge(g.edges, edge), edge, kind, n);
    StepForm(kind, n);
  }

  /** `serial_insert`, and with SUBPROCESS the control-flow part of `insert_subprocess`. */
  method SerialInsert(g: Schema, kind: NodeType, after: Id, newId: Id, rest: Schema -> bool, ghost p: Process)
    returns (r: Result<Schema>)
    requires Flattens(g, p) && kind.IsStep()
    ensures InsertPost(g, p, after, Task(newId, kind, Done), g.decisions, rest, r)
    ensures r.Ok? ==> StepBetween(g, r.value, kind, after, newId)
    ensures K7(g) && Anchor(g, after) && newId !in g.nodes ==> exists c :: StepBetween(g, c, kind, after, newId) && r == UpToRest(c, rest)
  {
    var anchor := CheckAnchor(g, after, p);
    if anchor.Err? {
      NoAnchor(g, p, after, Task(newId, kind, Done), g.decisions, rest, Err(anchor.error));
      return Err(anchor.error);
    }
    var edge := anchor.value;
    var candidate := new Candidate(g);
    candidate.nodes := candidate.nodes[newId := kind];
    candidate.edges := RemoveEdge(candidate.edges, edge);
    candidate.edges := candidate.edges + [Edge(after, newId)];
    candidate.edges := candidate.edges + [Edge(newId, edge.target)];
    StepCandidate(g, candidate.View(), edge, kind, newId);
    r := CommitSplice(g, candidate.View(), after, rest, p, edge.target, Task(newId, kind, Done), g.decisions);
    SerialMeans(g, p, kind, after, newId, rest, r);
  }

  // --- gateway blocks ---------------------------------------------------------------------------

  /** One branch per id, each holding one activity. */
  function Bundle(ids: seq<Id>): Block {
    if ids == [] then NoBranch else Branch(Task(ids[0], ACTIVITY, Done), Bundle(ids[1..]))
  }

  predicate NewIds(split: Id, join: Id, ids: seq<Id>) {
    split != join && split !in ids && join !in ids && NoRepeat(ids)
  }

  lemma {:induction false} BundleForm(ids: seq<Id>)
    requires NoRepeat(ids)
    ensures IsBundle(Bundle(ids)) && Width(Bundle(ids)) == |ids| && Distinct(Bundle(ids))
    ensures Ids(Bundle(ids)) == (set n | n in ids)
  {
    if ids != [] {
      assert ids == [ids[0]] + ids[1..];
      BundleForm(ids[1..]);
    }
  }

  lemma {:induction false} BundleTyped(ids: seq<Id>, nodes: map<Id, NodeType>)
    requires forall n :: n in ids ==> n in nodes && nodes[n].ACTIVITY?
    ensures Typed(nodes, Bundle(ids))
  {
    if ids != [] { BundleTyped(ids[1..], nodes); }
  }

  lemma {:induction false} BundleGrows(ids: seq<Id>, n: Id, s: Id, j: Id)
    ensures EdgeBag(Bundle(ids + [n]), s, j) == EdgeBag(Bundle(ids), s, j) + multiset{Edge(s, n), Edge(n, j)}
  {
    if ids == [] {
      assert ids + [n] == [n];
      assert Bundle([n]) == Branch(Task(n, ACTIVITY, Done), NoBranch);
      assert EdgeBag(Task(n, ACTIVITY, Done), s, j) == multiset{Edge(s, n), Edge(n, j)};
    } else {
      assert (ids + [n])[1..] == ids[1..] + [n];
      BundleGrows(ids[1..], n, s, j);
    }
  }

  /** The new block of an AND or XOR insertion. */
  function NewBlock(logic: Logic, split: Id, join: Id, ids: seq<Id>): Block {
    Gateway(logic, split, join, Bundle(ids), Done)
  }

  lemma NewBlockForm(logic: Logic, split: Id, join: Id, ids: seq<Id>)
    requires NewIds(split, join, ids) && |ids| >= 2
    ensures var f := NewBlock(logic, split, join, ids);
            IsChain(f) && Distinct(f) && Ids(f) == {split, join} + (set n | n in ids)
  {
    BundleForm(ids);
  }

  /** The activities added for some ids. */
  function WithActivities(nodes: map<Id, NodeType>, ids: seq<Id>): map<Id, NodeType> {
    nodes + (map n | n in ids :: ACTIVITY)
  }

  lemma OneMoreActivity(nodes: map<Id, NodeType>, ids: seq<Id>, i: nat)
    requires i < |ids|
    ensures WithActivities(nodes, ids[..i])[ids[i] := ACTIVITY] == WithActivities(nodes, ids[..i + 1])
  {
    assert ids[..i + 1] == ids[..i] + [ids[i]];
  }

  lemma OneMoreBranch(es: seq<Edge>, bag: multiset<Edge>, ids: seq<Id>, i: nat, split: Id, join: Id)
    requires i < |ids| && multiset(es) == bag + EdgeBag(Bundle(ids[..i]), split, join)
    ensures multiset(es + [Edge(split, ids[i])] + [Edge(ids[i], join)]) == bag + EdgeBag(Bundle(ids[..i + 1]), split, join)
  {
    assert ids[..i + 1] == ids[..i] + [ids[i]];
    BundleGrows(ids[..i], ids[i], split, join);
    var first, last := multiset{Edge(split, ids[i])}, multiset{Edge(ids[i], join)};
    assert multiset(es + [Edge(split, ids[i])] + [Edge(ids[i], join)]) == multiset(es) + first + last;
    assert multiset{Edge(split, ids[i]), Edge(ids[i], join)} == first + last;
  }

  /** The branch loop shared by `_insert_block` and `conditional_insert`: bodies and their edges. */
  method AddBranches(candidate: Candidate, split: Id, join: Id, ids: seq<Id>)
    modifies candidate
    ensures candidate.nodes == WithActivities(old(candidate.nodes), ids)
    ensures multiset(candidate.edges) == old(multiset(candidate.edges)) + EdgeBag(Bundle(ids), split, join)
    ensures candidate.decisions == old(candidate.decisions)
  {
    ghost var nodes, bag, decisions := candidate.nodes, multiset(candidate.edges), candidate.decisions;
    for i := 0 to |ids|
      invariant candidate.nodes == WithActivities(nodes, ids[..i])
      invariant multiset(candidate.edges) == bag + EdgeBag(Bundle(ids[..i]), split, join)
      invariant candidate.decisions == decisions
    {
      OneMoreActivity(nodes, ids, i);
      OneMoreBranch(candidate.edges, bag, ids, i, split, join);
      candidate.nodes := candidate.nodes[ids[i] := ACTIVITY];
      candidate.edges := candidate.edges + [Edge(split, ids[i])];
      candidate.edges := candidate.edges + [Edge(ids[i], join)];
    }
    assert ids[..|ids|] == ids;
  }

  lemma BlockSpliced(g: Schema, g': Schema, edge: Edge, logic: Logic, split: Id, join: Id, ids: seq<Id>)
    requires NewIds(split, join, ids) && |ids| >= 2 && Outgoing(g.edges, edge.source) == [edge]
    requires g'.nodes == WithActivities(g.nodes[split := logic.SplitType()][join := logic.JoinType()], ids)
    requires multiset(g'.edges) == multiset(RemoveEdge(g.edges, edge)) + multiset{Edge(edge.source, split)}
                                 + multiset{Edge(join, edge.target)} + EdgeBag(Bundle(ids), split, join)
    ensures Spliced(g, g', edge.source, edge.target, NewBlock(logic, split, join, ids))
  {
    var f := NewBlock(logic, split, join, ids);
    NewBlockForm(logic, split, join, ids);
    BundleTyped(ids, g'.nodes);
    BlockEdges(g.edges, g'.edges, edge, logic, split, join, ids);
    assert edge == Edge(edge.source, edge.target);
  }

  lemma BlockEdges(es: seq<Edge>, es': seq<Edge>, edge: Edge, logic: Logic, split: Id, join: Id, ids: seq<Id>)
    requires Outgoing(es, edge.source) == [edge]
    requires multiset(es') == multiset(RemoveEdge(es, edge)) + multiset{Edge(edge.source, split)}
                            + multiset{Edge(join, edge.target)} + EdgeBag(Bundle(ids), split, join)
    ensures multiset(es') + multiset{edge} == multiset(es) + EdgeBag(NewBlock(logic, split, join, ids), edge.source, edge.target)
  {
    assert edge in Outgoing(es, edge.source);
    RemoveEdgeBag(es, edge);
    var first, inner, last := multiset{Edge(edge.source, split)}, EdgeBag(Bundle(ids), split, join), multiset{Edge(join, edge.target)};
    assert EdgeBag(NewBlock(logic, split, join, ids), edge.source, edge.target) == first + inner + last;
  }

  lemma TwoMore(es: seq<Edge>, e: Edge, f: Edge)
    ensures multiset(es + [e] + [f]) == multiset(es) + multiset{e} + multiset{f}
  {}

  /** The two gateways of a new block and the edges that lead to it and away from it. */
  method AddGateways(candidate: Candidate, edge: Edge, logic: Logic, split: Id, join: Id)
    modifies candidate
    ensures candidate.nodes == old(candidate.nodes)[split := logic.SplitType()][join := logic.JoinType()]
    ensures candidate.edges == RemoveEdge(old(candidate.edges), edge) + [Edge(edge.source, split)] + [Edge(join, edge.target)]
    ensures candidate.decisions == old(candidate.decisions)
  {
    candidate.nodes := candidate.nodes[split := logic.SplitType()];
    candidate.nodes := candidate.nodes[join := logic.JoinType()];
    candidate.edges := RemoveEdge(candidate.edges, edge);
    candidate.edges := candidate.edges + [Edge(edge.source, split)];
    candidate.edges := candidate.edges + [Edge(join, edge.target)];
  }

  /** `_insert_block` up to the commit, for either kind of gateway. */
  method AddBlock(candidate: Candidate, edge: Edge, logic: Logic, split: Id, join: Id, ids: seq<Id>)
    requires edge in candidate.edges && NewIds(split, join, ids) && |ids| >= 2
    requires Outgoing(candidate.edges, edge.source) == [edge]
    modifies candidate
    ensures Spliced(old(candidate.View()), candidate.View(), edge.source, edge.target, NewBlock(logic, split, join, ids))
    ensures candidate.decisions == old(candidate.decisions)
  {
    ghost var g := candidate.View();
    AddGateways(candidate, edge, logic, split, join);
    TwoMore(RemoveEdge(g.edges, edge), Edge(edge.source, split), Edge(join, edge.target));
    AddBranches(candidate, split, join, ids);
    BlockSpliced(g, candidate.View(), edge, logic, split, join, ids);
  }

  // --- a new block, in terms of nodes and edges ------------------------------------------------

  lemma {:induction false} BundleFan(ids: seq<Id>, split: Id, join: Id)
    ensures EdgeBag(Bundle(ids), split, join) == Fan(split, join, ids)
  {
    if ids != [] {
      var init, last := ids[..|ids| - 1], ids[|ids| - 1];
      assert ids == init + [last];
      BundleFan(init, split, join);
      BundleGrows(init, last, split, join);
      FanGrows(init, last, split, join);
    }
  }

  lemma FanGrows(ids: seq<Id>, n: Id, split: Id, join: Id)
    ensures Fan(split, join, ids + [n]) == Fan(split, join, ids) + multiset{Edge(split, n), Edge(n, join)}
  {
    var more := ids + [n];
    assert seq(|more|, i requires 0 <= i < |more| => Edge(split, more[i])) == seq(|ids|, i requires 0 <= i < |ids| => Edge(split, ids[i])) + [Edge(split, n)];
    assert seq(|more|, i requires 0 <= i < |more| => Edge(more[i], join)) == seq(|ids|, i requires 0 <= i < |ids| => Edge(ids[i], join)) + [Edge(n, join)];
    assert multiset{Edge(split, n), Edge(n, join)} == multiset{Edge(split, n)} + multiset{Edge(n, join)};
  }

  lemma BundleActivities(ids: seq<Id>, nodes: map<Id, NodeType>)
    requires Typed(nodes, Bundle(ids))
    ensures forall n :: n in ids ==> n in nodes && nodes[n].ACTIVITY?
  {
    if ids != [] { BundleActivities(ids[1..], nodes); }
  }

  lemma BlockNodes(g: Schema, c: Schema, logic: Logic, split: Id, join: Id, ids: seq<Id>, after: Id, h: Id)
    requires NewIds(split, join, ids) && |ids| >= 2 && Spliced(g, c, after, h, NewBlock(logic, split, join, ids))
    requires Ids(NewBlock(logic, split, join, ids)) !! g.nodes.Keys
    ensures NodesBetween(g, c, logic, split, join, ids)
  {
    NewBlockForm(logic, split, join, ids);
    BundleActivities(ids, c.nodes);
  }

  lemma BlockIsBetween(g: Schema, c: Schema, logic: Logic, after: Id, split: Id, join: Id, ids: seq<Id>, ds: map<Id, XorDecision>)
    requires NewIds(split, join, ids) && |ids| >= 2 && Splices(g, after, NewBlock(logic, split, join, ids), ds, c)
    requires Ids(NewBlock(logic, split, join, ids)) !! g.nodes.Keys
    ensures BlockBetween(g, c, logic, after, split, join, ids)
  {
    var f := NewBlock(logic, split, join, ids);
    var h :| Spliced(g, c, after, h, f);
    BlockNodes(g, c, logic, split, join, ids, after, h);
    BundleFan(ids, split, join);
    var first, inner, last := multiset{Edge(after, split)}, EdgeBag(Bundle(ids), split, join), multiset{Edge(join, h)};
    assert EdgeBag(f, after, h) == first + inner + last;
    assert first + last == multiset{Edge(after, split), Edge(join, h)};
    assert Edge(after, h) in Outgoing(g.edges, after);
  }

  lemma AndAddsNoXor(split: Id, join: Id, ids: seq<Id>)
    requires NewIds(split, join, ids) && |ids| >= 2
    ensures AddsNoXor(NewBlock(AND, split, join, ids))
  {
    var f := NewBlock(AND, split, join, ids);
    NewBlockForm(AND, split, join, ids);
    forall nodes: map<Id, NodeType>, n | Typed(nodes, f) && n in Ids(f) && n in nodes ensures !nodes[n].XOR_SPLIT? {
      BundleActivities(ids, nodes);
    }
  }

  lemma ParallelMeans(g: Schema, p: Process, after: Id, split: Id, join: Id, ids: seq<Id>, rest: Schema -> bool, r: Result<Schema>)
    requires Flattens(g, p) && NewIds(split, join, ids) && |ids| >= 2
    requires InsertPost(g, p, after, NewBlock(AND, split, join, ids), g.decisions, rest, r)
    ensures r.Ok? ==> BlockBetween(g, r.value, AND, after, split, join, ids) && r.value.decisions == g.decisions
    ensures K7(g) && Anchor(g, after) && {split, join} + (set n | n in ids) !! g.nodes.Keys ==>
              exists c :: BlockBetween(g, c, AND, after, split, join, ids) && c.decisions == g.decisions && r == UpToRest(c, rest)
  {
    var f := NewBlock(AND, split, join, ids);
    NewBlockForm(AND, split, join, ids);
    if r.Ok? { BlockIsBetween(g, r.value, AND, after, split, join, ids, g.decisions); }
    if K7(g) && Anchor(g, after) && Ids(f) !! g.nodes.Keys {
      AndAddsNoXor(split, join, ids);
      var c := InsertUpToRest(g, p, after, f, rest, r);
      BlockIsBetween(g, c, AND, after, split, join, ids, g.decisions);
    }
  }

  /** `parallel_insert`: a balanced AND block with one activity per branch. */
  method ParallelInsert(g: Schema, after: Id, split: Id, join: Id, ids: seq<Id>, rest: Schema -> bool, ghost p: Process)
    returns (r: Result<Schema>)
    requires Flattens(g, p) && NewIds(split, join, ids)
    ensures |ids| < 2 ==> r.Err?
    ensures |ids| >= 2 ==> InsertPost(g, p, after, NewBlock(AND, split, join, ids), g.decisions, rest, r)
    ensures r.Ok? ==> BlockBetween(g, r.value, AND, after, split, join, ids) && r.value.decisions == g.decisions
    ensures |ids| >= 2 && K7(g) && Anchor(g, after) && {split, join} + (set n | n in ids) !! g.nodes.Keys ==>
              exists c :: BlockBetween(g, c, AND, after, split, join, ids) && c.decisions == g.decisions && r == UpToRest(c, rest)
  {
    if |ids| < 2 { return Err(Incorrect("OP")); }
    var anchor := CheckAnchor(g, after, p);
    if anchor.Err? {
      NoAnchor(g, p, after, NewBlock(AND, split, join, ids), g.decisions, rest, Err(anchor.error));
      return Err(anchor.error);
    }
    var edge := anchor.value;
    var candidate := new Candidate(g);
    assert edge in Outgoing(g.edges, after);
    AddBlock(candidate, edge, AND, split, join, ids);
    NewBlockForm(AND, split, join, ids);
    r := CommitSplice(g, candidate.View(), after, rest, p, edge.target, NewBlock(AND, split, join, ids), g.decisions);
    ParallelMeans(g, p, after, split, join, ids, rest, r);
  }

  /** One requested XOR branch: its partition cell, without the target the operation wires in. */
  datatype BranchSpec = BranchSpec(upper: Option<real>, boolValue: Option<bool>, values: seq<string>, isElse: bool)

  /** The branches in the order of the specs, each with the id of its activity. */
  function CellsFor(specs: seq<BranchSpec>, ids: seq<Id>): seq<XorBranch>
    requires |specs| == |ids|
  {
    seq(|specs|, i requires 0 <= i < |specs| => XorBranch(ids[i], specs[i].upper, specs[i].boolValue, specs[i].values, specs[i].isElse))
  }

  /** The i-th branch has the cell of the i-th spec and leads to the i-th id. */
  predicate WiredInOrder(specs: seq<BranchSpec>, ids: seq<Id>, bs: seq<XorBranch>)
    requires |specs| == |ids|
  {
    |bs| == |specs| && forall i :: 0 <= i < |specs| ==>
      && bs[i].target == ids[i] && bs[i].upper == specs[i].upper && bs[i].boolValue == specs[i].boolValue
      && bs[i].values == specs[i].values && bs[i].isElse == specs[i].isElse
  }

  /** The part of the branch loop about the decision. */
  method WireCells(specs: seq<BranchSpec>, ids: seq<Id>) returns (bs: seq<XorBranch>)
    requires |specs| == |ids|
    ensures bs == CellsFor(specs, ids) && WiredInOrder(specs, ids, bs)
  {
    bs := [];
    for i := 0 to |specs|
      invariant |bs| == i && forall k :: 0 <= k < i ==> bs[k] == CellsFor(specs, ids)[k]
    {
      bs := bs + [XorBranch(ids[i], specs[i].upper, specs[i].boolValue, specs[i].values, specs[i].isElse)];
    }
  }

  lemma {:induction false} IdCount(specs: seq<BranchSpec>, ids: seq<Id>, bs: seq<XorBranch>, t: Id)
    requires |specs| == |ids| && WiredInOrder(specs, ids, bs)
    ensures multiset(BranchTargets(bs))[t] == multiset(ids)[t]
  {
    BranchTargetsLength(bs);
    forall i | 0 <= i < |bs| ensures BranchTargets(bs)[i] == ids[i] { BranchTargetAt(bs, i); }
    assert BranchTargets(bs) == ids;
  }

  lemma {:induction false} FanCount(split: Id, join: Id, ids: seq<Id>, t: Id)
    requires split !in ids
    ensures EdgeBag(Bundle(ids), split, join)[Edge(split, t)] == multiset(ids)[t]
  {
    if ids != [] {
      var init, last := ids[..|ids| - 1], ids[|ids| - 1];
      assert ids == init + [last];
      FanCount(split, join, init, t);
      BundleGrows(init, last, split, join);
    }
  }

  /** The new split's edges and its decision agree. */
  lemma NewSplitFits(g: Schema, c: Schema, p: Process, after: Id, split: Id, join: Id, ids: seq<Id>, specs: seq<BranchSpec>, d: XorDecision)
    requires Flattens(g, p) && NewIds(split, join, ids) && |ids| >= 2 && |specs| == |ids| && WiredInOrder(specs, ids, d.branches)
    requires Splices(g, after, NewBlock(XOR, split, join, ids), c.decisions, c) && split !in g.nodes && after in g.nodes
    ensures Fits(c.edges, split, d) <==> Tiles(d)
  {
    forall t ensures multiset(BranchTargets(d.branches))[t] == multiset(c.edges)[Edge(split, t)] {
      IdCount(specs, ids, d.branches, t);
      NewSplitEdges(g, c, p, after, split, join, ids, t);
    }
  }

  lemma NewSplitEdges(g: Schema, c: Schema, p: Process, after: Id, split: Id, join: Id, ids: seq<Id>, t: Id)
    requires Flattens(g, p) && NewIds(split, join, ids) && |ids| >= 2
    requires Splices(g, after, NewBlock(XOR, split, join, ids), c.decisions, c) && split !in g.nodes && after in g.nodes
    ensures multiset(c.edges)[Edge(split, t)] == multiset(ids)[t]
  {
    var f, e := NewBlock(XOR, split, join, ids), Edge(split, t);
    var h :| Spliced(g, c, after, h, f);
    FanCount(split, join, ids, t);
    EndsConnected(g, p);
    assert e !in multiset(g.edges) by { if e in g.edges { EdgeSource(g, p, e); } }
    assert EdgeBag(f, after, h) == multiset{Edge(after, split)} + EdgeBag(Bundle(ids), split, join) + multiset{Edge(join, h)};
    assert (multiset(c.edges) + multiset{Edge(after, h)})[e] == (multiset(g.edges) + EdgeBag(f, after, h))[e];
  }

  lemma EdgeSource(g: Schema, p: Process, e: Edge)
    requires Flattens(g, p) && e in g.edges
    ensures e.source in g.nodes
  {
    EndsConnected(g, p);
  }

  /** `c` governs the new split by the specs, in their order, and leaves the other splits alone. */
  ghost predicate Governs(g: Schema, c: Schema, split: Id, discriminator: Id, kind: DecisionKind, specs: seq<BranchSpec>, ids: seq<Id>)
    requires |specs| == |ids|
  {
    && c.decisions.Keys == g.decisions.Keys + {split} && (forall n :: n in g.decisions && n != split ==> c.decisions[n] == g.decisions[n])
    && c.decisions[split].discriminator == discriminator && c.decisions[split].kind == kind
    && WiredInOrder(specs, ids, c.decisions[split].branches)
  }

  /** The values of the i-th cell lead to the i-th id. */
  lemma CellsLead(g: Schema, c: Schema, split: Id, discriminator: Id, kind: DecisionKind, specs: seq<BranchSpec>, ids: seq<Id>, v: Value, i: nat)
    requires |specs| == |ids| && Governs(g, c, split, discriminator, kind, specs, ids) && K7(c)
    requires i < |ids| && InCell(c.decisions[split], i, v)
    ensures ResolveTarget(c.decisions[split], v) == Some(ids[i])
  {
    var k := ResolveFindsTheCell(c.decisions[split], v);
  }

  /**
   What `conditional_insert` answers. An accepted schema has the new block, the decision gives the i-th
   new activity the i-th cell, and so the values of that cell lead to it. If K7 held before and the ids
   are fresh, the answer depends on the partition and the other rule families alone.
   */
  ghost predicate ConditionalPost(g: Schema, after: Id, split: Id, join: Id, ids: seq<Id>, discriminator: Id, kind: DecisionKind,
                                  specs: seq<BranchSpec>, rest: Schema -> bool, r: Result<Schema>)
    requires |specs| == |ids|
  {
    && (r.Ok? ==>
          && BlockBetween(g, r.value, XOR, after, split, join, ids) && Governs(g, r.value, split, discriminator, kind, specs, ids)
          && forall v, i :: 0 <= i < |ids| && InCell(r.value.decisions[split], i, v) ==> ResolveTarget(r.value.decisions[split], v) == Some(ids[i]))
    && (K7(g) && Anchor(g, after) && {split, join} + (set n | n in ids) !! g.nodes.Keys ==>
          exists c :: && BlockBetween(g, c, XOR, after, split, join, ids) && Governs(g, c, split, discriminator, kind, specs, ids)
                      && r == if Tiles(c.decisions[split]) then UpToRest(c, rest) else Err(Incorrect("findings")))
  }

  lemma AcceptedFacts(g: Schema, p: Process, after: Id, f: Block, ds: map<Id, XorDecision>, rest: Schema -> bool, r: Result<Schema>)
    requires InsertPost(g, p, after, f, ds, rest, r) && r.Ok?
    ensures Splices(g, after, f, ds, r.value) && Ids(f) !! g.nodes.Keys && K7(r.value)
  {}

  lemma DecisionGoverns(g: Schema, c: Schema, split: Id, discriminator: Id, kind: DecisionKind, specs: seq<BranchSpec>, ids: seq<Id>, d: XorDecision)
    requires |specs| == |ids| && c.decisions == g.decisions[split := d]
    requires d.discriminator == discriminator && d.kind == kind && WiredInOrder(specs, ids, d.branches)
    ensures Governs(g, c, split, discriminator, kind, specs, ids)
  {}

  lemma AllCellsLead(g: Schema, c: Schema, split: Id, discriminator: Id, kind: DecisionKind, specs: seq<BranchSpec>, ids: seq<Id>)
    requires |specs| == |ids| && Governs(g, c, split, discriminator, kind, specs, ids) && K7(c)
    ensures forall v, i :: 0 <= i < |ids| && InCell(c.decisions[split], i, v) ==> ResolveTarget(c.decisions[split], v) == Some(ids[i])
  {
    forall v, i | 0 <= i < |ids| && InCell(c.decisions[split], i, v) ensures ResolveTarget(c.decisions[split], v) == Some(ids[i]) {
      CellsLead(g, c, split, discriminator, kind, specs, ids, v, i);
    }
  }

  /** The K7 of a schema with one more XOR block. */
  lemma NewSplitK7(g: Schema, c: Schema, p: Process, after: Id, h: Id, split: Id, join: Id, ids: seq<Id>, specs: seq<BranchSpec>, d: XorDecision)
    requires Flattens(g, p) && NewIds(split, join, ids) && |ids| >= 2 && |specs| == |ids| && WiredInOrder(specs, ids, d.branches)
    requires K7(g) && Anchor(g, after) && c.decisions == g.decisions[split := d] && c.lifecycle == g.lifecycle && c.version == g.version
    requires Spliced(g, c, after, h, NewBlock(XOR, split, join, ids)) && Ids(NewBlock(XOR, split, join, ids)) !! g.nodes.Keys
    ensures K7(c) <==> Tiles(d)
  {
    NewBlockForm(XOR, split, join, ids);
    assert Splices(g, after, NewBlock(XOR, split, join, ids), c.decisions, c);
    NewSplitFits(g, c, p, after, split, join, ids, specs, d);
    SplitEdgesKept(g, c, after, h, NewBlock(XOR, split, join, ids));
    BlockNodes(g, c, XOR, split, join, ids, after, h);
    NewSplitAllFit(g, c, split, join, ids, d);
  }

  lemma NewSplitAllFit(g: Schema, c: Schema, split: Id, join: Id, ids: seq<Id>, d: XorDecision)
    requires K7(g) && c.decisions == g.decisions[split := d] && NodesBetween(g, c, XOR, split, join, ids)
    requires forall n :: n in g.nodes && g.nodes[n].XOR_SPLIT? ==> SameWaysOut(g.edges, c.edges, n)
    ensures K7(c) <==> Fits(c.edges, split, d)
  {
    OneNewSplit(g, c, split, join, ids);
    OneMoreSplitK7(g, c, split, d);
  }

  lemma OneNewSplit(g: Schema, c: Schema, split: Id, join: Id, ids: seq<Id>)
    requires NodesBetween(g, c, XOR, split, join, ids)
    ensures split !in g.nodes && forall n :: n in c.nodes && c.nodes[n].XOR_SPLIT? <==> n == split || (n in g.nodes && g.nodes[n].XOR_SPLIT?)
  {}

  lemma NewSplitUpToRest(g: Schema, p: Process, after: Id, split: Id, join: Id, ids: seq<Id>, specs: seq<BranchSpec>, d: XorDecision,
                         rest: Schema -> bool, r: Result<Schema>)
    returns (c: Schema)
    requires Flattens(g, p) && NewIds(split, join, ids) && |ids| >= 2 && |specs| == |ids| && K7(g) && Anchor(g, after)
    requires WiredInOrder(specs, ids, d.branches) && Ids(NewBlock(XOR, split, join, ids)) !! g.nodes.Keys
    requires InsertPost(g, p, after, NewBlock(XOR, split, join, ids), g.decisions[split := d], rest, r)
    ensures Splices(g, after, NewBlock(XOR, split, join, ids), g.decisions[split := d], c)
    ensures r == if Tiles(d) then UpToRest(c, rest) else Err(Incorrect("findings"))
  {
    var f, ds := NewBlock(XOR, split, join, ids), g.decisions[split := d];
    NewBlockForm(XOR, split, join, ids);
    c :| Splices(g, after, f, ds, c) && r == Committed(c, rest);
    var h :| Spliced(g, c, after, h, f);
    NewSplitK7(g, c, p, after, h, split, join, ids, specs, d);
    FreshSplice(g, c, p, after, h, f, rest);
    SpliceResolves(g, c, p, after, h, f);
  }

  lemma ConditionalMeans(g: Schema, p: Process, after: Id, split: Id, join: Id, ids: seq<Id>, discriminator: Id, kind: DecisionKind,
                         specs: seq<BranchSpec>, d: XorDecision, rest: Schema -> bool, r: Result<Schema>)
    requires Flattens(g, p) && NewIds(split, join, ids) && |ids| >= 2 && |specs| == |ids|
    requires d.discriminator == discriminator && d.kind == kind && WiredInOrder(specs, ids, d.branches)
    requires InsertPost(g, p, after, NewBlock(XOR, split, join, ids), g.decisions[split := d], rest, r)
    ensures ConditionalPost(g, after, split, join, ids, discriminator, kind, specs, rest, r)
  {
    var f, ds := NewBlock(XOR, split, join, ids), g.decisions[split := d];
    NewBlockForm(XOR, split, join, ids);
    if r.Ok? {
      AcceptedFacts(g, p, after, f, ds, rest, r);
      BlockIsBetween(g, r.value, XOR, after, split, join, ids, ds);
      DecisionGoverns(g, r.value, split, discriminator, kind, specs, ids, d);
      AllCellsLead(g, r.value, split, discriminator, kind, specs, ids);
    }
    if K7(g) && Anchor(g, after) && Ids(f) !! g.nodes.Keys {
      var c := ConditionalUpToRest(g, p, after, split, join, ids, specs, d, rest, r);
      DecisionGoverns(g, c, split, discriminator, kind, specs, ids, d);
      assert c.decisions[split] == d;
    }
  }

  lemma ConditionalUpToRest(g: Schema, p: Process, after: Id, split: Id, join: Id, ids: seq<Id>, specs: seq<BranchSpec>, d: XorDecision, rest: Schema -> bool, r: Result<Schema>)
    returns (c: Schema)
    requires Flattens(g, p) && NewIds(split, join, ids) && |ids| >= 2 && |specs| == |ids| && K7(g) && Anchor(g, after)
    requires WiredInOrder(specs, ids, d.branches) && Ids(NewBlock(XOR, split, join, ids)) !! g.nodes.Keys
    requires InsertPost(g, p, after, NewBlock(XOR, split, join, ids), g.decisions[split := d], rest, r)
    ensures BlockBetween(g, c, XOR, after, split, join, ids) && c.decisions == g.decisions[split := d]
    ensures r == if Tiles(d) then UpToRest(c, rest) else Err(Incorrect("findings"))
  {
    c := NewSplitUpToRest(g, p, after, split, join, ids, specs, d, rest, r);
    BlockIsBetween(g, c, XOR, after, split, join, ids, g.decisions[split := d]);
  }

  /**
   `conditional_insert`: a balanced XOR block governed by a decision on `discriminator`. `kinds`
   gives the partition kind of every data element whose type has one.
   */
  method ConditionalInsert(g: Schema, after: Id, split: Id, join: Id, ids: seq<Id>, discriminator: Id,
                           specs: seq<BranchSpec>, kinds: map<Id, DecisionKind>, rest: Schema -> bool, ghost p: Process)
    returns (r: Result<Schema>)
    requires Flattens(g, p) && NewIds(split, join, ids) && |specs| == |ids|
    ensures |ids| < 2 || discriminator !in kinds ==> r.Err?
    ensures |ids| >= 2 && discriminator in kinds ==>
      InsertPost(g, p, after, NewBlock(XOR, split, join, ids),
                 g.decisions[split := XorDecision(discriminator, kinds[discriminator], CellsFor(specs, ids))], rest, r)
    ensures |ids| >= 2 && discriminator in kinds ==>
      ConditionalPost(g, after, split, join, ids, discriminator, kinds[discriminator], specs, rest, r)
  {
    if |ids| < 2 { return Err(Incorrect("OP")); }
    var anchor := CheckAnchor(g, after, p);
    if discriminator !in kinds { return Err(Incorrect("OP")); }
    var cells := WireCells(specs, ids);
    var decision := XorDecision(discriminator, kinds[discriminator], cells);
    if anchor.Err? {
      NoAnchor(g, p, after, NewBlock(XOR, split, join, ids), g.decisions[split := decision], rest, Err(anchor.error));
      return Err(anchor.error);
    }
    var edge := anchor.value;
    var candidate := new Candidate(g);
    assert edge in Outgoing(g.edges, after);
    AddBlock(candidate, edge, XOR, split, join, ids);
    candidate.decisions := candidate.decisions[split := decision];
    NewBlockForm(XOR, split, join, ids);
    r := CommitSplice(g, candidate.View(), after, rest, p, edge.target, NewBlock(XOR, split, join, ids), g.decisions[split := decision]);
    ConditionalMeans(g, p, after, split, join, ids, discriminator, kinds[discriminator], specs, decision, rest, r);
  }
}

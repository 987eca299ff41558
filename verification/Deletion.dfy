/**
 `delete_node`: removing a step or a whole gateway block, dropping a branch whose only content is
 deleted, or dissolving a gateway of which one branch is left.
 */
module Deletion {
  import opened Model
  import opened Blocks
  import opened Edits
  import opened Marking
  import opened Partition
  import opened Validator
  import opened DataFlow
  import opened Structure
  import opened Decisions
  import opened Operations
  import MatchingBlock

  // --- where the edges of a part end -------------------------------------------------

  lemma InnerEnds(b: Block, dst: Id, e: Edge)
    requires e in Inner(b, dst)
    ensures e.source in Ids(b) && e.target in Ids(b) + {dst}
  {
    match b
    case Task(id, _, next) => EdgeEnds(next, id, dst, e);
    case Gateway(_, s, j, branches, next) =>
      if e in EdgeBag(branches, s, j) { EdgeEnds(branches, s, j, e); } else { EdgeEnds(next, j, dst, e); }
  }

  lemma {:induction false} CoreEnds(b: Block, e: Edge)
    requires b.Task? || b.Gateway?
    requires e in Core(b)
    ensures e.source in Ids(b) && e.target in Ids(b)
  {
    if e in HeadCore(b) {
      EdgeEnds(b.branches, b.split, b.join, e);
    } else if e != Edge(HeadEnd(b, ""), First(b.next, "")) {
      CoreEnds(b.next, e);
    }
  }

  /** Every edge of a single block touches the block. */
  lemma HeadTouches(b: Block, src: Id, h: Id, e: Edge)
    requires (b.Task? || b.Gateway?) && e in EdgeBag(Head(b), src, h)
    ensures Touches(e, Ids(Head(b)))
  {
    var end := HeadEnd(b, src);
    assert EdgeBag(Done, end, h) == multiset{Edge(end, h)};
    if b.Gateway? && e in EdgeBag(b.branches, b.split, b.join) { EdgeEnds(b.branches, b.split, b.join, e); }
  }

  lemma HeadIds(b: Block)
    requires b.Task? || b.Gateway?
    ensures Ids(b) == Ids(Head(b)) + Ids(b.next)
    ensures Distinct(b) ==> Ids(Head(b)) !! Ids(b.next)
  {
    assert Ids(Done) == {};
  }

  // --- removing a block -------------------------------------------------------------------

  /** `c` is `g` without the first block of the chain at the site of `n`, with the gap closed. */
  ghost predicate Closed(g: Schema, c: Schema, s: Site) {
    && c.nodes == g.nodes - Ids(Head(s.chain))
    && c.edges == Detached(g.edges, Ids(Head(s.chain))) + [Edge(s.before, First(Rest(s.chain), s.after))]
  }

  lemma DetachHead(g: Schema, b: Block, src: Id, dst: Id)
    requires IsChain(b) && !b.Done? && Embedded(g.nodes, multiset(g.edges), b, src, dst)
    ensures multiset(Detached(g.edges, Ids(Head(b)))) + EdgeBag(Head(b), src, First(b.next, dst)) == multiset(g.edges)
  {
    var gone, part := Ids(Head(b)), EdgeBag(Head(b), src, First(b.next, dst));
    HeadIds(b);
    HeadAndRest(b, src, dst);
    forall e ensures Touches(e, gone) ==> multiset(g.edges)[e] == part[e]
             ensures !Touches(e, gone) ==> part[e] == 0
    {
      if e in part { HeadTouches(b, src, First(b.next, dst), e); }
      if e in Inner(b.next, dst) { InnerEnds(b.next, dst, e); }
      if Touches(e, gone) {
        assert Touches(e, Ids(b));
        assert multiset(g.edges)[e] == EdgeBag(b, src, dst)[e] == part[e] + Inner(b.next, dst)[e];
      }
    }
    DetachedBag(g.edges, gone, part);
  }

  lemma RemovedForm(nodes: map<Id, NodeType>, nodes': map<Id, NodeType>, b: Block)
    requires IsChain(b) && !b.Done? && Distinct(b) && Typed(nodes, b) && nodes' == nodes - Ids(Head(b))
    ensures FitsAt(Remove, b, nodes.Keys) && Apply(Remove, b) == b.next && Typed(nodes', b.next)
    ensures nodes'.Keys == nodes.Keys - Ids(b) + Ids(b.next)
    ensures forall m :: m in nodes && m !in Ids(b) ==> nodes'[m] == nodes[m]
  {
    HeadIds(b);
    forall n | n in Ids(b) ensures n in nodes { MatchingBlock.InsideTyped(nodes, b, n); }
    TypedElsewhere(nodes, nodes', b.next);
  }

  lemma RemovedEdges(g: Schema, c: Schema, s: Site)
    requires IsChain(s.chain) && !s.chain.Done? && Embedded(g.nodes, multiset(g.edges), s.chain, s.before, s.after)
    requires Closed(g, c, s)
    ensures multiset(c.edges) + SiteBag(s) == multiset(g.edges) + EdgeBag(Apply(Remove, s.chain), s.before, s.after)
  {
    var b, h := s.chain, First(Rest(s.chain), s.after);
    DetachHead(g, b, s.before, s.after);
    RemoveAtSite(b, s.before, s.after);
    var kept := multiset(Detached(g.edges, Ids(Head(b))));
    assert multiset(c.edges) == kept + multiset{Edge(s.before, h)};
    BagSum(multiset(c.edges), multiset(g.edges), SiteBag(s), EdgeBag(Apply(Remove, b), s.before, s.after),
           EdgeBag(Head(b), s.before, h), multiset{Edge(s.before, h)});
  }

  /** Removing a block from a flattening gives the flattening of the term without it. */
  lemma RemoveFlattens(g: Schema, c: Schema, p: Process, n: Id)
    requires Flattens(g, p) && n in Ids(p.body) && Closed(g, c, SiteOf(p.body, p.start, p.end, n))
    ensures Flattens(c, p.(body := EditAt(p.body, n, Remove)))
  {
    var s := SiteOf(p.body, p.start, p.end, n);
    SiteFacts(g, p, n);
    RemovedEdges(g, c, s);
    RemovedForm(g.nodes, c.nodes, s.chain);
    EditFlattens(g, c, p, n, Remove);
  }

  // --- a branch with one step -----------------------------------------------------------------

  /** The step `n` is the only content of a branch; `q` is the gateway block of that branch. */
  ghost predicate SoleIn(p: Process, n: Id, q: Block) {
    n in Ids(p.body) &&
    var s := SiteOf(p.body, p.start, p.end, n);
    && s.chain.Task? && s.chain.next.Done? && s.before in Ids(p.body)
    && q == SiteOf(p.body, p.start, p.end, s.before).chain && q.Gateway? && q.split == s.before
  }

  lemma {:induction false} SiteEnds(b: Block, src: Id, dst: Id, n: Id)
    requires (IsChain(b) || IsBundle(b)) && n in Ids(b)
    ensures var s := SiteOf(b, src, dst, n); s.before in Ids(b) + {src} && s.after in Ids(b) + {dst}
  {
    if !Owns(b, n) {
      match b
      case Task(id, _, next) => SiteEnds(next, id, dst, n);
      case Gateway(_, s, j, branches, next) =>
        if n in Ids(branches) { SiteEnds(branches, s, j, n); } else { SiteEnds(next, j, dst, n); }
      case Branch(body, more) =>
        if n in Ids(body) { SiteEnds(body, src, dst, n); } else { SiteEnds(more, src, dst, n); }
      case _ =>
    }
  }

  /** A chain entered straight from the entry of a term is a branch of it, or all of it. */
  lemma {:induction false} SiteAtEntry(b: Block, src: Id, dst: Id, n: Id)
    requires (IsChain(b) || IsBundle(b)) && Distinct(b) && n in Ids(b) && src !in Ids(b)
    requires var s := SiteOf(b, src, dst, n); s.before == src && s.chain.Task? && s.chain.next.Done?
    ensures SiteOf(b, src, dst, n).after == dst && (IsBundle(b) ==> HasSole(b, n))
  {
    if !Owns(b, n) {
      match b
      case Task(id, _, next) => SiteEnds(next, id, dst, n);
      case Gateway(_, s, j, branches, next) =>
        if n in Ids(branches) { SiteEnds(branches, s, j, n); } else { SiteEnds(next, j, dst, n); }
      case Branch(body, more) =>
        if n in Ids(body) {
          SiteAtEntry(body, src, dst, n);
          SiteAtEntryOfChain(body, src, dst, n);
        } else {
          SiteAtEntry(more, src, dst, n);
        }
      case _ =>
    }
  }

  lemma {:induction false} SiteAtEntryOfChain(b: Block, src: Id, dst: Id, n: Id)
    requires IsChain(b) && n in Ids(b) && src !in Ids(b) && SiteOf(b, src, dst, n).before == src
    ensures SiteOf(b, src, dst, n).chain == b
  {
    if !Owns(b, n) {
      match b
      case Task(id, _, next) => SiteEnds(next, id, dst, n);
      case Gateway(_, s, j, branches, next) =>
        if n in Ids(branches) { SiteEnds(branches, s, j, n); } else { SiteEnds(next, j, dst, n); }
      case _ =>
    }
  }

  /** The gateway around a sole step ends where the branch ends. */
  lemma {:induction false} SoleParent(b: Block, src: Id, dst: Id, n: Id)
    requires (IsChain(b) || IsBundle(b)) && Distinct(b) && n in Ids(b) && src !in Ids(b) && dst !in Ids(b)
    requires var s := SiteOf(b, src, dst, n);
             && s.chain.Task? && s.chain.next.Done? && s.before in Ids(b)
             && var q := SiteOf(b, src, dst, s.before).chain; q.Gateway? && q.split == s.before
    ensures var s := SiteOf(b, src, dst, n);
            var q := SiteOf(b, src, dst, s.before).chain; q.join == s.after && HasSole(q.branches, n)
  {
    var m := SiteOf(b, src, dst, n).before;
    match b
    case Task(id, _, next) => SiteEnds(next, id, dst, n); SoleParent(next, id, dst, n);
    case Gateway(_, s, j, branches, next) =>
      if n in Ids(branches) {
        SiteEnds(branches, s, j, n);
        if m == s { SiteAtEntry(branches, s, j, n); } else { SoleParent(branches, s, j, n); }
      } else {
        SiteEnds(next, j, dst, n);
        SoleParent(next, j, dst, n);
      }
    case Branch(body, more) =>
      if n in Ids(body) {
        SiteEnds(body, src, dst, n);
        SoleParent(body, src, dst, n);
      } else {
        SiteEnds(more, src, dst, n);
        SoleParent(more, src, dst, n);
      }
    case _ =>
  }

  /** The gateway at its site: the block, and the step that is one of its branches. */
  ghost predicate SoleAt(g: Schema, q: Block, src: Id, dst: Id, n: Id) {
    && IsChain(q) && q.Gateway? && HasSole(q.branches, n)
    && Embedded(g.nodes, multiset(g.edges), q, src, dst)
  }

  /** The two edges of a branch that is a single step. */
  function SoleEdges(q: Block, n: Id): multiset<Edge>
    requires q.Gateway?
  {
    multiset{Edge(q.split, n), Edge(n, q.join)}
  }

  lemma SoleForm(g: Schema, q: Block, src: Id, dst: Id, n: Id)
    requires SoleAt(g, q, src, dst, n)
    ensures n in Ids(q.branches) && IsBundle(Without(q.branches, n)) && Distinct(Without(q.branches, n))
    ensures Ids(Without(q.branches, n)) == Ids(q.branches) - {n}
    ensures Width(Without(q.branches, n)) == Width(q.branches) - 1
    ensures Typed(g.nodes, Without(q.branches, n))
    ensures EdgeBag(Without(q.branches, n), q.split, q.join) + SoleEdges(q, n) == EdgeBag(q.branches, q.split, q.join)
  {
    WithoutForm(q.branches, n, g.nodes);
    WithoutEdges(q.branches, q.split, q.join, n);
  }

  /** Exactly the branch's two edges touch the step. */
  lemma SoleTouches(g: Schema, q: Block, src: Id, dst: Id, n: Id, e: Edge)
    requires SoleAt(g, q, src, dst, n) && Touches(e, {n})
    ensures multiset(g.edges)[e] == SoleEdges(q, n)[e]
  {
    SoleForm(g, q, src, dst, n);
    EmbeddedGateway(g.nodes, multiset(g.edges), q, src, dst);
    assert Touches(e, Ids(q.branches));
    var others := EdgeBag(Without(q.branches, n), q.split, q.join);
    if e in others { EdgeEnds(Without(q.branches, n), q.split, q.join, e); }
    assert EdgeBag(q.branches, q.split, q.join)[e] == others[e] + SoleEdges(q, n)[e];
  }

  lemma DetachSole(g: Schema, q: Block, src: Id, dst: Id, n: Id)
    requires SoleAt(g, q, src, dst, n)
    ensures multiset(Detached(g.edges, {n})) + SoleEdges(q, n) == multiset(g.edges)
  {
    forall e | Touches(e, {n}) ensures multiset(g.edges)[e] == SoleEdges(q, n)[e] { SoleTouches(g, q, src, dst, n, e); }
    DetachedBag(g.edges, {n}, SoleEdges(q, n));
  }

  /** Dropping the branch of a gateway that keeps at least two. */
  lemma DropFlattens(g: Schema, c: Schema, p: Process, n: Id, q: Block)
    requires Flattens(g, p) && SoleIn(p, n, q) && Width(q.branches) >= 3
    requires c.nodes == g.nodes - {n} && c.edges == Detached(g.edges, {n})
    ensures Flattens(c, p.(body := EditAt(p.body, q.split, DropBranch(n))))
  {
    var s := SiteOf(p.body, p.start, p.end, q.split);
    SoleIsAt(g, p, n, q);
    DropEditsTo(g, c, s, n);
    EditFlattens(g, c, p, q.split, DropBranch(n));
  }

  lemma DropEditsTo(g: Schema, c: Schema, s: Site, n: Id)
    requires SoleAt(g, s.chain, s.before, s.after, n) && Width(s.chain.branches) >= 3
    requires c.nodes == g.nodes - {n} && c.edges == Detached(g.edges, {n})
    ensures EditsTo(g, c, s, DropBranch(n))
  {
    DetachSole(g, s.chain, s.before, s.after, n);
    DropForm(g, c, s.chain, s.before, s.after, n);
    DropEdges(g, c, s.chain, s.before, s.after, n);
    OneLess(g.nodes, c.nodes, Ids(s.chain), Ids(Apply(DropBranch(n), s.chain)), n);
  }

  lemma OneLess(nodes: map<Id, NodeType>, nodes': map<Id, NodeType>, ids: set<Id>, ids': set<Id>, n: Id)
    requires nodes' == nodes - {n} && n in ids && ids <= nodes.Keys && ids' == ids - {n}
    ensures nodes'.Keys == nodes.Keys - ids + ids' && forall m :: m in nodes && m !in ids ==> nodes'[m] == nodes[m]
  {}

  lemma SoleIsAt(g: Schema, p: Process, n: Id, q: Block)
    requires Flattens(g, p) && SoleIn(p, n, q)
    ensures var s := SiteOf(p.body, p.start, p.end, q.split);
            s.chain == q && SoleAt(g, q, s.before, s.after, n) && Ids(q) <= Ids(p.body)
    ensures SiteOf(p.body, p.start, p.end, n).after == q.join
  {
    SiteFacts(g, p, q.split);
    SoleParent(p.body, p.start, p.end, n);
  }

  lemma DropForm(g: Schema, c: Schema, q: Block, src: Id, dst: Id, n: Id)
    requires SoleAt(g, q, src, dst, n) && Width(q.branches) >= 3 && c.nodes == g.nodes - {n}
    ensures var d := Apply(DropBranch(n), q);
            && FitsAt(DropBranch(n), q, g.nodes.Keys) && Typed(c.nodes, d)
            && Ids(d) == Ids(q) - {n} && n in Ids(q) && Ids(q) <= g.nodes.Keys
  {
    SoleForm(g, q, src, dst, n);
    forall m | m in Ids(q) ensures m in g.nodes { MatchingBlock.InsideTyped(g.nodes, q, m); }
    DropTyped(g.nodes, c.nodes, q, n);
    assert Ids(Apply(DropBranch(n), q)) == Ids(q) - {n};
  }

  lemma DropTyped(nodes: map<Id, NodeType>, nodes': map<Id, NodeType>, q: Block, n: Id)
    requires q.Gateway? && Distinct(q) && Typed(nodes, q) && Ids(q) <= nodes.Keys && n in Ids(q.branches)
    requires nodes' == nodes - {n} && Typed(nodes, Without(q.branches, n)) && Ids(Without(q.branches, n)) == Ids(q.branches) - {n}
    ensures Typed(nodes', Apply(DropBranch(n), q))
  {
    TypedElsewhere(nodes, nodes', Without(q.branches, n));
    TypedElsewhere(nodes, nodes', q.next);
  }

  lemma DropEdges(g: Schema, c: Schema, q: Block, src: Id, dst: Id, n: Id)
    requires SoleAt(g, q, src, dst, n) && multiset(c.edges) + SoleEdges(q, n) == multiset(g.edges)
    ensures multiset(c.edges) + EdgeBag(q, src, dst) == multiset(g.edges) + EdgeBag(Apply(DropBranch(n), q), src, dst)
  {
    SoleForm(g, q, src, dst, n);
    BagDrop(multiset(c.edges), multiset(g.edges), EdgeBag(q, src, dst), EdgeBag(Apply(DropBranch(n), q), src, dst),
            multiset{Edge(src, q.split)}, EdgeBag(q.branches, q.split, q.join), EdgeBag(Without(q.branches, n), q.split, q.join),
            EdgeBag(q.next, q.join, dst), SoleEdges(q, n));
  }

  lemma BagDrop(c: multiset<Edge>, g: multiset<Edge>, before: multiset<Edge>, after: multiset<Edge>, first: multiset<Edge>,
                branches: multiset<Edge>, left: multiset<Edge>, rest: multiset<Edge>, sole: multiset<Edge>)
    requires c + sole == g && left + sole == branches && before == first + branches + rest && after == first + left + rest
    ensures c + before == g + after
  {}

  // --- dissolving a gateway -------------------------------------------------------------------

  /** The branch that is left when the sole step `n` goes and the gateway has two branches. */
  function Survivor(q: Block, n: Id): Block
    requires q.Gateway?
  {
    var left := Without(q.branches, n);
    if left.Branch? then left.body else Done
  }

  /** The edges the dissolved gateway loses, and the two that splice the surviving branch in. */
  function LostEdges(q: Block, src: Id, h: Id, n: Id): multiset<Edge>
    requires q.Gateway?
  {
    var b := Survivor(q, n);
    SoleEdges(q, n) + multiset{Edge(src, q.split)} + multiset{Edge(q.split, First(b, q.join))}
    + multiset{Edge(Last(b, q.split), q.join)} + multiset{Edge(q.join, h)}
  }

  function SpliceEdges(q: Block, src: Id, h: Id, n: Id): multiset<Edge>
    requires q.Gateway?
  {
    var b := Survivor(q, n);
    multiset{Edge(src, First(b, q.join))} + multiset{Edge(Last(b, q.split), h)}
  }

  lemma TwoLeft(g: Schema, q: Block, src: Id, dst: Id, n: Id)
    requires SoleAt(g, q, src, dst, n) && Width(q.branches) == 2
    ensures Without(q.branches, n) == Branch(Survivor(q, n), NoBranch) && IsChain(Survivor(q, n))
    ensures Distinct(Survivor(q, n)) && Ids(Survivor(q, n)) == Ids(q.branches) - {n} && Typed(g.nodes, Survivor(q, n))
    ensures EdgeBag(Survivor(q, n), q.split, q.join) + SoleEdges(q, n) == EdgeBag(q.branches, q.split, q.join)
  {
    SoleForm(g, q, src, dst, n);
    var left := Without(q.branches, n);
    assert left.more == NoBranch;
    assert Ids(NoBranch) == {} && EdgeBag(NoBranch, q.split, q.join) == multiset{};
  }

  /** A non-empty branch enters and leaves through its own nodes. */
  lemma PortsOfChain(b: Block, src: Id, dst: Id, src': Id, dst': Id)
    requires IsChain(b) && !b.Done?
    ensures First(b, dst) == First(b, dst') && Last(b, src) == Last(b, src')
    ensures First(b, dst) in Ids(b) && Last(b, src) in Ids(b)
  {
    if !b.next.Done? { PortsOfChain(b.next, HeadEnd(b, src), dst, HeadEnd(b, src'), dst'); }
  }

  /** The dissolved block keeps the inside of the surviving branch and what follows. */
  lemma DissolveEdges(g: Schema, q: Block, src: Id, dst: Id, n: Id)
    requires SoleAt(g, q, src, dst, n) && Width(q.branches) == 2 && IsChain(Survivor(q, n)) && !Survivor(q, n).Done?
    ensures var h, kept := First(q.next, dst), Core(Survivor(q, n)) + Inner(q.next, dst);
            && EdgeBag(q, src, dst) == LostEdges(q, src, h, n) + kept
            && EdgeBag(Apply(Dissolve(n), q), src, dst) == SpliceEdges(q, src, h, n) + kept
  {
    TwoLeft(g, q, src, dst, n);
    DissolveBefore(q, src, dst, n);
    DissolveAfter(q, src, dst, n);
  }

  lemma DissolveBefore(q: Block, src: Id, dst: Id, n: Id)
    requires IsChain(q) && q.Gateway? && IsChain(Survivor(q, n)) && !Survivor(q, n).Done?
    requires EdgeBag(Survivor(q, n), q.split, q.join) + SoleEdges(q, n) == EdgeBag(q.branches, q.split, q.join)
    ensures EdgeBag(q, src, dst) == LostEdges(q, src, First(q.next, dst), n) + (Core(Survivor(q, n)) + Inner(q.next, dst))
  {
    var b, h := Survivor(q, n), First(q.next, dst);
    EntryCoreExit(b, q.split, q.join);
    EntryAndInner(q.next, q.join, dst);
    var first, last := multiset{Edge(src, q.split)}, multiset{Edge(q.join, h)};
    var entry, exit := multiset{Edge(q.split, First(b, q.join))}, multiset{Edge(Last(b, q.split), q.join)};
    BagDissolve(EdgeBag(q, src, dst), first, EdgeBag(q.branches, q.split, q.join), EdgeBag(q.next, q.join, dst),
                EdgeBag(b, q.split, q.join), SoleEdges(q, n), entry, Core(b), exit, last, Inner(q.next, dst), LostEdges(q, src, h, n));
  }

  lemma BagDissolve(whole: multiset<Edge>, first: multiset<Edge>, branches: multiset<Edge>, rest: multiset<Edge>,
                    body: multiset<Edge>, sole: multiset<Edge>, entry: multiset<Edge>, core: multiset<Edge>, exit: multiset<Edge>,
                    last: multiset<Edge>, inner: multiset<Edge>, lost: multiset<Edge>)
    requires whole == first + branches + rest && body + sole == branches && body == entry + core + exit
    requires rest == last + inner && lost == sole + first + entry + exit + last
    ensures whole == lost + (core + inner)
  {}

  lemma DissolveAfter(q: Block, src: Id, dst: Id, n: Id)
    requires IsChain(q) && q.Gateway? && IsChain(Survivor(q, n)) && !Survivor(q, n).Done?
    requires Without(q.branches, n).Branch?
    ensures EdgeBag(Apply(Dissolve(n), q), src, dst)
         == SpliceEdges(q, src, First(q.next, dst), n) + (Core(Survivor(q, n)) + Inner(q.next, dst))
  {
    var b, h := Survivor(q, n), First(q.next, dst);
    PortsOfChain(b, q.split, q.join, src, h);
    EntryCoreExit(b, src, h);
    AppendEdges(b, q.next, src, dst);
  }

  /** What is kept lies within the surviving branch and behind the join. */
  lemma KeptAway(q: Block, b: Block, dst: Id, n: Id, e: Edge)
    requires q.Gateway? && Distinct(q) && (b.Task? || b.Gateway?) && Ids(b) == Ids(q.branches) - {n} && n in Ids(q.branches)
    requires dst !in Ids(q) && e in Core(b) + Inner(q.next, dst)
    ensures !Touches(e, {n, q.split, q.join})
  {
    if e in Core(b) { CoreEnds(b, e); } else { InnerEnds(q.next, dst, e); }
  }

  /** The lost edges each touch a node that goes. */
  lemma LostTouch(q: Block, src: Id, h: Id, n: Id, e: Edge)
    requires q.Gateway? && e in LostEdges(q, src, h, n)
    ensures Touches(e, {n, q.split, q.join})
  {}

  /** Exactly the lost edges touch the nodes a dissolved gateway loses. */
  lemma LostTouches(g: Schema, q: Block, src: Id, dst: Id, n: Id, e: Edge)
    requires SoleAt(g, q, src, dst, n) && Width(q.branches) == 2 && IsChain(Survivor(q, n)) && !Survivor(q, n).Done?
    ensures Touches(e, {n, q.split, q.join}) ==> multiset(g.edges)[e] == LostEdges(q, src, First(q.next, dst), n)[e]
    ensures !Touches(e, {n, q.split, q.join}) ==> LostEdges(q, src, First(q.next, dst), n)[e] == 0
  {
    var b, h := Survivor(q, n), First(q.next, dst);
    if e in LostEdges(q, src, h, n) { LostTouch(q, src, h, n, e); }
    if Touches(e, {n, q.split, q.join}) {
      SoleForm(g, q, src, dst, n);
      TwoLeft(g, q, src, dst, n);
      if e in Core(b) + Inner(q.next, dst) { KeptAway(q, b, dst, n, e); }
      LostCount(g, q, src, dst, n, e);
    }
  }

  lemma LostCount(g: Schema, q: Block, src: Id, dst: Id, n: Id, e: Edge)
    requires SoleAt(g, q, src, dst, n) && Width(q.branches) == 2 && IsChain(Survivor(q, n)) && !Survivor(q, n).Done?
    requires e !in Core(Survivor(q, n)) + Inner(q.next, dst) && Touches(e, Ids(q))
    ensures multiset(g.edges)[e] == LostEdges(q, src, First(q.next, dst), n)[e]
  {
    DissolveEdges(g, q, src, dst, n);
    assert multiset(g.edges)[e] == EdgeBag(q, src, dst)[e];
  }

  lemma {:induction false} DetachedTwice(es: seq<Edge>, a: set<Id>, b: set<Id>)
    ensures Detached(Detached(es, a), b) == Detached(es, a + b)
  {
    if es != [] {
      DetachedTwice(es[1..], a, b);
      var kept := Detached(es[1..], a);
      if Touches(es[0], a) {
        assert Detached(es, a) == kept;
      } else {
        var longer := [es[0]] + kept;
        assert Detached(es, a) == longer && longer[1..] == kept && longer[0] == es[0];
        assert Detached(longer, b) == (if Touches(es[0], b) then [] else [es[0]]) + Detached(kept, b);
      }
    }
  }

  lemma DetachLost(g: Schema, q: Block, src: Id, dst: Id, n: Id)
    requires SoleAt(g, q, src, dst, n) && Width(q.branches) == 2 && IsChain(Survivor(q, n)) && !Survivor(q, n).Done?
    ensures multiset(Detached(Detached(g.edges, {n}), {q.split, q.join})) + LostEdges(q, src, First(q.next, dst), n)
         == multiset(g.edges)
  {
    var gone, lost := {n, q.split, q.join}, LostEdges(q, src, First(q.next, dst), n);
    DetachedTwice(g.edges, {n}, {q.split, q.join});
    assert {n} + {q.split, q.join} == gone;
    forall e ensures Touches(e, gone) ==> multiset(g.edges)[e] == lost[e]
             ensures !Touches(e, gone) ==> lost[e] == 0
    { LostTouches(g, q, src, dst, n, e); }
    DetachedBag(g.edges, gone, lost);
  }

  lemma DissolveForm(g: Schema, c: Schema, q: Block, src: Id, dst: Id, n: Id)
    requires SoleAt(g, q, src, dst, n) && Width(q.branches) == 2 && c.nodes == g.nodes - {n, q.split, q.join}
    ensures var d := Apply(Dissolve(n), q);
            && FitsAt(Dissolve(n), q, g.nodes.Keys) && Typed(c.nodes, d)
            && Ids(d) == Ids(q) - {n, q.split, q.join} && {n, q.split, q.join} <= Ids(q) && Ids(q) <= g.nodes.Keys
  {
    TwoLeft(g, q, src, dst, n);
    SoleForm(g, q, src, dst, n);
    forall m | m in Ids(q) ensures m in g.nodes { MatchingBlock.InsideTyped(g.nodes, q, m); }
    DissolvedChain(g.nodes, c.nodes, q, Survivor(q, n), n);
    assert Apply(Dissolve(n), q) == Append(Survivor(q, n), q.next);
  }

  lemma DissolvedChain(nodes: map<Id, NodeType>, nodes': map<Id, NodeType>, q: Block, b: Block, n: Id)
    requires q.Gateway? && IsChain(q) && Distinct(q) && Typed(nodes, q) && Ids(q) <= nodes.Keys && n in Ids(q.branches)
    requires IsChain(b) && Distinct(b) && Typed(nodes, b) && Ids(b) == Ids(q.branches) - {n}
    requires nodes' == nodes - {n, q.split, q.join}
    ensures var d := Append(b, q.next);
            IsChain(d) && Distinct(d) && Typed(nodes', d) && Ids(d) == Ids(q) - {n, q.split, q.join}
  {
    TypedElsewhere(nodes, nodes', b);
    TypedElsewhere(nodes, nodes', q.next);
    AppendForm(b, q.next, nodes');
    assert Ids(q) == {q.split, q.join} + Ids(q.branches) + Ids(q.next);
  }

  lemma DissolveBags(g: Schema, c: Schema, s: Site, n: Id)
    requires SoleAt(g, s.chain, s.before, s.after, n) && Width(s.chain.branches) == 2
    requires IsChain(Survivor(s.chain, n)) && !Survivor(s.chain, n).Done?
    requires multiset(c.edges) == multiset(Detached(Detached(g.edges, {n}), {s.chain.split, s.chain.join}))
                                + SpliceEdges(s.chain, s.before, First(s.chain.next, s.after), n)
    ensures multiset(c.edges) + SiteBag(s) == multiset(g.edges) + EdgeBag(Apply(Dissolve(n), s.chain), s.before, s.after)
  {
    var q, src, h := s.chain, s.before, First(s.chain.next, s.after);
    DetachLost(g, q, src, s.after, n);
    DissolveEdges(g, q, src, s.after, n);
    BagSwap(multiset(c.edges), multiset(g.edges), SiteBag(s), EdgeBag(Apply(Dissolve(n), q), src, s.after),
            multiset(Detached(Detached(g.edges, {n}), {q.split, q.join})), LostEdges(q, src, h, n), SpliceEdges(q, src, h, n),
            Core(Survivor(q, n)) + Inner(q.next, s.after));
  }

  lemma BagSwap(c: multiset<Edge>, g: multiset<Edge>, before: multiset<Edge>, after: multiset<Edge>, rest: multiset<Edge>,
                lost: multiset<Edge>, spliced: multiset<Edge>, kept: multiset<Edge>)
    requires c == rest + spliced && rest + lost == g && before == lost + kept && after == spliced + kept
    ensures c + before == g + after
  {}

  lemma DissolveEditsTo(g: Schema, c: Schema, s: Site, n: Id)
    requires SoleAt(g, s.chain, s.before, s.after, n) && Width(s.chain.branches) == 2
    requires IsChain(Survivor(s.chain, n)) && !Survivor(s.chain, n).Done?
    requires c.nodes == g.nodes - {n, s.chain.split, s.chain.join}
    requires multiset(c.edges) == multiset(Detached(Detached(g.edges, {n}), {s.chain.split, s.chain.join}))
                                + SpliceEdges(s.chain, s.before, First(s.chain.next, s.after), n)
    ensures EditsTo(g, c, s, Dissolve(n))
  {
    DissolveForm(g, c, s.chain, s.before, s.after, n);
    DissolveBags(g, c, s, n);
  }

  /** Dissolving a gateway whose other branch is not empty keeps that branch inline. */
  lemma DissolveFlattens(g: Schema, c: Schema, p: Process, n: Id, q: Block)
    requires Flattens(g, p) && SoleIn(p, n, q) && Width(q.branches) == 2 && !Survivor(q, n).Done?
    requires var s := SiteOf(p.body, p.start, p.end, q.split);
             && c.nodes == g.nodes - {n, q.split, q.join}
             && multiset(c.edges) == multiset(Detached(Detached(g.edges, {n}), {q.split, q.join}))
                                   + SpliceEdges(q, s.before, First(Rest(q), s.after), n)
    ensures Flattens(c, p.(body := EditAt(p.body, q.split, Dissolve(n))))
  {
    var s := SiteOf(p.body, p.start, p.end, q.split);
    SoleIsAt(g, p, n, q);
    TwoLeft(g, q, s.before, s.after, n);
    DissolveEditsTo(g, c, s, n);
    EditFlattens(g, c, p, q.split, Dissolve(n));
  }

  /** What dissolving the gateway at the site `s` leaves if its other branch is empty: both new edges miss a node. */
  ghost predicate IsRemnant(g: Schema, q: Block, src: Id, dst: Id, n: Id, c: Schema)
    requires q.Gateway?
  {
    && c.nodes == g.nodes - {n, q.split, q.join}
    && c.edges == Detached(Detached(g.edges, {n}), {q.split, q.join}) + [Edge(src, q.join)] + [Edge(q.split, First(q.next, dst))]
  }

  /** The edges of the remnant. */
  lemma RemnantEdge(g: Schema, q: Block, src: Id, dst: Id, n: Id, c: Schema, e: Edge)
    requires q.Gateway? && IsRemnant(g, q, src, dst, n, c)
    ensures e in c.edges <==> (e in g.edges && !Touches(e, {n, q.split, q.join}))
                              || e == Edge(src, q.join) || e == Edge(q.split, First(q.next, dst))
  {
    DetachedIn(g.edges, {n}, e);
    DetachedIn(Detached(g.edges, {n}), {q.split, q.join}, e);
  }

  /** Nothing around the gateway is one of the nodes that go. */
  lemma AroundRemnant(g: Schema, q: Block, src: Id, dst: Id, n: Id)
    requires SoleAt(g, q, src, dst, n)
    ensures src !in {n, q.split, q.join} && First(q.next, dst) !in {n, q.split, q.join}
    ensures Edge(src, q.split) in g.edges && Edge(q.join, First(q.next, dst)) in g.edges
    ensures Edge(q.split, n) in g.edges && Edge(n, q.join) in g.edges
  {
    SoleAway(g, q, src, dst, n);
    AroundHead(g, q, src, dst);
    DetachSole(g, q, src, dst, n);
    assert Edge(q.split, n) in multiset(g.edges) && Edge(n, q.join) in multiset(g.edges);
    FirstAway(q, dst);
  }

  lemma FirstAway(q: Block, dst: Id)
    requires q.Gateway? && Distinct(q) && dst !in Ids(q)
    ensures First(q.next, dst) != q.split && First(q.next, dst) != q.join
  {
    assert First(q.next, dst) in Ids(q.next) + {dst};
  }

  /** Up to the gateway the topological order of the remnant is that of the schema. */
  lemma {:induction false} ComesBefore(g: Schema, rank: map<Id, nat>, q: Block, src: Id, dst: Id, n: Id, c: Schema, m: Id)
    requires Ranked(g, rank) && SoleAt(g, q, src, dst, n) && IsRemnant(g, q, src, dst, n, c)
    requires m in c.nodes && q.split in rank && rank[m] < rank[q.split]
    ensures ComesWithin(c, m, rank[m])
    decreases rank[m]
  {
    AroundRemnant(g, q, src, dst, n);
    forall e | e in c.edges && e.target == m ensures rank[m] > 0 && ComesWithin(c, e.source, rank[m] - 1) {
      RemnantEdge(g, q, src, dst, n, c, e);
      ComesBefore(g, rank, q, src, dst, n, c, e.source);
      ComesLater(c, e.source, rank[e.source], rank[m] - 1);
    }
  }

  /** The data-flow analysis runs into the join that is gone. */
  lemma RemnantFails(g: Schema, p: Process, n: Id, q: Block, c: Schema)
    requires Flattens(g, p) && SoleIn(p, n, q)
    requires var s := SiteOf(p.body, p.start, p.end, q.split); IsRemnant(g, q, s.before, s.after, n, c)
    ensures !Resolves(c)
  {
    var s := SiteOf(p.body, p.start, p.end, q.split);
    SoleIsAt(g, p, n, q);
    FlatteningIsAcyclic(g, p);
    var rank :| Ranked(g, rank);
    JoinComes(g, rank, q, s.before, s.after, n, c);
    MissingIsMet(c, q.join);
  }

  lemma JoinComes(g: Schema, rank: map<Id, nat>, q: Block, src: Id, dst: Id, n: Id, c: Schema)
    requires Ranked(g, rank) && SoleAt(g, q, src, dst, n) && IsRemnant(g, q, src, dst, n, c)
    ensures Comes(c, q.join)
  {
    AroundRemnant(g, q, src, dst, n);
    ComesBefore(g, rank, q, src, dst, n, c, src);
    forall e | e in c.edges && e.target == q.join ensures e == Edge(src, q.join) { RemnantEdge(g, q, src, dst, n, c, e); }
    RemnantEdge(g, q, src, dst, n, c, Edge(src, q.join));
    assert ComesWithin(c, q.join, rank[src] + 1);
  }

  /** A graph with an edge to a missing node flattens no term. */
  lemma DissolveEmptyFails(c: Schema, e: Edge)
    requires e in c.edges && e.target !in c.nodes
    ensures !exists p :: Flattens(c, p)
  {
    forall p ensures !Flattens(c, p) {
      if Flattens(c, p) {
        EndsConnected(c, p);
        TypedEnds(c, p);
      }
    }
  }

  // --- the operation -------------------------------------------------------------------------

  /** What may be deleted: a step or a split of an editable schema. */
  ghost predicate Deletable(g: Schema, n: Id) {
    g.lifecycle.ENTWURF? && n in g.nodes && (g.nodes[n].IsStep() || g.nodes[n].IsSplit())
  }

  /** The block at the node before `n`: the gateway, if `n` is the sole content of one of its branches. */
  function SoleBlock(p: Process, n: Id): Block {
    SiteOf(p.body, p.start, p.end, SiteOf(p.body, p.start, p.end, n).before).chain
  }

  ghost predicate Sole(p: Process, n: Id) {
    SoleIn(p, n, SoleBlock(p, n))
  }

  /** The term edit that a deletion amounts to. */
  ghost function Deleted(p: Process, n: Id): Process {
    p.(body :=
      if !Sole(p, n) then EditAt(p.body, n, Remove)
      else if Width(SoleBlock(p, n).branches) > 2 then EditAt(p.body, SoleBlock(p, n).split, DropBranch(n))
      else EditAt(p.body, SoleBlock(p, n).split, Dissolve(n)))
  }

  /** The corner case: the gateway dissolves, and the branch that is left is empty. */
  ghost predicate LeavesNothing(p: Process, n: Id) {
    Sole(p, n) && Width(SoleBlock(p, n).branches) == 2 && Survivor(SoleBlock(p, n), n).Done?
  }

  function WithoutTarget(bs: seq<XorBranch>, n: Id): seq<XorBranch> {
    if bs == [] then [] else (if bs[0].target == n then [] else [bs[0]]) + WithoutTarget(bs[1..], n)
  }

  /** The branch decisions after a deletion: those of removed splits go, a dropped branch loses its cell. */
  ghost function DecisionsAfter(g: Schema, p: Process, n: Id): map<Id, XorDecision> {
    if !Sole(p, n) then g.decisions - Ids(Head(SiteOf(p.body, p.start, p.end, n).chain))
    else
      var q := SoleBlock(p, n);
      if Width(q.branches) == 2 then g.decisions - {n, q.split, q.join}
      else CellDropped(g.decisions, q.split, n) - {n}
  }

  function CellDropped(ds: map<Id, XorDecision>, split: Id, n: Id): map<Id, XorDecision> {
    if split in ds then ds[split := ds[split].(branches := WithoutTarget(ds[split].branches, n))] else ds
  }

  /** The term after the deletion, for the schema that a deletion should propose. */
  ghost predicate IsDeletion(g: Schema, p: Process, n: Id, c: Schema) {
    && Flattens(c, Deleted(p, n)) && c.decisions == DecisionsAfter(g, p, n)
    && c.lifecycle == g.lifecycle && c.version == g.version
  }

  /** The candidate without the first block of the chain at `s`. */
  ghost function BlockRemoved(g: Schema, s: Site): Schema {
    var gone := Ids(Head(s.chain));
    g.(nodes := g.nodes - gone, decisions := g.decisions - gone,
       edges := Detached(g.edges, gone) + [Edge(s.before, First(Rest(s.chain), s.after))])
  }

  /** The candidate without one of at least three branches. */
  function BranchDropped(g: Schema, split: Id, n: Id): Schema {
    g.(nodes := g.nodes - {n}, edges := Detached(g.edges, {n}), decisions := CellDropped(g.decisions, split, n) - {n})
  }

  /** The candidate with the gateway `q` at the site `s` dissolved. */
  function GatewayDissolved(g: Schema, q: Block, s: Site, n: Id): Schema
    requires q.Gateway?
  {
    g.(nodes := g.nodes - {n, q.split, q.join}, decisions := g.decisions - {n, q.split, q.join},
       edges := Detached(Detached(g.edges, {n}), {q.split, q.join})
                + [Edge(s.before, First(Survivor(q, n), q.join))]
                + [Edge(Last(Survivor(q, n), q.split), First(Rest(q), s.after))])
  }

  /** The schema a deletion proposes, as a graph. */
  ghost function DeletionCandidate(g: Schema, p: Process, n: Id): Schema {
    var q := SoleBlock(p, n);
    if !Sole(p, n) then BlockRemoved(g, SiteOf(p.body, p.start, p.end, n))
    else if Width(q.branches) > 2 then BranchDropped(g, q.split, n)
    else GatewayDissolved(g, q, SiteOf(p.body, p.start, p.end, q.split), n)
  }

  /**
   What a deletion promises: the candidate is committed if it is valid. An accepted one is the edited
   term. The data-flow analysis fails on the candidate in the corner case and in no other; otherwise
   nothing but K7 and the other rule families refuses it.
   */
  ghost predicate DeletePost(g: Schema, p: Process, n: Id, rest: Schema -> bool, r: Result<Schema>) {
    && (Deletable(g, n) ==> r == Committed(DeletionCandidate(g, p, n), rest))
    && (r.Ok? ==> Deletable(g, n) && Valid(r.value, rest) && IsDeletion(g, p, n, r.value) && !LeavesNothing(p, n))
    && (r == Err(KeyMissing) <==> Deletable(g, n) && LeavesNothing(p, n))
    && (r.Err? && Deletable(g, n) && !LeavesNothing(p, n) ==> exists c :: IsDeletion(g, p, n, c) && !(K7(c) && rest(c)))
  }

  /** Outside the corner case the candidate is the edited term; in it, the data-flow analysis fails on it. */
  lemma DeletionMeans(g: Schema, p: Process, n: Id)
    requires Flattens(g, p) && Deletable(g, n)
    ensures var c := DeletionCandidate(g, p, n); if LeavesNothing(p, n) then !Resolves(c) else IsDeletion(g, p, n, c)
  {
    var c, q := DeletionCandidate(g, p, n), SoleBlock(p, n);
    if !Sole(p, n) {
      DeletableIsInside(g, p, n);
      RemoveFlattens(g, c, p, n);
    } else {
      SoleWidth(g, p, n);
      if Width(q.branches) > 2 { DropFlattens(g, c, p, n, q); } else { DissolveDeletes(g, p, n); }
    }
  }

  lemma SoleWidth(g: Schema, p: Process, n: Id)
    requires Flattens(g, p) && Sole(p, n)
    ensures SoleBlock(p, n).Gateway? && Width(SoleBlock(p, n).branches) >= 2
  {
    SoleIsAt(g, p, n, SoleBlock(p, n));
  }

  lemma DissolveDeletes(g: Schema, p: Process, n: Id)
    requires Flattens(g, p) && Sole(p, n) && Width(SoleBlock(p, n).branches) == 2
    ensures var c := DeletionCandidate(g, p, n); if LeavesNothing(p, n) then !Resolves(c) else IsDeletion(g, p, n, c)
  {
    var c, q := DeletionCandidate(g, p, n), SoleBlock(p, n);
    var s := SiteOf(p.body, p.start, p.end, q.split);
    if Survivor(q, n).Done? {
      RemnantFails(g, p, n, q, c);
    } else {
      assert multiset(c.edges) == multiset(Detached(Detached(g.edges, {n}), {q.split, q.join}))
                                + SpliceEdges(q, s.before, First(Rest(q), s.after), n);
      DissolveFlattens(g, c, p, n, q);
    }
  }

  /** The candidate, committed or refused. */
  lemma CandidateCommitted(g: Schema, n: Id, rest: Schema -> bool, p: Process, r: Result<Schema>)
    requires Flattens(g, p) && Deletable(g, n) && r == Committed(DeletionCandidate(g, p, n), rest)
    ensures DeletePost(g, p, n, rest, r)
  {
    DeletionMeans(g, p, n);
    if !LeavesNothing(p, n) { FlatteningIsStructural(DeletionCandidate(g, p, n), Deleted(p, n)); }
  }

  lemma DeletableIsInside(g: Schema, p: Process, n: Id)
    requires Flattens(g, p) && Deletable(g, n)
    ensures n in Ids(p.body)
    ensures var c := SiteOf(p.body, p.start, p.end, n).chain;
            if g.nodes[n].IsSplit() then c.Gateway? && c.split == n else c.Task? && c.id == n
  {
    TypedEnds(g, p);
    SiteFacts(g, p, n);
  }

  /** The edges around a chain's first block. */
  lemma AroundHead(g: Schema, b: Block, src: Id, dst: Id)
    requires IsChain(b) && !b.Done? && Embedded(g.nodes, multiset(g.edges), b, src, dst)
    ensures forall e :: e in g.edges && e.target == First(b, dst) <==> e == Edge(src, First(b, dst))
    ensures forall e :: e in g.edges && e.source == HeadEnd(b, src) <==> e == Edge(HeadEnd(b, src), First(b.next, dst))
  {
    var n, end := First(b, dst), HeadEnd(b, src);
    OnlyIncoming(g, b, src, dst, n);
    var q := ChainPort(b.next, end, dst);
    assert q.entry in EdgeBag(b, src, dst);
    assert q.entry in multiset(g.edges);
    forall e | e in g.edges && e.source == end ensures e == q.entry {
      assert multiset(g.edges)[e] == EdgeBag(b, src, dst)[e];
      if b.Gateway? && e in EdgeBag(b.branches, b.split, b.join) { EdgeEnds(b.branches, b.split, b.join, e); }
      EntryAndInner(b.next, end, dst);
      if e in Inner(b.next, dst) { InnerEnds(b.next, dst, e); }
    }
  }

  /** `_matching_block` may be asked about every split. */
  lemma SplitExplores(g: Schema, b: Block, src: Id, dst: Id)
    requires IsChain(b) && b.Gateway? && Embedded(g.nodes, multiset(g.edges), b, src, dst)
    ensures MatchingBlock.Explores(g, b.split, b.join, b.branches)
  {
    EmbeddedGateway(g.nodes, multiset(g.edges), b, src, dst);
    forall e | e in g.edges && e.source == b.split ensures e in EdgeBag(b.branches, b.split, b.join) {
      SplitOutgoing(g, b, src, dst, e);
      var p :| p in Ports(b.branches, b.split, b.join) && p.entry == e;
      PortEdges(b.branches, b.split, b.join, p);
    }
  }

  /** A sole branch content lies between a split and its join. */
  lemma SoleMeans(g: Schema, p: Process, n: Id, q: Block)
    requires Flattens(g, p) && SoleIn(p, n, q)
    ensures var s := SiteOf(p.body, p.start, p.end, n);
            && s.before == q.split && q.split in g.nodes && g.nodes[q.split].IsSplit()
            && s.after == q.join == First(Rest(s.chain), s.after) && q.join in g.nodes && g.nodes[q.join].IsJoin()
  {
    SoleIsAt(g, p, n, q);
  }

  /** A step between a split and a join is a sole branch content. */
  lemma TestMeansSole(g: Schema, p: Process, n: Id)
    requires Flattens(g, p) && n in Ids(p.body) && g.nodes[n].IsStep()
    requires var s := SiteOf(p.body, p.start, p.end, n);
             && s.before in g.nodes && First(Rest(s.chain), s.after) in g.nodes
             && g.nodes[s.before].IsSplit() && g.nodes[First(Rest(s.chain), s.after)].IsJoin()
    ensures SoleIn(p, n, SiteOf(p.body, p.start, p.end, SiteOf(p.body, p.start, p.end, n).before).chain)
  {
    var s := SiteOf(p.body, p.start, p.end, n);
    LoneStep(g, p, n);
    SplitSite(g, p, s.before);
  }

  /** A step before a join, behind a split, is all there is between them. */
  lemma LoneStep(g: Schema, p: Process, n: Id)
    requires Flattens(g, p) && n in Ids(p.body) && g.nodes[n].IsStep()
    requires var s := SiteOf(p.body, p.start, p.end, n);
             && s.before in g.nodes && First(Rest(s.chain), s.after) in g.nodes
             && g.nodes[s.before].IsSplit() && g.nodes[First(Rest(s.chain), s.after)].IsJoin()
    ensures var s := SiteOf(p.body, p.start, p.end, n); s.chain.Task? && s.chain.next.Done? && s.before in Ids(p.body)
  {
    var s := SiteOf(p.body, p.start, p.end, n);
    SiteFacts(g, p, n);
    SiteEnds(p.body, p.start, p.end, n);
    FirstType(g, s.chain.next, s.after);
  }

  lemma SplitSite(g: Schema, p: Process, m: Id)
    requires Flattens(g, p) && m in Ids(p.body) && g.nodes[m].IsSplit()
    ensures var q := SiteOf(p.body, p.start, p.end, m).chain; q.Gateway? && q.split == m
  {
    SiteFacts(g, p, m);
  }

  /** The nodes before and after a step exist. */
  lemma NeighboursExist(g: Schema, p: Process, n: Id)
    requires Flattens(g, p) && n in Ids(p.body) && g.nodes[n].IsStep()
    ensures var s := SiteOf(p.body, p.start, p.end, n); s.before in g.nodes && First(Rest(s.chain), s.after) in g.nodes
  {
    var s := SiteOf(p.body, p.start, p.end, n);
    SiteFacts(g, p, n);
    SiteEnds(p.body, p.start, p.end, n);
    FirstType(g, s.chain.next, s.after);
  }

  lemma FirstType(g: Schema, b: Block, dst: Id)
    requires IsChain(b) && Typed(g.nodes, b)
    ensures b.Done? ==> First(b, dst) == dst
    ensures !b.Done? ==> First(b, dst) in g.nodes && !g.nodes[First(b, dst)].IsJoin()
  {}

  // --- reading the candidate while a branch is deleted --------------------------------------------

  lemma DetachedIn(es: seq<Edge>, gone: set<Id>, e: Edge)
    ensures e in Detached(es, gone) <==> e in es && !Touches(e, gone)
  {
    DetachedCount(es, gone, e);
    assert e in multiset(es) <==> e in es;
    assert e in multiset(Detached(es, gone)) <==> e in Detached(es, gone);
  }

  /** Without the sole step the gateway has the edges of the remaining bundle. */
  lemma RemainingCount(g: Schema, q: Block, src: Id, dst: Id, n: Id, e: Edge)
    requires SoleAt(g, q, src, dst, n) && (e.source == q.split || e.target == q.join)
    ensures multiset(Detached(g.edges, {n}))[e] == EdgeBag(Without(q.branches, n), q.split, q.join)[e]
  {
    SoleForm(g, q, src, dst, n);
    DetachSole(g, q, src, dst, n);
    assert multiset(g.edges)[e] == EdgeBag(q, src, dst)[e];
    if e in EdgeBag(q.next, q.join, dst) { EdgeEnds(q.next, q.join, dst, e); }
    assert multiset(g.edges)[e] == EdgeBag(q.branches, q.split, q.join)[e];
    assert (multiset(Detached(g.edges, {n})) + SoleEdges(q, n))[e] == multiset(g.edges)[e];
  }

  lemma RemainingOut(g: Schema, q: Block, src: Id, dst: Id, n: Id, list: seq<Edge>, e: Edge)
    requires SoleAt(g, q, src, dst, n) && multiset(list) == EdgeBag(Without(q.branches, n), q.split, q.join)
    ensures multiset(Outgoing(Detached(g.edges, {n}), q.split))[e] == multiset(Outgoing(list, q.split))[e]
  {
    OutgoingCount(Detached(g.edges, {n}), q.split, e);
    OutgoingCount(list, q.split, e);
    if e.source == q.split { RemainingCount(g, q, src, dst, n, e); }
  }

  lemma SameLength(a: seq<Edge>, b: seq<Edge>)
    requires multiset(a) == multiset(b)
    ensures |a| == |b|
  {
    assert |multiset(a)| == |a| && |multiset(b)| == |b|;
  }

  /** `len(remaining)` counts the branches left. */
  lemma RemainingBranches(g: Schema, q: Block, src: Id, dst: Id, n: Id)
    requires SoleAt(g, q, src, dst, n)
    ensures |Outgoing(Detached(g.edges, {n}), q.split)| == Width(q.branches) - 1
  {
    var left := Without(q.branches, n);
    SoleForm(g, q, src, dst, n);
    var list := EdgeList(left, q.split, q.join);
    EdgeListBag(left, q.split, q.join);
    forall e { RemainingOut(g, q, src, dst, n, list, e); }
    SameLength(Outgoing(Detached(g.edges, {n}), q.split), Outgoing(list, q.split));
    ListDegrees(left, q.split, q.join, q.split);
    DegreesAway(left, q.split, q.join, q.split);
  }

  /** All edges of a non-empty list are the same one. */
  ghost predicate Only(es: seq<Edge>, e: Edge) {
    es != [] && forall f :: f in es ==> f == e
  }

  lemma OnlyIn(es: seq<Edge>, n: Id, e: Edge)
    requires forall f :: f in es && f.target == e.target <==> f == e
    requires !Touches(e, {n})
    ensures Only(Incoming(Detached(es, {n}), e.target), e)
  {
    DetachedIn(es, {n}, e);
    forall f | f in Incoming(Detached(es, {n}), e.target) ensures f == e { DetachedIn(es, {n}, f); }
    assert e in Incoming(Detached(es, {n}), e.target);
  }

  lemma OnlyOut(es: seq<Edge>, n: Id, e: Edge)
    requires forall f :: f in es && f.source == e.source <==> f == e
    requires !Touches(e, {n})
    ensures Only(Outgoing(Detached(es, {n}), e.source), e)
  {
    DetachedIn(es, {n}, e);
    forall f | f in Outgoing(Detached(es, {n}), e.source) ensures f == e { DetachedIn(es, {n}, f); }
    assert e in Outgoing(Detached(es, {n}), e.source);
  }

  /** The edges before the split and behind the join, read off the candidate. */
  lemma ReadsOutside(g: Schema, q: Block, src: Id, dst: Id, n: Id)
    requires SoleAt(g, q, src, dst, n)
    ensures Only(Incoming(Detached(g.edges, {n}), q.split), Edge(src, q.split))
    ensures Only(Outgoing(Detached(g.edges, {n}), q.join), Edge(q.join, First(q.next, dst)))
  {
    SoleAway(g, q, src, dst, n);
    AroundHead(g, q, src, dst);
    OnlyIn(g.edges, n, Edge(src, q.split));
    OnlyOut(g.edges, n, Edge(q.join, First(q.next, dst)));
  }

  /** The sole step is none of the nodes around the gateway. */
  lemma SoleAway(g: Schema, q: Block, src: Id, dst: Id, n: Id)
    requires SoleAt(g, q, src, dst, n)
    ensures n != src && n != q.split && n != q.join && n != First(q.next, dst)
  {
    SoleForm(g, q, src, dst, n);
    assert First(q.next, dst) in Ids(q.next) + {dst};
  }

  lemma SurvivorCount(g: Schema, q: Block, src: Id, dst: Id, n: Id, e: Edge)
    requires SoleAt(g, q, src, dst, n) && Width(q.branches) == 2 && (e.source == q.split || e.target == q.join)
    ensures multiset(Detached(g.edges, {n}))[e] == EdgeBag(Survivor(q, n), q.split, q.join)[e]
  {
    TwoLeft(g, q, src, dst, n);
    RemainingCount(g, q, src, dst, n, e);
    assert EdgeBag(NoBranch, q.split, q.join) == multiset{};
  }

  lemma SurvivorAway(g: Schema, q: Block, src: Id, dst: Id, n: Id)
    requires SoleAt(g, q, src, dst, n) && Width(q.branches) == 2
    ensures IsChain(Survivor(q, n)) && q.split !in Ids(Survivor(q, n)) && q.join !in Ids(Survivor(q, n))
  {
    TwoLeft(g, q, src, dst, n);
  }

  /** The ends of the surviving branch, read off the candidate. */
  lemma ReadsInside(g: Schema, q: Block, src: Id, dst: Id, n: Id)
    requires SoleAt(g, q, src, dst, n) && Width(q.branches) == 2
    ensures Only(Outgoing(Detached(g.edges, {n}), q.split), Edge(q.split, First(Survivor(q, n), q.join)))
    ensures Only(Incoming(Detached(g.edges, {n}), q.join), Edge(Last(Survivor(q, n), q.split), q.join))
  {
    var es, b := Detached(g.edges, {n}), Survivor(q, n);
    SurvivorAway(g, q, src, dst, n);
    forall e: Edge | e.source == q.split || e.target == q.join ensures multiset(es)[e] == EdgeBag(b, q.split, q.join)[e] {
      SurvivorCount(g, q, src, dst, n, e);
    }
    ReadsOfBranch(es, b, q.split, q.join);
  }

  lemma ReadsOfBranch(es: seq<Edge>, b: Block, s: Id, j: Id)
    requires IsChain(b) && s !in Ids(b) && j !in Ids(b)
    requires forall e: Edge :: e.source == s || e.target == j ==> multiset(es)[e] == EdgeBag(b, s, j)[e]
    ensures Only(Outgoing(es, s), Edge(s, First(b, j))) && Only(Incoming(es, j), Edge(Last(b, s), j))
  {
    var port := ChainPort(b, s, j);
    assert multiset(es)[port.entry] > 0 && multiset(es)[port.exit] > 0;
    assert port.entry in Outgoing(es, s) && port.exit in Incoming(es, j);
    forall e | e in Outgoing(es, s) ensures e == port.entry {
      assert multiset(es)[e] > 0;
      EntryEdge(b, s, j, e);
    }
    forall e | e in Incoming(es, j) ensures e == port.exit {
      assert multiset(es)[e] > 0;
      ExitEdge(b, s, j, e);
    }
  }

  /** The dissolving half of `_delete_single_node_branch`: splice the surviving branch inline. */
  method DissolveGateway(candidate: Candidate, n: Id, splitId: Id, joinId: Id, ghost g: Schema, ghost s: Site)
    requires SoleAt(g, s.chain, s.before, s.after, n) && Width(s.chain.branches) == 2
    requires s.chain.split == splitId && s.chain.join == joinId
    requires candidate.nodes == g.nodes && candidate.edges == Detached(g.edges, {n})
    modifies candidate
    ensures candidate.nodes == g.nodes - {n, splitId, joinId}
    ensures candidate.decisions == old(candidate.decisions) - {n, splitId, joinId}
    ensures candidate.edges == Detached(Detached(g.edges, {n}), {splitId, joinId})
                               + [Edge(s.before, First(Survivor(s.chain, n), joinId))]
                               + [Edge(Last(Survivor(s.chain, n), splitId), First(Rest(s.chain), s.after))]
  {
    ReadsOutside(g, s.chain, s.before, s.after, n);
    ReadsInside(g, s.chain, s.before, s.after, n);
    var predecessor := Incoming(candidate.edges, splitId)[0].source;
    var successor := Outgoing(candidate.edges, joinId)[0].target;
    var head := Outgoing(candidate.edges, splitId)[0].target;
    var tail := Incoming(candidate.edges, joinId)[0].source;
    candidate.edges := Detached(candidate.edges, {splitId, joinId});
    candidate.edges := candidate.edges + [Edge(predecessor, head)];
    candidate.edges := candidate.edges + [Edge(tail, successor)];
    candidate.DropNodes({n, splitId, joinId});
  }

  /** The dropping half: the branch loses its cell of the decision. */
  method DropCell(candidate: Candidate, n: Id, splitId: Id)
    modifies candidate
    ensures candidate.nodes == old(candidate.nodes) - {n} && candidate.edges == old(candidate.edges)
    ensures candidate.decisions == CellDropped(old(candidate.decisions), splitId, n) - {n}
    ensures candidate.View() == old(candidate.View()).(nodes := candidate.nodes, decisions := candidate.decisions)
  {
    if splitId in candidate.decisions {
      var d := candidate.decisions[splitId];
      candidate.decisions := candidate.decisions[splitId := d.(branches := WithoutTarget(d.branches, n))];
    }
    candidate.DropNodes({n});
  }

  /** `_delete_single_node_branch` */
  method DeleteSoleBranch(g: Schema, n: Id, splitId: Id, joinId: Id, rest: Schema -> bool, ghost p: Process)
    returns (r: Result<Schema>)
    requires Flattens(g, p) && Deletable(g, n) && Sole(p, n)
    requires SoleBlock(p, n).split == splitId && SoleBlock(p, n).join == joinId
    ensures DeletePost(g, p, n, rest, r) && (K7(g) ==> DeleteExactly(g, p, n, rest, r))
  {
    ghost var q := SoleBlock(p, n);
    ghost var s := SiteOf(p.body, p.start, p.end, splitId);
    SoleIsAt(g, p, n, q);
    var candidate := new Candidate(g);
    candidate.edges := Detached(candidate.edges, {n});
    RemainingBranches(g, q, s.before, s.after, n);
    if |Outgoing(candidate.edges, splitId)| >= 2 {
      DropCell(candidate, n, splitId);
    } else {
      DissolveGateway(candidate, n, splitId, joinId, g, s);
    }
    assert candidate.View() == DeletionCandidate(g, p, n);
    r := RaiseIfInvalid(candidate.View(), rest);
    CandidateCommitted(g, n, rest, p, r);
    if K7(g) { DeletionMeansExactly(g, p, n, rest, r); }
  }

  /** The neighbours of the block that is removed as a whole. */
  ghost predicate Neighbours(p: Process, n: Id, before: Id, after: Id) {
    var s := SiteOf(p.body, p.start, p.end, n);
    before == s.before && after == First(Rest(s.chain), s.after)
  }

  /** What `_matching_block` and the edges around a gateway block give. */
  lemma GatewayAround(g: Schema, p: Process, n: Id)
    requires Flattens(g, p) && Deletable(g, n) && g.nodes[n].IsSplit()
    ensures var s := SiteOf(p.body, p.start, p.end, n);
            && s.chain.Gateway? && s.chain.split == n && MatchingBlock.Explores(g, n, s.chain.join, s.chain.branches)
            && Only(Incoming(g.edges, n), Edge(s.before, n))
            && Only(Outgoing(g.edges, s.chain.join), Edge(s.chain.join, First(s.chain.next, s.after)))
  {
    DeletableIsInside(g, p, n);
    var s := SiteOf(p.body, p.start, p.end, n);
    SiteFacts(g, p, n);
    AroundHead(g, s.chain, s.before, s.after);
    SplitExplores(g, s.chain, s.before, s.after);
    assert Edge(s.before, n) in Incoming(g.edges, n);
    assert Edge(s.chain.join, First(s.chain.next, s.after)) in Outgoing(g.edges, s.chain.join);
  }

  /** The split case: the whole balanced block. */
  method WholeBlock(g: Schema, n: Id, ghost p: Process) returns (gone: set<Id>, before: Id, after: Id)
    requires Flattens(g, p) && Deletable(g, n) && g.nodes[n].IsSplit()
    ensures gone == Ids(Head(SiteOf(p.body, p.start, p.end, n).chain)) && Neighbours(p, n, before, after)
  {
    GatewayAround(g, p, n);
    ghost var s := SiteOf(p.body, p.start, p.end, n);
    var found := MatchingBlock.Find(g, n, s.chain.join, s.chain.branches);
    var (join, inner) := found.value;
    assert Ids(Done) == {};
    gone := {n, join} + inner;
    before := Incoming(g.edges, n)[0].source;
    after := Outgoing(g.edges, join)[0].target;
  }

  lemma StepDegrees(g: Schema, p: Process, n: Id)
    requires Flattens(g, p) && n in g.nodes && g.nodes[n].IsStep()
    ensures |Incoming(g.edges, n)| == 1 && |Outgoing(g.edges, n)| == 1
  {
    FlatteningK2(g, p);
    assert DegreesOk(g.nodes[n], |Incoming(g.edges, n)|, |Outgoing(g.edges, n)|);
  }

  /** The step case: its two neighbours. A step of a flattening always is on a serial stretch. */
  method SerialNeighbours(g: Schema, n: Id, ghost p: Process) returns (before: Id, after: Id)
    requires Flattens(g, p) && Deletable(g, n) && g.nodes[n].IsStep()
    ensures Neighbours(p, n, before, after) && before in g.nodes && after in g.nodes
    ensures |Incoming(g.edges, n)| == 1 && |Outgoing(g.edges, n)| == 1
  {
    DeletableIsInside(g, p, n);
    ghost var s := SiteOf(p.body, p.start, p.end, n);
    SiteFacts(g, p, n);
    AroundHead(g, s.chain, s.before, s.after);
    NeighboursExist(g, p, n);
    StepDegrees(g, p, n);
    before, after := Incoming(g.edges, n)[0].source, Outgoing(g.edges, n)[0].target;
  }

  /** Whether a step is the sole content of a gateway branch, as the code finds out. */
  method IsSole(g: Schema, n: Id, before: Id, after: Id, ghost p: Process) returns (sole: bool)
    requires Flattens(g, p) && Deletable(g, n) && g.nodes[n].IsStep() && n in Ids(p.body)
    requires Neighbours(p, n, before, after) && before in g.nodes && after in g.nodes
    ensures sole <==> Sole(p, n)
    ensures sole ==> SoleBlock(p, n).split == before && SoleBlock(p, n).join == after
  {
    ghost var q := SoleBlock(p, n);
    if Sole(p, n) { SoleMeans(g, p, n, q); }
    if !g.nodes[before].IsSplit() || !g.nodes[after].IsJoin() { return false; }
    TestMeansSole(g, p, n);
    SoleMeans(g, p, n, q);
    SoleIsAt(g, p, n, q);
    ghost var t := SiteOf(p.body, p.start, p.end, q.split);
    SplitExplores(g, q, t.before, t.after);
    var found := MatchingBlock.Find(g, before, q.join, q.branches);
    return found.value.0 == after;
  }

  // --- what a deletion means for the branch decisions ------------------------------------------

  /** The first block of a chain is entered from outside through one edge only. */
  lemma IntoHead(g: Schema, b: Block, src: Id, dst: Id, e: Edge)
    requires IsChain(b) && !b.Done? && Embedded(g.nodes, multiset(g.edges), b, src, dst)
    requires e in g.edges && e.target in Ids(Head(b)) && e.source !in Ids(Head(b))
    ensures e.source == src
  {
    HeadIds(b);
    HeadAndRest(b, src, dst);
    assert Touches(e, Ids(b));
    assert multiset(g.edges)[e] == EdgeBag(b, src, dst)[e];
    if e in EdgeBag(Head(b), src, First(b.next, dst)) {
      EdgeEnds(Head(b), src, First(b.next, dst), e);
    } else {
      InnerEnds(b.next, dst, e);
    }
  }

  /** The ways out of a node that stays, and is not the one before the gap. */
  lemma WaysKept(g: Schema, c: Schema, b: Block, src: Id, dst: Id, h: Id, m: Id)
    requires IsChain(b) && !b.Done? && Embedded(g.nodes, multiset(g.edges), b, src, dst)
    requires c.edges == Detached(g.edges, Ids(Head(b))) + [Edge(src, h)] && m !in Ids(Head(b)) && m != src
    ensures SameWaysOut(g.edges, c.edges, m)
  {
    var gone := Ids(Head(b));
    forall t ensures multiset(c.edges)[Edge(m, t)] == multiset(g.edges)[Edge(m, t)] {
      DetachedCount(g.edges, gone, Edge(m, t));
      assert multiset(c.edges) == multiset(Detached(g.edges, gone)) + multiset{Edge(src, h)};
      if t in gone && Edge(m, t) in g.edges { IntoHead(g, b, src, dst, Edge(m, t)); }
    }
  }

  /** Removing a block keeps K7 exactly if the node before it is no XOR split. */
  lemma RemoveK7(g: Schema, p: Process, n: Id)
    requires Flattens(g, p) && n in Ids(p.body) && K7(g)
    ensures var s := SiteOf(p.body, p.start, p.end, n);
            s.before in g.nodes && (K7(BlockRemoved(g, s)) <==> !g.nodes[s.before].XOR_SPLIT?)
  {
    var s := SiteOf(p.body, p.start, p.end, n);
    var c := BlockRemoved(g, s);
    SiteFacts(g, p, n);
    SiteEnds(p.body, p.start, p.end, n);
    K7Iff(g);
    K7Iff(c);
    BeforeGap(g, c, s);
    forall m | m in g.decisions && m !in Ids(Head(s.chain)) && m != s.before ensures SameWaysOut(g.edges, c.edges, m) {
      WaysKept(g, c, s.chain, s.before, s.after, First(Rest(s.chain), s.after), m);
    }
    LedPast(g, c, Ids(Head(s.chain)), s.before, First(s.chain, s.after));
  }

  lemma BeforeGap(g: Schema, c: Schema, s: Site)
    requires IsChain(s.chain) && !s.chain.Done? && Embedded(g.nodes, multiset(g.edges), s.chain, s.before, s.after)
    requires c == BlockRemoved(g, s)
    ensures s.before !in Ids(Head(s.chain)) && Edge(s.before, First(s.chain, s.after)) in g.edges
    ensures Edge(s.before, First(s.chain, s.after)) !in c.edges
  {
    var gone, first := Ids(Head(s.chain)), First(s.chain, s.after);
    HeadIds(s.chain);
    AroundHead(g, s.chain, s.before, s.after);
    DetachedIn(g.edges, gone, Edge(s.before, first));
    assert first in gone;
    assert First(s.chain.next, s.after) in Ids(s.chain.next) + {s.after};
  }

  // --- dropping a branch -----------------------------------------------------------------------

  /** Only the split has an edge to the step. */
  lemma DropWays(g: Schema, c: Schema, q: Block, src: Id, dst: Id, n: Id, m: Id, t: Id)
    requires SoleAt(g, q, src, dst, n) && c.edges == Detached(g.edges, {n}) && m != n
    ensures multiset(c.edges)[Edge(m, t)] + (if m == q.split && t == n then 1 else 0) == multiset(g.edges)[Edge(m, t)]
  {
    SoleAway(g, q, src, dst, n);
    DetachedCount(g.edges, {n}, Edge(m, t));
    if t == n { SoleTouches(g, q, src, dst, n, Edge(m, t)); }
  }

  /** Without the branches to `n`, of which there is one. */
  lemma {:induction false} WithoutIsDrop(bs: seq<XorBranch>, n: Id, i: nat)
    requires i < |bs| && forall k :: 0 <= k < |bs| ==> (bs[k].target == n <==> k == i)
    ensures WithoutTarget(bs, n) == bs[..i] + bs[i + 1..]
  {
    if i == 0 {
      NoneWithout(bs[1..], n);
    } else {
      WithoutIsDrop(bs[1..], n, i - 1);
      assert bs[..i] + bs[i + 1..] == [bs[0]] + (bs[1..][..i - 1] + bs[1..][i..]);
    }
  }

  lemma NoneWithout(bs: seq<XorBranch>, n: Id)
    requires forall k :: 0 <= k < |bs| ==> bs[k].target != n
    ensures WithoutTarget(bs, n) == bs
  {}

  /** The branch whose only content is `n`, as the decision of its split lists it. */
  predicate LeadsTo(d: XorDecision, i: nat, n: Id) {
    i < |d.branches| && forall k :: 0 <= k < |d.branches| ==> (d.branches[k].target == n <==> k == i)
  }

  lemma SoleCount(g: Schema, q: Block, src: Id, dst: Id, n: Id)
    requires SoleAt(g, q, src, dst, n)
    ensures multiset(g.edges)[Edge(q.split, n)] == 1
  {
    SoleAway(g, q, src, dst, n);
    SoleTouches(g, q, src, dst, n, Edge(q.split, n));
  }

  /** The decision names the branch once, and dropping the branch drops its cell. */
  lemma DroppedCell(g: Schema, split: Id, n: Id) returns (i: nat)
    requires AllFit(g) && split in g.nodes && g.nodes[split].XOR_SPLIT? && multiset(g.edges)[Edge(split, n)] == 1
    ensures split in g.decisions && LeadsTo(g.decisions[split], i, n)
    ensures CellDropped(g.decisions, split, n) == g.decisions[split := Drop(g.decisions[split], i)]
  {
    var d := g.decisions[split];
    assert Fits(g.edges, split, d);
    i := OnlyBranch(d.branches, n);
    WithoutIsDrop(d.branches, n, i);
  }

  /** All splits but the one that loses a branch keep their edges. */
  lemma DropKeepsWays(g: Schema, c: Schema, q: Block, src: Id, dst: Id, n: Id)
    requires SoleAt(g, q, src, dst, n) && c.edges == Detached(g.edges, {n})
    ensures forall m :: m != n && m != q.split ==> SameWaysOut(g.edges, c.edges, m)
    ensures forall t :: multiset(c.edges)[Edge(q.split, t)] + (if t == n then 1 else 0) == multiset(g.edges)[Edge(q.split, t)]
  {
    SoleAway(g, q, src, dst, n);
    forall m, t | m != n ensures multiset(c.edges)[Edge(m, t)] + (if m == q.split && t == n then 1 else 0) == multiset(g.edges)[Edge(m, t)] {
      DropWays(g, c, q, src, dst, n, m, t);
    }
  }

  lemma DropXorFits(g: Schema, c: Schema, split: Id, n: Id, i: nat)
    requires AllFit(g) && split in g.decisions && LeadsTo(g.decisions[split], i, n) && n in g.nodes && g.nodes[n].IsStep()
    requires c.decisions == g.decisions[split := Drop(g.decisions[split], i)] && c.nodes == g.nodes - {n}
    requires forall m :: m != n && m != split ==> SameWaysOut(g.edges, c.edges, m)
    requires forall t :: multiset(c.edges)[Edge(split, t)] + (if t == n then 1 else 0) == multiset(g.edges)[Edge(split, t)]
    requires |Outgoing(c.edges, split)| >= 2
    ensures AllFit(c) <==> Droppable(g.decisions[split], i)
    ensures |g.decisions[split].branches| >= 3
  {
    assert OnlySplits(g);
    DropFits(g, c, split, i);
  }

  lemma BranchDroppedIs(g: Schema, split: Id, n: Id, i: nat)
    requires OnlySplits(g) && split in g.decisions && i < |g.decisions[split].branches| && n in g.nodes && g.nodes[n].IsStep()
    requires CellDropped(g.decisions, split, n) == g.decisions[split := Drop(g.decisions[split], i)]
    ensures BranchDropped(g, split, n).decisions == g.decisions[split := Drop(g.decisions[split], i)]
  {
    assert n !in g.decisions && n != split;
  }

  /** Dropping a branch of an XOR gateway keeps K7 exactly if its cell may go. */
  lemma DropXorK7(g: Schema, q: Block, src: Id, dst: Id, n: Id) returns (i: nat)
    requires SoleAt(g, q, src, dst, n) && Width(q.branches) >= 3 && K7(g) && q.logic.XOR? && n in g.nodes && g.nodes[n].IsStep()
    ensures q.split in g.decisions && LeadsTo(g.decisions[q.split], i, n) && |g.decisions[q.split].branches| >= 3
    ensures BranchDropped(g, q.split, n).decisions == g.decisions[q.split := Drop(g.decisions[q.split], i)]
    ensures K7(BranchDropped(g, q.split, n)) <==> Droppable(g.decisions[q.split], i)
  {
    var c := BranchDropped(g, q.split, n);
    K7Iff(g);
    K7Iff(c);
    SoleCount(g, q, src, dst, n);
    RemainingBranches(g, q, src, dst, n);
    DropKeepsWays(g, c, q, src, dst, n);
    i := DroppedCell(g, q.split, n);
    BranchDroppedIs(g, q.split, n, i);
    DropXorFits(g, c, q.split, n, i);
  }

  /** Dropping a branch of an AND gateway always keeps it. */
  lemma DropAndK7(g: Schema, q: Block, src: Id, dst: Id, n: Id)
    requires SoleAt(g, q, src, dst, n) && K7(g) && q.logic.AND? && n in g.nodes && g.nodes[n].IsStep()
    ensures K7(BranchDropped(g, q.split, n)) && BranchDropped(g, q.split, n).decisions == g.decisions
  {
    var c := BranchDropped(g, q.split, n);
    K7Iff(g);
    K7Iff(c);
    DropKeepsWays(g, c, q, src, dst, n);
    DropAndFits(g, c, q.split, n);
  }

  lemma DropAndFits(g: Schema, c: Schema, split: Id, n: Id)
    requires AllFit(g) && split in g.nodes && g.nodes[split].AND_SPLIT? && n in g.nodes && g.nodes[n].IsStep() && c == BranchDropped(g, split, n)
    requires forall m :: m != n && m != split ==> SameWaysOut(g.edges, c.edges, m)
    ensures AllFit(c) && c.decisions == g.decisions
  {
    assert OnlySplits(g) && split !in g.decisions && n !in g.decisions;
    assert c.decisions == g.decisions;
    SameSplitsFit(g, c);
  }

  // --- dissolving a gateway ------------------------------------------------------------------------

  lemma LastIsNoSplit(nodes: map<Id, NodeType>, b: Block, src: Id)
    requires IsChain(b) && !b.Done? && Typed(nodes, b)
    ensures Last(b, src) in nodes && !nodes[Last(b, src)].IsSplit()
  {
    if b.next.Done? { assert Last(b.next, HeadEnd(b, src)) == HeadEnd(b, src); } else { LastIsNoSplit(nodes, b.next, HeadEnd(b, src)); }
  }

  /** Who leads into the gateway from elsewhere: the node before it and the end of the branch that is left. */
  lemma IntoDissolved(g: Schema, q: Block, src: Id, dst: Id, n: Id, e: Edge)
    requires SoleAt(g, q, src, dst, n) && Width(q.branches) == 2 && e in g.edges
    requires e.target in {n, q.split, q.join} && e.source !in {n, q.split, q.join, src}
    ensures e.source == Last(Survivor(q, n), q.split)
  {
    if e.target == q.split {
      OnlyIncoming(g, q, src, dst, q.split);
    } else if e.target == n {
      SoleTouches(g, q, src, dst, n, e);
    } else {
      SurvivorCount(g, q, src, dst, n, e);
      DetachedCount(g.edges, {n}, e);
      SurvivorAway(g, q, src, dst, n);
      assert e in multiset(g.edges);
      ExitEdge(Survivor(q, n), q.split, q.join, e);
    }
  }

  lemma DissolvedCount(es: seq<Edge>, n: Id, split: Id, join: Id, first: Edge, last: Edge, e: Edge)
    requires e != first && e != last
    ensures multiset(Detached(Detached(es, {n}), {split, join}) + [first] + [last])[e] == if Touches(e, {n, split, join}) then 0 else multiset(es)[e]
  {
    DetachedCount(es, {n}, e);
    DetachedCount(Detached(es, {n}), {split, join}, e);
    TwoMore(Detached(Detached(es, {n}), {split, join}), first, last);
  }

  lemma DissolvedWay(g: Schema, q: Block, src: Id, dst: Id, n: Id, m: Id, t: Id)
    requires SoleAt(g, q, src, dst, n) && Width(q.branches) == 2 && !Survivor(q, n).Done?
    requires m in g.nodes && g.nodes[m].XOR_SPLIT? && m !in {n, q.split, q.join, src}
    ensures t in {n, q.split, q.join} ==> multiset(g.edges)[Edge(m, t)] == 0
    ensures m != Last(Survivor(q, n), q.split)
  {
    TwoLeft(g, q, src, dst, n);
    LastIsNoSplit(g.nodes, Survivor(q, n), q.split);
    if t in {n, q.split, q.join} && Edge(m, t) in g.edges { IntoDissolved(g, q, src, dst, n, Edge(m, t)); }
  }

  lemma DissolvedWays(g: Schema, q: Block, src: Id, dst: Id, n: Id, c: Schema, m: Id)
    requires SoleAt(g, q, src, dst, n) && Width(q.branches) == 2 && !Survivor(q, n).Done? && c == GatewayDissolved(g, q, Site(q, src, dst), n)
    requires m in g.nodes && g.nodes[m].XOR_SPLIT? && m !in {n, q.split, q.join, src}
    ensures SameWaysOut(g.edges, c.edges, m)
  {
    var first, last := Edge(src, First(Survivor(q, n), q.join)), Edge(Last(Survivor(q, n), q.split), First(Rest(q), dst));
    forall t ensures multiset(c.edges)[Edge(m, t)] == multiset(g.edges)[Edge(m, t)] {
      DissolvedWay(g, q, src, dst, n, m, t);
      DissolvedCount(g.edges, n, q.split, q.join, first, last, Edge(m, t));
    }
  }

  /** Dissolving a gateway keeps K7 exactly if the node before it is no XOR split. */
  lemma DissolveK7(g: Schema, q: Block, src: Id, dst: Id, n: Id)
    requires SoleAt(g, q, src, dst, n) && Width(q.branches) == 2 && !Survivor(q, n).Done? && K7(g) && src in g.nodes
    ensures K7(GatewayDissolved(g, q, Site(q, src, dst), n)) <==> !g.nodes[src].XOR_SPLIT?
  {
    var c, gone := GatewayDissolved(g, q, Site(q, src, dst), n), {n, q.split, q.join};
    K7Iff(g);
    K7Iff(c);
    BeforeDissolved(g, q, src, dst, n, c);
    assert OnlySplits(g);
    forall m | m in g.decisions && m !in gone && m != src ensures SameWaysOut(g.edges, c.edges, m) { DissolvedWays(g, q, src, dst, n, c, m); }
    LedPast(g, c, gone, src, q.split);
  }

  lemma BeforeDissolved(g: Schema, q: Block, src: Id, dst: Id, n: Id, c: Schema)
    requires SoleAt(g, q, src, dst, n) && Width(q.branches) == 2 && !Survivor(q, n).Done? && c == GatewayDissolved(g, q, Site(q, src, dst), n)
    ensures src !in {n, q.split, q.join} && Edge(src, q.split) in g.edges && Edge(src, q.split) !in c.edges
  {
    AroundRemnant(g, q, src, dst, n);
    TwoLeft(g, q, src, dst, n);
    assert First(Survivor(q, n), q.join) in Ids(Survivor(q, n));
    DetachedIn(Detached(g.edges, {n}), {q.split, q.join}, Edge(src, q.split));
  }

  // --- the answer to a deletion, in terms of nodes, edges and values -----------------------------

  /** The branch that goes is one of at least three. */
  ghost predicate Drops(p: Process, n: Id) {
    Sole(p, n) && Width(SoleBlock(p, n).branches) >= 3
  }

  /** The node in front of what goes. */
  ghost function InFront(p: Process, n: Id): Id {
    if Sole(p, n) then SiteOf(p.body, p.start, p.end, SoleBlock(p, n).split).before else SiteOf(p.body, p.start, p.end, n).before
  }

  /** What goes: the step, or the block of a split; with the step of a dissolved gateway its split and join. */
  ghost function Gone(p: Process, n: Id): set<Id> {
    var b := SiteOf(p.body, p.start, p.end, n).chain;
    if Sole(p, n) && !Drops(p, n) && SoleBlock(p, n).Gateway? then {n, SoleBlock(p, n).split, SoleBlock(p, n).join}
    else if !Sole(p, n) && b.Gateway? then {b.split, b.join} + Ids(b.branches)
    else {n}
  }

  /** `n` is the target of the i-th branch of the split, and that branch may go. */
  ghost predicate MayGo(g: Schema, split: Id, n: Id, i: nat) {
    split in g.decisions && LeadsTo(g.decisions[split], i, n) && Droppable(g.decisions[split], i)
  }

  /**
   What K7 asks of a deletion: the branch of an XOR gateway that is dropped may go; whatever else goes
   does not stand directly behind an XOR split, whose decision would still name it.
   */
  ghost predicate KeepsK7(g: Schema, p: Process, n: Id) {
    if Drops(p, n) then SoleBlock(p, n).logic.XOR? ==> exists i :: MayGo(g, SoleBlock(p, n).split, n, i)
    else InFront(p, n) in g.nodes && !g.nodes[InFront(p, n)].XOR_SPLIT?
  }

  /** Where the values go: those of the i-th cell to the next branch or to the catch-all, all others where they went before. */
  ghost predicate TakesOver(d: XorDecision, i: nat, d': XorDecision)
    requires i < |d.branches|
  {
    && d'.discriminator == d.discriminator && d'.kind == d.kind
    && forall v :: Placeable(d, v) ==>
         if !InCell(d, i, v) then ResolveTarget(d', v) == ResolveTarget(d, v)
         else if d.kind.THRESHOLD? then i + 1 < |d.branches| && ResolveTarget(d', v) == Some(d.branches[i + 1].target)
         else exists k :: 0 <= k < |d.branches| && d.branches[k].isElse && ResolveTarget(d', v) == Some(d.branches[k].target)
  }

  /** The decisions of what is left: one split may have lost a branch, all others decide as before. */
  ghost predicate DecidesAsBefore(g: Schema, p: Process, n: Id, c: Schema) {
    && c.decisions.Keys == g.decisions.Keys - Gone(p, n)
    && forall s :: s in c.decisions ==>
         if Drops(p, n) && s == SoleBlock(p, n).split
         then exists i :: MayGo(g, s, n, i) && TakesOver(g.decisions[s], i, c.decisions[s])
         else c.decisions[s] == g.decisions[s]
  }

  /** The edges that are new. */
  ghost predicate Bridges(g: Schema, p: Process, n: Id, bridges: multiset<Edge>) {
    if Drops(p, n) then bridges == multiset{}
    else if Sole(p, n) then
      var q := SoleBlock(p, n);
      exists b, h, t, a ::
        && q.Gateway? && Edge(b, q.split) in g.edges && Edge(q.split, h) in g.edges && h != n
        && Edge(t, q.join) in g.edges && t != n && Edge(q.join, a) in g.edges && bridges == multiset{Edge(b, h), Edge(t, a)}
    else
      exists b, x, a :: Edge(b, n) in g.edges && x in Gone(p, n) && a !in Gone(p, n) && Edge(x, a) in g.edges && bridges == multiset{Edge(b, a)}
  }

  /** `c` is `g` without what goes: nothing else is lost or changed, and the gap is bridged. */
  ghost predicate DeletedFrom(g: Schema, p: Process, n: Id, c: Schema) {
    && c.lifecycle == g.lifecycle && c.version == g.version && c.nodes == g.nodes - Gone(p, n) && DecidesAsBefore(g, p, n, c)
    && exists bridges :: && Bridges(g, p, n, bridges)
         && forall e :: multiset(c.edges)[e] == (if Touches(e, Gone(p, n)) then 0 else multiset(g.edges)[e]) + bridges[e]
  }

  lemma CandidateK7Iff(g: Schema, p: Process, n: Id)
    requires Flattens(g, p) && K7(g) && Deletable(g, n) && !LeavesNothing(p, n)
    ensures K7(DeletionCandidate(g, p, n)) <==> KeepsK7(g, p, n)
  {
    DeletableIsInside(g, p, n);
    if !Sole(p, n) {
      RemoveK7(g, p, n);
    } else {
      SoleWidth(g, p, n);
      var q := SoleBlock(p, n);
      SoleIsAt(g, p, n, q);
      var s := SiteOf(p.body, p.start, p.end, q.split);
      if Drops(p, n) { DropsK7(g, p, n, q, s); } else { DissolvesK7(g, p, n, q, s); }
    }
  }

  lemma SoleIsStep(g: Schema, p: Process, n: Id, q: Block)
    requires Flattens(g, p) && SoleIn(p, n, q) && Deletable(g, n)
    ensures n in g.nodes && g.nodes[n].IsStep()
  {
    DeletableIsInside(g, p, n);
  }

  lemma DropsK7(g: Schema, p: Process, n: Id, q: Block, s: Site)
    requires Flattens(g, p) && K7(g) && Deletable(g, n) && Drops(p, n) && q == SoleBlock(p, n) && SoleAt(g, q, s.before, s.after, n)
    ensures K7(DeletionCandidate(g, p, n)) <==> KeepsK7(g, p, n)
  {
    SoleIsStep(g, p, n, q);
    if q.logic.XOR? {
      var i := DropXorK7(g, q, s.before, s.after, n);
      if Droppable(g.decisions[q.split], i) { assert MayGo(g, q.split, n, i); }
      if k :| MayGo(g, q.split, n, k) { assert k == i; }
    } else {
      DropAndK7(g, q, s.before, s.after, n);
    }
  }

  lemma DissolvesK7(g: Schema, p: Process, n: Id, q: Block, s: Site)
    requires Flattens(g, p) && K7(g) && Sole(p, n) && q == SoleBlock(p, n) && q.Gateway? && Width(q.branches) == 2 && !LeavesNothing(p, n)
    requires s == SiteOf(p.body, p.start, p.end, q.split) && s.chain == q && SoleAt(g, q, s.before, s.after, n) && q.split in Ids(p.body)
    ensures K7(DeletionCandidate(g, p, n)) <==> KeepsK7(g, p, n)
  {
    SiteEnds(p.body, p.start, p.end, q.split);
    assert s == Site(q, s.before, s.after);
    DissolveK7(g, q, s.before, s.after, n);
  }

  /** A partition that loses a cell lets the next branch or the catch-all take over. */
  lemma DropTakesOver(d: XorDecision, i: nat)
    requires Tiles(d) && |d.branches| >= 3 && i < |d.branches| && Droppable(d, i)
    ensures TakesOver(d, i, Drop(d, i))
  {
    DropTilesIff(d, i);
    forall v | Placeable(d, v)
      ensures if !InCell(d, i, v) then ResolveTarget(Drop(d, i), v) == ResolveTarget(d, v)
              else if d.kind.THRESHOLD? then i + 1 < |d.branches| && ResolveTarget(Drop(d, i), v) == Some(d.branches[i + 1].target)
              else exists k :: 0 <= k < |d.branches| && d.branches[k].isElse && ResolveTarget(Drop(d, i), v) == Some(d.branches[k].target)
    {
      DropRedirects(d, i, v);
    }
  }

  lemma RemovedNames(g: Schema, p: Process, n: Id)
    requires Flattens(g, p) && Deletable(g, n) && !Sole(p, n)
    ensures var s := SiteOf(p.body, p.start, p.end, n);
            && Gone(p, n) == Ids(Head(s.chain)) && First(s.chain, s.after) == n && HeadEnd(s.chain, s.before) in Gone(p, n)
            && First(Rest(s.chain), s.after) !in Gone(p, n)
            && Edge(s.before, n) in g.edges && Edge(HeadEnd(s.chain, s.before), First(Rest(s.chain), s.after)) in g.edges
  {
    DeletableIsInside(g, p, n);
    SiteFacts(g, p, n);
    var s := SiteOf(p.body, p.start, p.end, n);
    HeadIds(s.chain);
    AroundHead(g, s.chain, s.before, s.after);
    assert Ids(Done) == {};
    assert First(s.chain.next, s.after) in Ids(s.chain.next) + {s.after};
  }

  lemma RemovedFrom(g: Schema, p: Process, n: Id)
    requires Flattens(g, p) && Deletable(g, n) && !Sole(p, n)
    ensures DeletedFrom(g, p, n, DeletionCandidate(g, p, n))
  {
    var s, c := SiteOf(p.body, p.start, p.end, n), DeletionCandidate(g, p, n);
    RemovedNames(g, p, n);
    var bridge := Edge(s.before, First(Rest(s.chain), s.after));
    assert Bridges(g, p, n, multiset{bridge});
    RemovedCounts(g.edges, Gone(p, n), bridge);
    assert DecidesAsBefore(g, p, n, c);
  }

  lemma RemovedCounts(es: seq<Edge>, gone: set<Id>, bridge: Edge)
    ensures forall e :: multiset(Detached(es, gone) + [bridge])[e] == (if Touches(e, gone) then 0 else multiset(es)[e]) + multiset{bridge}[e]
  {
    forall e ensures multiset(Detached(es, gone) + [bridge])[e] == (if Touches(e, gone) then 0 else multiset(es)[e]) + multiset{bridge}[e] {
      DetachedCount(es, gone, e);
    }
  }

  lemma DroppedFrom(g: Schema, p: Process, n: Id, q: Block, s: Site)
    requires Flattens(g, p) && K7(g) && Deletable(g, n) && Drops(p, n) && q == SoleBlock(p, n) && SoleAt(g, q, s.before, s.after, n)
    requires KeepsK7(g, p, n)
    ensures DeletedFrom(g, p, n, DeletionCandidate(g, p, n))
  {
    var c := DeletionCandidate(g, p, n);
    SoleIsStep(g, p, n, q);
    DroppedDecides(g, p, n, q, s);
    assert Bridges(g, p, n, multiset{});
    forall e ensures multiset(c.edges)[e] == (if Touches(e, Gone(p, n)) then 0 else multiset(g.edges)[e]) + multiset{}[e] {
      DetachedCount(g.edges, {n}, e);
    }
  }

  lemma DroppedDecides(g: Schema, p: Process, n: Id, q: Block, s: Site)
    requires Flattens(g, p) && K7(g) && Deletable(g, n) && Drops(p, n) && q == SoleBlock(p, n) && SoleAt(g, q, s.before, s.after, n)
    requires KeepsK7(g, p, n)
    ensures DecidesAsBefore(g, p, n, DeletionCandidate(g, p, n))
  {
    SoleIsStep(g, p, n, q);
    StepHasNoDecision(g, n);
    if q.logic.XOR? {
      var i := DropXorK7(g, q, s.before, s.after, n);
      var k :| MayGo(g, q.split, n, k);
      OneLost(g, p, n, q, i, k, DeletionCandidate(g, p, n));
    } else {
      DropAndK7(g, q, s.before, s.after, n);
      StepHasNoDecision(g, q.split);
    }
  }

  lemma StepHasNoDecision(g: Schema, n: Id)
    requires K7(g) && n in g.nodes && !g.nodes[n].XOR_SPLIT?
    ensures n !in g.decisions
  {
    K7Iff(g);
    assert OnlySplits(g);
  }

  lemma OneLost(g: Schema, p: Process, n: Id, q: Block, i: nat, k: nat, c: Schema)
    requires Drops(p, n) && q == SoleBlock(p, n) && n !in g.decisions && MayGo(g, q.split, n, k) && LeadsTo(g.decisions[q.split], i, n)
    requires Tiles(g.decisions[q.split]) && |g.decisions[q.split].branches| >= 3
    requires c.decisions == g.decisions[q.split := Drop(g.decisions[q.split], i)]
    ensures DecidesAsBefore(g, p, n, c)
  {
    assert k == i && Gone(p, n) == {n};
    DropTakesOver(g.decisions[q.split], i);
    OthersDecide(g.decisions, q.split, Drop(g.decisions[q.split], i), n);
  }

  lemma OthersDecide(ds: map<Id, XorDecision>, s: Id, d: XorDecision, n: Id)
    requires s in ds && n !in ds
    ensures ds[s := d].Keys == ds.Keys - {n} && forall m :: m in ds && m != s ==> ds[s := d][m] == ds[m]
  {}

  lemma DissolvedCounts(es: seq<Edge>, n: Id, split: Id, join: Id, first: Edge, last: Edge)
    ensures forall e :: multiset(Detached(Detached(es, {n}), {split, join}) + [first] + [last])[e]
                     == (if Touches(e, {n, split, join}) then 0 else multiset(es)[e]) + multiset{first, last}[e]
  {
    var once := Detached(es, {n});
    TwoMore(Detached(once, {split, join}), first, last);
    assert multiset{first} + multiset{last} == multiset{first, last};
    forall e ensures multiset(Detached(once, {split, join}))[e] == if Touches(e, {n, split, join}) then 0 else multiset(es)[e] {
      DetachedCount(es, {n}, e);
      DetachedCount(once, {split, join}, e);
    }
  }

  lemma FromParts(g: Schema, p: Process, n: Id, c: Schema, bridges: multiset<Edge>)
    requires c.lifecycle == g.lifecycle && c.version == g.version && c.nodes == g.nodes - Gone(p, n) && DecidesAsBefore(g, p, n, c)
    requires Bridges(g, p, n, bridges)
    requires forall e :: multiset(c.edges)[e] == (if Touches(e, Gone(p, n)) then 0 else multiset(g.edges)[e]) + bridges[e]
    ensures DeletedFrom(g, p, n, c)
  {}

  lemma DissolvedFrom(g: Schema, p: Process, n: Id, q: Block, s: Site)
    requires Flattens(g, p) && Sole(p, n) && q == SoleBlock(p, n) && q.Gateway? && Width(q.branches) == 2 && !LeavesNothing(p, n)
    requires s == SiteOf(p.body, p.start, p.end, q.split) && s.chain == q && SoleAt(g, q, s.before, s.after, n)
    ensures DeletedFrom(g, p, n, DeletionCandidate(g, p, n))
  {
    var c, b := GatewayDissolved(g, q, s, n), Survivor(q, n);
    var first, last := Edge(s.before, First(b, q.join)), Edge(Last(b, q.split), First(Rest(q), s.after));
    DissolvedBridged(g, p, n, q, s.before, s.after);
    DissolvedCounts(g.edges, n, q.split, q.join, first, last);
    DissolvedDecides(g, p, n, q, c);
    FromParts(g, p, n, c, multiset{first, last});
  }

  lemma DissolvedDecides(g: Schema, p: Process, n: Id, q: Block, c: Schema)
    requires Sole(p, n) && q == SoleBlock(p, n) && q.Gateway? && Width(q.branches) == 2 && c.decisions == g.decisions - {n, q.split, q.join}
    ensures DecidesAsBefore(g, p, n, c) && Gone(p, n) == {n, q.split, q.join}
  {}

  lemma DissolvedBridged(g: Schema, p: Process, n: Id, q: Block, src: Id, dst: Id)
    requires Sole(p, n) && q == SoleBlock(p, n) && Width(q.branches) == 2 && SoleAt(g, q, src, dst, n)
    ensures Bridges(g, p, n, multiset{Edge(src, First(Survivor(q, n), q.join)), Edge(Last(Survivor(q, n), q.split), First(Rest(q), dst))})
  {
    DissolvedBridges(g, q, src, dst, n);
  }

  lemma DissolvedBridges(g: Schema, q: Block, src: Id, dst: Id, n: Id)
    requires SoleAt(g, q, src, dst, n) && Width(q.branches) == 2
    ensures Edge(src, q.split) in g.edges && Edge(q.join, First(q.next, dst)) in g.edges
    ensures Edge(q.split, First(Survivor(q, n), q.join)) in g.edges && First(Survivor(q, n), q.join) != n
    ensures Edge(Last(Survivor(q, n), q.split), q.join) in g.edges && Last(Survivor(q, n), q.split) != n
  {
    AroundRemnant(g, q, src, dst, n);
    ReadsInside(g, q, src, dst, n);
    var es := Detached(g.edges, {n});
    var h, t := Edge(q.split, First(Survivor(q, n), q.join)), Edge(Last(Survivor(q, n), q.split), q.join);
    assert h in Outgoing(es, q.split) by { assert Outgoing(es, q.split)[0] == h; }
    assert t in Incoming(es, q.join) by { assert Incoming(es, q.join)[0] == t; }
    DetachedIn(g.edges, {n}, h);
    DetachedIn(g.edges, {n}, t);
  }

  /** The candidate of a deletion that K7 accepts. */
  lemma CandidateFrom(g: Schema, p: Process, n: Id)
    requires Flattens(g, p) && K7(g) && Deletable(g, n) && !LeavesNothing(p, n) && KeepsK7(g, p, n)
    ensures DeletedFrom(g, p, n, DeletionCandidate(g, p, n))
  {
    if !Sole(p, n) {
      RemovedFrom(g, p, n);
    } else {
      SoleWidth(g, p, n);
      var q := SoleBlock(p, n);
      SoleIsAt(g, p, n, q);
      var s := SiteOf(p.body, p.start, p.end, q.split);
      if Drops(p, n) { DroppedFrom(g, p, n, q, s); } else { DissolvedFrom(g, p, n, q, s); }
    }
  }

  /**
   What `delete_node` answers to a schema that satisfies K7: the deletion is accepted exactly if the
   branch may go, or nothing that goes is a branch head, and the other rule families agree; what it
   returns is the schema without the deleted part, deciding as before.
   */
  ghost predicate DeleteExactly(g: Schema, p: Process, n: Id, rest: Schema -> bool, r: Result<Schema>) {
    && (Deletable(g, n) && !LeavesNothing(p, n) && !KeepsK7(g, p, n) ==> r == Err(Incorrect("findings")))
    && (Deletable(g, n) && !LeavesNothing(p, n) && KeepsK7(g, p, n) ==> exists c :: DeletedFrom(g, p, n, c) && r == UpToRest(c, rest))
    && (r.Ok? ==> DeletedFrom(g, p, n, r.value))
  }

  lemma DeletionMeansExactly(g: Schema, p: Process, n: Id, rest: Schema -> bool, r: Result<Schema>)
    requires Flattens(g, p) && K7(g) && DeletePost(g, p, n, rest, r)
    ensures DeleteExactly(g, p, n, rest, r)
  {
    if Deletable(g, n) && !LeavesNothing(p, n) {
      var c := DeletionCandidate(g, p, n);
      CandidateK7Iff(g, p, n);
      DeletionMeans(g, p, n);
      FlatteningIsStructural(c, Deleted(p, n));
      if KeepsK7(g, p, n) { CandidateFrom(g, p, n); }
      assert r == if KeepsK7(g, p, n) then UpToRest(c, rest) else Err(Incorrect("findings"));
    }
  }

  /** What cannot be deleted is refused, with a finding. */
  lemma RefusalPost(g: Schema, p: Process, n: Id, rest: Schema -> bool, r: Result<Schema>)
    requires !Deletable(g, n) && r.Err? && r.error.Incorrect?
    ensures DeletePost(g, p, n, rest, r)
  {}

  /** The refusals of `delete_node`: R0, unknown nodes, START, END and joins. */
  method CheckDeletable(g: Schema, n: Id) returns (r: Result<NodeType>)
    ensures r.Ok? <==> Deletable(g, n)
    ensures r.Ok? <==> g.lifecycle == ENTWURF && n in g.nodes && g.nodes[n] in {ACTIVITY, SUBPROCESS, AND_SPLIT, XOR_SPLIT}
    ensures r.Ok? ==> r.value == g.nodes[n]
    ensures r.Err? ==> r.error.Incorrect?
  {
    if !g.lifecycle.ENTWURF? { return Err(Incorrect("R0")); }
    if n !in g.nodes { return Err(Incorrect("OP")); }
    if g.nodes[n].START? || g.nodes[n].END? || g.nodes[n].IsJoin() { return Err(Incorrect("OP")); }
    return Ok(g.nodes[n]);
  }

  /** `delete_node` */
  method DeleteNode(g: Schema, n: Id, rest: Schema -> bool, ghost p: Process) returns (r: Result<Schema>)
    requires Flattens(g, p)
    ensures DeletePost(g, p, n, rest, r) && (K7(g) ==> DeleteExactly(g, p, n, rest, r))
  {
    var node := CheckDeletable(g, n);
    if node.Err? {
      r := Err(node.error);
      RefusalPost(g, p, n, rest, r);
      return;
    }
    if node.value.IsSplit() {
      var gone, before, after := WholeBlock(g, n, p);
      SplitIsNotSole(g, p, n);
      r := RemoveBlock(g, n, gone, before, after, rest, p);
    } else {
      r := DeleteStep(g, n, rest, p);
    }
    if K7(g) { DeletionMeansExactly(g, p, n, rest, r); }
  }

  lemma SplitIsNotSole(g: Schema, p: Process, n: Id)
    requires Flattens(g, p) && Deletable(g, n) && g.nodes[n].IsSplit()
    ensures n in Ids(p.body) && !Sole(p, n)
  {
    DeletableIsInside(g, p, n);
  }

  /** The part of `delete_node` about a single step. */
  method DeleteStep(g: Schema, n: Id, rest: Schema -> bool, ghost p: Process) returns (r: Result<Schema>)
    requires Flattens(g, p) && Deletable(g, n) && g.nodes[n].IsStep()
    ensures DeletePost(g, p, n, rest, r)
  {
    DeletableIsInside(g, p, n);
    var before, after := SerialNeighbours(g, n, p);
    var sole := IsSole(g, n, before, after, p);
    if sole {
      r := DeleteSoleBranch(g, n, before, after, rest, p);
    } else {
      r := RemoveBlock(g, n, {n}, before, after, rest, p);
    }
  }

  /** The last part of `delete_node`: the block goes and the gap is closed. */
  method RemoveBlock(g: Schema, n: Id, gone: set<Id>, before: Id, after: Id, rest: Schema -> bool, ghost p: Process)
    returns (r: Result<Schema>)
    requires Flattens(g, p) && Deletable(g, n) && n in Ids(p.body) && !Sole(p, n) && Neighbours(p, n, before, after)
    requires g.nodes[n].IsSplit() ==> gone == Ids(Head(SiteOf(p.body, p.start, p.end, n).chain))
    requires g.nodes[n].IsStep() ==> gone == {n}
    ensures DeletePost(g, p, n, rest, r)
  {
    var candidate := new Candidate(g);
    candidate.DropNodes(gone);
    candidate.edges := Detached(candidate.edges, gone);
    candidate.edges := candidate.edges + [Edge(before, after)];
    DeletableIsInside(g, p, n);
    assert Ids(Done) == {};
    assert gone == Ids(Head(SiteOf(p.body, p.start, p.end, n).chain));
    assert candidate.View() == DeletionCandidate(g, p, n);
    r := RaiseIfInvalid(candidate.View(), rest);
    CandidateCommitted(g, n, rest, p, r);
  }
}

/**
 `_matching_block`: the forward walk from a split that balances nested gateways. On a flattening
 it finds the split's own join and exactly the nodes strictly between the two.
 */
module MatchingBlock {
  import opened Model
  import opened Blocks
  import opened Marking
  import opened Validator
  import opened Structure

  /** The nesting depth with which the walk arrives at a node, in a term entered at depth `d`. */
  function Arrival(b: Block, d: int, n: Id): int {
    match b
    case Task(id, _, next) => if n == id then d else Arrival(next, d, n)
    case Gateway(_, s, j, branches, next) =>
      if n == s then d
      else if n == j then d + 1
      else if n in Ids(branches) then Arrival(branches, d + 1, n)
      else Arrival(next, d, n)
    case Branch(body, more) => if n in Ids(body) then Arrival(body, d, n) else Arrival(more, d, n)
    case _ => d
  }

  function Turn(t: NodeType): int {
    if t.IsSplit() then 1 else if t.IsJoin() then -1 else 0
  }

  /** The depth with which the walk leaves `n`, which is the entry node or inside the term. */
  function Leaving(nodes: map<Id, NodeType>, b: Block, src: Id, d: int, n: Id): int
    requires n != src ==> n in nodes
  {
    if n == src then d else Arrival(b, d, n) + Turn(nodes[n])
  }

  /** Every way to a node arrives with the same depth. */
  lemma {:induction false} ArrivalStep(nodes: map<Id, NodeType>, b: Block, src: Id, dst: Id, d: int, e: Edge)
    requires (IsChain(b) || IsBundle(b)) && Distinct(b) && Typed(nodes, b) && src !in Ids(b) && dst !in Ids(b)
    requires e in EdgeBag(b, src, dst)
    ensures e.source in Ids(b) + {src} && e.target in Ids(b) + {dst} && (e.source != src ==> e.source in nodes)
    ensures Leaving(nodes, b, src, d, e.source) == if e.target == dst then d else Arrival(b, d, e.target)
    decreases b, 1
  {
    EdgeEnds(b, src, dst, e);
    match b
    case Done =>
    case Task(id, _, next) =>
      if e != Edge(src, id) {
        ArrivalStep(nodes, next, id, dst, d, e);
      }
    case Gateway(_, s, j, branches, next) => ArrivalAtGateway(nodes, b, src, dst, d, e);
    case NoBranch =>
    case Branch(body, more) =>
      if e in EdgeBag(body, src, dst) {
        ArrivalStep(nodes, body, src, dst, d, e);
      } else {
        ArrivalStep(nodes, more, src, dst, d, e);
      }
  }

  lemma {:induction false} ArrivalAtGateway(nodes: map<Id, NodeType>, b: Block, src: Id, dst: Id, d: int, e: Edge)
    requires b.Gateway? && IsChain(b) && Distinct(b) && Typed(nodes, b) && src !in Ids(b) && dst !in Ids(b)
    requires e in EdgeBag(b, src, dst) && e.source in Ids(b) + {src} && e.target in Ids(b) + {dst}
    ensures e.source != src ==> e.source in nodes
    ensures Leaving(nodes, b, src, d, e.source) == if e.target == dst then d else Arrival(b, d, e.target)
    decreases b, 0
  {
    var s, j := b.split, b.join;
    if e == Edge(src, s) {
    } else if e in EdgeBag(b.branches, s, j) {
      ArrivalStep(nodes, b.branches, s, j, d + 1, e);
      assert e.source != src && e.target != dst;
    } else {
      ArrivalStep(nodes, b.next, j, dst, d, e);
      assert e.source != src;
    }
  }

  datatype Frame = Frame(node: Id, depth: int)

  function Frames(out: seq<Edge>, depth: int): (fs: seq<Frame>)
    ensures forall f :: f in fs <==> f.depth == depth && exists e :: e in out && e.target == f.node
  {
    if out == [] then [] else [Frame(out[0].target, depth)] + Frames(out[1..], depth)
  }

  /** The block that the walk from `split` explores. */
  ghost predicate Explores(g: Schema, split: Id, join: Id, branches: Block) {
    && IsBundle(branches) && Width(branches) >= 1 && split != join
    && Embedded(g.nodes, multiset(g.edges), branches, split, join)
    && split in g.nodes && g.nodes[split].IsSplit() && join in g.nodes && g.nodes[join].IsJoin()
    && (forall e :: e in g.edges && e.source == split ==> e in EdgeBag(branches, split, join))
  }

  /** What the stack may hold: the closing join at depth 0, or an inner node at its arrival depth. */
  ghost predicate FrameOk(join: Id, branches: Block, f: Frame) {
    if f.node == join then f.depth == 0 else f.node in Ids(branches) && f.depth == Arrival(branches, 0, f.node)
  }

  lemma OutgoingFrames(g: Schema, split: Id, join: Id, branches: Block, n: Id)
    requires Explores(g, split, join, branches) && n in Ids(branches) + {split}
    ensures n in g.nodes
    ensures var d := Leaving(g.nodes, branches, split, 0, n);
            forall f :: f in Frames(Outgoing(g.edges, n), d) ==> FrameOk(join, branches, f)
  {
    if n in Ids(branches) { InsideTyped(g.nodes, branches, n); }
    var d := Leaving(g.nodes, branches, split, 0, n);
    forall f | f in Frames(Outgoing(g.edges, n), d) ensures FrameOk(join, branches, f) {
      var e :| e in Outgoing(g.edges, n) && e.target == f.node;
      assert multiset(g.edges)[e] > 0;
      ArrivalStep(g.nodes, branches, split, join, 0, e);
    }
  }

  lemma InsideTyped(nodes: map<Id, NodeType>, b: Block, n: Id)
    requires Typed(nodes, b) && n in Ids(b)
    ensures n in nodes
  {}

  /** A set of nodes closed under the block's edges and holding its entries is the whole block. */
  lemma ClosedIsAll(branches: Block, split: Id, join: Id, inner: set<Id>)
    requires IsBundle(branches) && split !in Ids(branches) && join !in Ids(branches)
    requires inner <= Ids(branches)
    requires forall e :: e in EdgeBag(branches, split, join) && e.source in inner + {split} ==> e.target in inner + {join}
    ensures inner == Ids(branches)
  {
    var edges, closed := EdgeList(branches, split, join), inner + {split, join};
    EdgeListBag(branches, split, join);
    forall e | e in edges && e.source in closed ensures e.target in closed {
      assert e in multiset(edges);
      EdgeEnds(branches, split, join, e);
      if split == join { assert e.source in inner + {split}; }
    }
    forall n | n in Ids(branches) ensures n in inner {
      OnTheWay(branches, split, join, edges, n);
      ClosedContains(edges, closed, split, n);
    }
  }

  /** Where an edge leads that leaves the explored part. */
  ghost predicate Noted(join: Id, inner: set<Id>, matching: Option<Id>, stack: seq<Frame>, n: Id) {
    n in inner || (n == join && matching == Some(join)) || exists f :: f in stack && f.node == n
  }

  /** The loop invariant: what is on the stack is in order, and nothing reached is forgotten. */
  ghost predicate Walking(g: Schema, split: Id, join: Id, branches: Block,
                          inner: set<Id>, matching: Option<Id>, stack: seq<Frame>) {
    && inner <= Ids(branches) && (matching == None || matching == Some(join))
    && (forall f :: f in stack ==> FrameOk(join, branches, f))
    && (forall e :: e in g.edges && e.source in inner + {split} ==> Noted(join, inner, matching, stack, e.target))
  }

  lemma WalkStarts(g: Schema, split: Id, join: Id, branches: Block)
    requires Explores(g, split, join, branches)
    ensures Walking(g, split, join, branches, {}, None, Frames(Outgoing(g.edges, split), 0))
  {
    OutgoingFrames(g, split, join, branches, split);
    forall e | e in g.edges && e.source == split
      ensures Noted(join, {}, None, Frames(Outgoing(g.edges, split), 0), e.target)
    {
      assert e in Outgoing(g.edges, split) && Frame(e.target, 0) in Frames(Outgoing(g.edges, split), 0);
    }
  }

  lemma WalkMeetsJoin(g: Schema, split: Id, join: Id, branches: Block,
                      inner: set<Id>, matching: Option<Id>, stack: seq<Frame>, top: Frame)
    requires Walking(g, split, join, branches, inner, matching, stack + [top]) && top.node == join
    ensures Walking(g, split, join, branches, inner, Some(join), stack)
  {
    forall e | e in g.edges && e.source in inner + {split} ensures Noted(join, inner, Some(join), stack, e.target) {
      assert Noted(join, inner, matching, stack + [top], e.target);
    }
  }

  lemma WalkMeetsSeen(g: Schema, split: Id, join: Id, branches: Block,
                      inner: set<Id>, matching: Option<Id>, stack: seq<Frame>, top: Frame)
    requires Walking(g, split, join, branches, inner, matching, stack + [top]) && top.node in inner
    ensures Walking(g, split, join, branches, inner, matching, stack)
  {
    forall e | e in g.edges && e.source in inner + {split} ensures Noted(join, inner, matching, stack, e.target) {
      assert Noted(join, inner, matching, stack + [top], e.target);
    }
  }

  lemma WalkEnters(g: Schema, split: Id, join: Id, branches: Block,
                   inner: set<Id>, matching: Option<Id>, stack: seq<Frame>, top: Frame)
    requires Explores(g, split, join, branches)
    requires Walking(g, split, join, branches, inner, matching, stack + [top]) && top.node != join
    ensures top.node in Ids(branches) && top.node in g.nodes
    ensures Walking(g, split, join, branches, inner + {top.node}, matching,
                    stack + Frames(Outgoing(g.edges, top.node), top.depth + Turn(g.nodes[top.node])))
  {
    assert FrameOk(join, branches, top) by { assert top in stack + [top]; }
    OutgoingFrames(g, split, join, branches, top.node);
    var depth := top.depth + Turn(g.nodes[top.node]);
    var out := Outgoing(g.edges, top.node);
    forall e | e in g.edges && e.source in inner + {top.node} + {split}
      ensures Noted(join, inner + {top.node}, matching, stack + Frames(out, depth), e.target)
    {
      if e.source == top.node {
        assert e in out && Frame(e.target, depth) in Frames(out, depth);
      } else {
        assert Noted(join, inner, matching, stack + [top], e.target);
      }
    }
  }

  /** `_matching_block` */
  method Find(g: Schema, split: Id, ghost join: Id, ghost branches: Block) returns (r: Result<(Id, set<Id>)>)
    requires Explores(g, split, join, branches)
    ensures r == Ok((join, Ids(branches)))
  {
    var inner: set<Id> := {};
    var matching := None;
    var stack := Frames(Outgoing(g.edges, split), 0);
    WalkStarts(g, split, join, branches);
    while stack != []
      invariant Walking(g, split, join, branches, inner, matching, stack)
      decreases Ids(branches) - inner, |stack|
    {
      var top := stack[|stack| - 1];
      assert stack == stack[..|stack| - 1] + [top] && FrameOk(join, branches, top);
      stack := stack[..|stack| - 1];
      if top.node != join { InsideTyped(g.nodes, branches, top.node); }
      InnerJoinsAreDeep(g.nodes, branches, 0, top.node);
      if g.nodes[top.node].IsJoin() && top.depth == 0 {
        WalkMeetsJoin(g, split, join, branches, inner, matching, stack, top);
        matching := Some(top.node);
      } else if top.node in inner {
        WalkMeetsSeen(g, split, join, branches, inner, matching, stack, top);
      } else {
        WalkEnters(g, split, join, branches, inner, matching, stack, top);
        inner := inner + {top.node};
        stack := stack + Frames(Outgoing(g.edges, top.node), top.depth + Turn(g.nodes[top.node]));
      }
    }
    Finished(g, split, join, branches, inner, matching);
    if matching.None? { return Err(Incorrect("OP")); }
    return Ok((matching.value, inner));
  }

  /** Joins inside the block are met at a positive depth. */
  lemma {:induction false} InnerJoinsAreDeep(nodes: map<Id, NodeType>, b: Block, d: int, n: Id)
    requires (IsChain(b) || IsBundle(b)) && Distinct(b) && Typed(nodes, b)
    ensures n in Ids(b) && n in nodes && nodes[n].IsJoin() ==> Arrival(b, d, n) > d
    ensures n in Ids(b) ==> Arrival(b, d, n) >= d
  {
    match b
    case Task(_, _, next) => InnerJoinsAreDeep(nodes, next, d, n);
    case Gateway(_, _, _, branches, next) =>
      InnerJoinsAreDeep(nodes, branches, d + 1, n);
      InnerJoinsAreDeep(nodes, next, d, n);
    case Branch(body, more) =>
      InnerJoinsAreDeep(nodes, body, d, n);
      InnerJoinsAreDeep(nodes, more, d, n);
    case _ =>
  }

  lemma Finished(g: Schema, split: Id, join: Id, branches: Block, inner: set<Id>, matching: Option<Id>)
    requires Explores(g, split, join, branches) && inner <= Ids(branches) && (matching == None || matching == Some(join))
    requires forall e :: e in g.edges && e.source in inner + {split} ==> Noted(join, inner, matching, [], e.target)
    ensures inner == Ids(branches) && matching == Some(join)
  {
    forall e | e in EdgeBag(branches, split, join) && e.source in inner + {split} ensures e.target in inner + {join} {
      assert multiset(g.edges)[e] > 0;
      assert e in g.edges;
    }
    ClosedIsAll(branches, split, join, inner);
    var p := BundlePort(branches, split, join);
    EdgeEnds(branches, split, join, p.exit);
    assert multiset(g.edges)[p.exit] > 0;
    assert p.exit in g.edges;
  }
}

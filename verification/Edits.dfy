/**
 Edits of block terms. An edit is applied at the block that owns a given node id; the lemmas
 say what this does to the ids, the types and the flattened edges of the whole term.
 */
module Edits {
  import opened Model
  import opened Blocks

  datatype Edit =
    | Insert(chain: Block)     // put a chain right after the owning block
    | Remove                   // remove the owning block
    | DropBranch(sole: Id)     // remove the branch whose only content is the step `sole`
    | Dissolve(sole: Id)       // the same, and replace the gateway by the one branch left

  function Append(b: Block, tail: Block): Block {
    match b
    case Task(id, kind, next) => Task(id, kind, Append(next, tail))
    case Gateway(logic, s, j, branches, next) => Gateway(logic, s, j, branches, Append(next, tail))
    case _ => tail
  }

  /** The bundle without the branch that consists of the step `n` alone. */
  function Without(b: Block, n: Id): Block {
    if !b.Branch? then b
    else if b.body.Task? && b.body.id == n && b.body.next.Done? then b.more
    else Branch(b.body, Without(b.more, n))
  }

  /** Some branch of the bundle consists of the step `n` alone. */
  predicate HasSole(b: Block, n: Id) {
    b.Branch? && ((b.body.Task? && b.body.id == n && b.body.next.Done?) || HasSole(b.more, n))
  }

  predicate Owns(b: Block, n: Id) {
    match b
    case Task(id, _, _) => id == n
    case Gateway(_, s, j, _, _) => s == n || j == n
    case _ => false
  }

  /** The edit at the head of a chain. */
  function Apply(e: Edit, b: Block): Block {
    match b
    case Task(id, kind, next) =>
      (match e
       case Insert(chain) => Task(id, kind, Append(chain, next))
       case Remove => next
       case _ => b)
    case Gateway(logic, s, j, branches, next) =>
      (match e
       case Insert(chain) => Gateway(logic, s, j, branches, Append(chain, next))
       case Remove => next
       case DropBranch(n) => Gateway(logic, s, j, Without(branches, n), next)
       case Dissolve(n) =>
         var left := Without(branches, n);
         if left.Branch? then Append(left.body, next) else b)
    case _ => b
  }

  function EditAt(b: Block, n: Id, e: Edit): Block {
    if Owns(b, n) then Apply(e, b) else
    match b
    case Task(id, kind, next) => Task(id, kind, EditAt(next, n, e))
    case Gateway(logic, s, j, branches, next) => Gateway(logic, s, j, EditAt(branches, n, e), EditAt(next, n, e))
    case Branch(body, more) => Branch(EditAt(body, n, e), EditAt(more, n, e))
    case _ => b
  }

  /** A chain with the nodes before and after it. */
  datatype Site = Site(chain: Block, before: Id, after: Id)

  /** The chain that starts with the block owning `n`. */
  function SiteOf(b: Block, src: Id, dst: Id, n: Id): Site {
    if Owns(b, n) then Site(b, src, dst) else
    match b
    case Task(id, _, next) => SiteOf(next, id, dst, n)
    case Gateway(_, s, j, branches, next) =>
      if n in Ids(branches) then SiteOf(branches, s, j, n) else SiteOf(next, j, dst, n)
    case Branch(body, more) =>
      if n in Ids(body) then SiteOf(body, src, dst, n) else SiteOf(more, src, dst, n)
    case _ => Site(b, src, dst)
  }

  function SiteBag(s: Site): multiset<Edge> {
    EdgeBag(s.chain, s.before, s.after)
  }

  lemma {:induction false} SiteInside(b: Block, src: Id, dst: Id, n: Id)
    requires (IsChain(b) || IsBundle(b)) && n in Ids(b)
    ensures var s := SiteOf(b, src, dst, n); IsChain(s.chain) && Owns(s.chain, n) && Ids(s.chain) <= Ids(b)
  {
    if !Owns(b, n) {
      match b
      case Task(id, _, next) => SiteInside(next, id, dst, n);
      case Gateway(_, s, j, branches, next) =>
        if n in Ids(branches) { SiteInside(branches, s, j, n); } else { SiteInside(next, j, dst, n); }
      case Branch(body, more) =>
        if n in Ids(body) { SiteInside(body, src, dst, n); } else { SiteInside(more, src, dst, n); }
      case _ =>
    }
  }

  lemma {:induction false} SiteEmbedded(nodes: map<Id, NodeType>, bag: multiset<Edge>, b: Block, src: Id, dst: Id, n: Id)
    requires (IsChain(b) || IsBundle(b)) && n in Ids(b) && Embedded(nodes, bag, b, src, dst)
    ensures var s := SiteOf(b, src, dst, n); Embedded(nodes, bag, s.chain, s.before, s.after)
  {
    if !Owns(b, n) {
      match b
      case Task(id, _, next) =>
        EmbeddedTask(nodes, bag, b, src, dst);
        SiteEmbedded(nodes, bag, next, id, dst, n);
      case Gateway(_, s, j, branches, next) =>
        EmbeddedGateway(nodes, bag, b, src, dst);
        if n in Ids(branches) {
          SiteEmbedded(nodes, bag, branches, s, j, n);
        } else {
          SiteEmbedded(nodes, bag, next, j, dst, n);
        }
      case Branch(body, more) =>
        EmbeddedBranch(nodes, bag, b, src, dst);
        if n in Ids(body) {
          SiteEmbedded(nodes, bag, body, src, dst, n);
        } else {
          SiteEmbedded(nodes, bag, more, src, dst, n);
        }
      case _ =>
    }
  }

  lemma {:induction false} EditElsewhere(b: Block, n: Id, e: Edit)
    requires n !in Ids(b)
    ensures EditAt(b, n, e) == b
  {
    match b
    case Task(_, _, next) => EditElsewhere(next, n, e);
    case Gateway(_, _, _, branches, next) => EditElsewhere(branches, n, e); EditElsewhere(next, n, e);
    case Branch(body, more) => EditElsewhere(body, n, e); EditElsewhere(more, n, e);
    case _ =>
  }

  /** The edges around an edited part do not change. */
  lemma BagFrame(whole: multiset<Edge>, whole': multiset<Edge>, frame: multiset<Edge>, part: multiset<Edge>, part': multiset<Edge>,
                 gone: multiset<Edge>, come: multiset<Edge>)
    requires whole == frame + part && whole' == frame + part'
    requires part' + gone == part + come
    ensures whole' + gone == whole + come
  {
    assert whole' + gone == frame + (part' + gone) && whole + come == frame + (part + come);
  }

  /** The ids around an edited part do not change. */
  lemma SetFrame(whole: set<Id>, whole': set<Id>, frame: set<Id>, part: set<Id>, part': set<Id>, gone: set<Id>, come: set<Id>)
    requires whole == frame + part && whole' == frame + part' && frame !! part
    requires gone <= part && part' == part - gone + come
    ensures gone <= whole && whole' == whole - gone + come
  {}

  /** An edit replaces the edges of the owning chain by those of the edited chain. */
  lemma {:induction false} EditEdges(b: Block, src: Id, dst: Id, n: Id, e: Edit)
    requires Distinct(b) && n in Ids(b)
    ensures var s := SiteOf(b, src, dst, n);
            EdgeBag(EditAt(b, n, e), src, dst) + SiteBag(s) == EdgeBag(b, src, dst) + EdgeBag(Apply(e, s.chain), s.before, s.after)
  {
    if !Owns(b, n) {
      var site := SiteOf(b, src, dst, n);
      var gone, come := SiteBag(site), EdgeBag(Apply(e, site.chain), site.before, site.after);
      var whole, whole' := EdgeBag(b, src, dst), EdgeBag(EditAt(b, n, e), src, dst);
      match b
      case Task(id, _, next) =>
        EditEdges(next, id, dst, n, e);
        BagFrame(whole, whole', multiset{Edge(src, id)}, EdgeBag(next, id, dst), EdgeBag(EditAt(next, n, e), id, dst), gone, come);
      case Gateway(_, s, j, branches, next) =>
        var first, inner, rest := multiset{Edge(src, s)}, EdgeBag(branches, s, j), EdgeBag(next, j, dst);
        if n in Ids(branches) {
          EditEdges(branches, s, j, n, e);
          EditElsewhere(next, n, e);
          BagFrame(whole, whole', first + rest, inner, EdgeBag(EditAt(branches, n, e), s, j), gone, come);
        } else {
          EditElsewhere(branches, n, e);
          EditEdges(next, j, dst, n, e);
          BagFrame(whole, whole', first + inner, rest, EdgeBag(EditAt(next, n, e), j, dst), gone, come);
        }
      case Branch(body, more) =>
        var left, right := EdgeBag(body, src, dst), EdgeBag(more, src, dst);
        if n in Ids(body) {
          EditEdges(body, src, dst, n, e);
          EditElsewhere(more, n, e);
          BagFrame(whole, whole', right, left, EdgeBag(EditAt(body, n, e), src, dst), gone, come);
        } else {
          EditElsewhere(body, n, e);
          EditEdges(more, src, dst, n, e);
          BagFrame(whole, whole', left, right, EdgeBag(EditAt(more, n, e), src, dst), gone, come);
        }
      case _ =>
    }
  }

  lemma {:induction false} EditIds(b: Block, src: Id, dst: Id, n: Id, e: Edit)
    requires (IsChain(b) || IsBundle(b)) && Distinct(b) && n in Ids(b)
    ensures var s := SiteOf(b, src, dst, n).chain;
            Ids(s) <= Ids(b) && Ids(EditAt(b, n, e)) == Ids(b) - Ids(s) + Ids(Apply(e, s))
  {
    if !Owns(b, n) {
      var chain := SiteOf(b, src, dst, n).chain;
      var gone, come, whole, whole' := Ids(chain), Ids(Apply(e, chain)), Ids(b), Ids(EditAt(b, n, e));
      match b
      case Task(id, _, next) =>
        EditIds(next, id, dst, n, e);
        SetFrame(whole, whole', {id}, Ids(next), Ids(EditAt(next, n, e)), gone, come);
      case Gateway(_, s, j, branches, next) =>
        if n in Ids(branches) {
          EditIds(branches, s, j, n, e);
          EditElsewhere(next, n, e);
          SetFrame(whole, whole', {s, j} + Ids(next), Ids(branches), Ids(EditAt(branches, n, e)), gone, come);
        } else {
          EditElsewhere(branches, n, e);
          EditIds(next, j, dst, n, e);
          SetFrame(whole, whole', {s, j} + Ids(branches), Ids(next), Ids(EditAt(next, n, e)), gone, come);
        }
      case Branch(body, more) =>
        if n in Ids(body) {
          EditIds(body, src, dst, n, e);
          EditElsewhere(more, n, e);
          SetFrame(whole, whole', Ids(more), Ids(body), Ids(EditAt(body, n, e)), gone, come);
        } else {
          EditElsewhere(body, n, e);
          EditIds(more, src, dst, n, e);
          SetFrame(whole, whole', Ids(body), Ids(more), Ids(EditAt(more, n, e)), gone, come);
        }
      case _ =>
    }
  }

  /** What an edit must bring to its site: a chain without repetition whose new ids avoid `taken`. */
  ghost predicate FitsAt(e: Edit, chain: Block, taken: set<Id>) {
    && IsChain(Apply(e, chain)) && Distinct(Apply(e, chain))
    && (Ids(Apply(e, chain)) - Ids(chain)) !! taken
  }

  lemma {:induction false} EditDistinct(b: Block, src: Id, dst: Id, n: Id, e: Edit, taken: set<Id>)
    requires (IsChain(b) || IsBundle(b)) && Distinct(b) && n in Ids(b) && Ids(b) <= taken
    requires FitsAt(e, SiteOf(b, src, dst, n).chain, taken)
    ensures Distinct(EditAt(b, n, e))
  {
    if !Owns(b, n) {
      match b
      case Task(id, _, next) =>
        EditIds(next, id, dst, n, e);
        EditDistinct(next, id, dst, n, e, taken);
      case Gateway(_, s, j, branches, next) =>
        if n in Ids(branches) {
          EditIds(branches, s, j, n, e);
          EditDistinct(branches, s, j, n, e, taken);
          EditElsewhere(next, n, e);
        } else {
          EditElsewhere(branches, n, e);
          EditIds(next, j, dst, n, e);
          EditDistinct(next, j, dst, n, e, taken);
        }
      case Branch(body, more) =>
        if n in Ids(body) {
          EditIds(body, src, dst, n, e);
          EditDistinct(body, src, dst, n, e, taken);
          EditElsewhere(more, n, e);
        } else {
          EditElsewhere(body, n, e);
          EditIds(more, src, dst, n, e);
          EditDistinct(more, src, dst, n, e, taken);
        }
      case _ =>
    }
  }

  lemma {:induction false} EditShape(b: Block, src: Id, dst: Id, n: Id, e: Edit)
    requires (IsChain(b) || IsBundle(b)) && n in Ids(b) && Distinct(b)
    requires IsChain(Apply(e, SiteOf(b, src, dst, n).chain))
    ensures IsChain(b) ==> IsChain(EditAt(b, n, e))
    ensures IsBundle(b) ==> IsBundle(EditAt(b, n, e)) && Width(EditAt(b, n, e)) == Width(b)
  {
    if !Owns(b, n) {
      match b
      case Task(id, _, next) => EditShape(next, id, dst, n, e);
      case Gateway(_, s, j, branches, next) =>
        if n in Ids(branches) {
          EditShape(branches, s, j, n, e);
          EditElsewhere(next, n, e);
        } else {
          EditElsewhere(branches, n, e);
          EditShape(next, j, dst, n, e);
        }
      case Branch(body, more) =>
        if n in Ids(body) {
          EditShape(body, src, dst, n, e);
          EditElsewhere(more, n, e);
        } else {
          EditElsewhere(body, n, e);
          EditShape(more, src, dst, n, e);
        }
      case _ =>
    }
  }

  lemma {:induction false} TypedElsewhere(nodes: map<Id, NodeType>, nodes': map<Id, NodeType>, b: Block)
    requires Typed(nodes, b) && forall n :: n in Ids(b) ==> n in nodes' && n in nodes && nodes'[n] == nodes[n]
    ensures Typed(nodes', b)
  {
    match b
    case Task(_, _, next) => TypedElsewhere(nodes, nodes', next);
    case Gateway(_, _, _, branches, next) => TypedElsewhere(nodes, nodes', branches); TypedElsewhere(nodes, nodes', next);
    case Branch(body, more) => TypedElsewhere(nodes, nodes', body); TypedElsewhere(nodes, nodes', more);
    case _ =>
  }

  /** New node types that agree outside the site type the edited term. */
  lemma {:induction false} EditTyped(nodes: map<Id, NodeType>, nodes': map<Id, NodeType>, b: Block, src: Id, dst: Id, n: Id, e: Edit)
    requires (IsChain(b) || IsBundle(b)) && Distinct(b) && n in Ids(b) && Typed(nodes, b)
    requires var s := SiteOf(b, src, dst, n).chain;
             && Typed(nodes', Apply(e, s))
             && forall m :: m in Ids(b) - Ids(s) ==> m in nodes' && m in nodes && nodes'[m] == nodes[m]
    ensures Typed(nodes', EditAt(b, n, e))
  {
    if !Owns(b, n) {
      match b
      case Task(id, _, next) =>
        SiteInside(next, id, dst, n);
        EditTyped(nodes, nodes', next, id, dst, n, e);
      case Gateway(_, s, j, branches, next) =>
        if n in Ids(branches) {
          SiteInside(branches, s, j, n);
          EditTyped(nodes, nodes', branches, s, j, n, e);
          EditElsewhere(next, n, e);
          TypedElsewhere(nodes, nodes', next);
        } else {
          SiteInside(next, j, dst, n);
          EditElsewhere(branches, n, e);
          TypedElsewhere(nodes, nodes', branches);
          EditTyped(nodes, nodes', next, j, dst, n, e);
        }
      case Branch(body, more) =>
        if n in Ids(body) {
          SiteInside(body, src, dst, n);
          EditTyped(nodes, nodes', body, src, dst, n, e);
          EditElsewhere(more, n, e);
          TypedElsewhere(nodes, nodes', more);
        } else {
          SiteInside(more, src, dst, n);
          EditElsewhere(body, n, e);
          TypedElsewhere(nodes, nodes', body);
          EditTyped(nodes, nodes', more, src, dst, n, e);
        }
      case _ =>
    }
  }

  // --- edits of a whole process --------------------------------------------------

  /** An insertion after START goes to the front of the body. */
  function EditProcess(p: Process, n: Id, e: Edit): Process {
    if n == p.start && e.Insert? then p.(body := Append(e.chain, p.body)) else p.(body := EditAt(p.body, n, e))
  }

  /** `g'` is `g` with the chain at the site replaced by the edited chain, nodes and edges. */
  ghost predicate EditsTo(g: Schema, g': Schema, s: Site, e: Edit) {
    var c := Apply(e, s.chain);
    && FitsAt(e, s.chain, g.nodes.Keys)
    && g'.nodes.Keys == g.nodes.Keys - Ids(s.chain) + Ids(c)
    && (forall m :: m in g.nodes && m !in Ids(s.chain) ==> g'.nodes[m] == g.nodes[m])
    && Typed(g'.nodes, c)
    && multiset(g'.edges) + SiteBag(s) == multiset(g.edges) + EdgeBag(c, s.before, s.after)
  }

  /** The edited term is a term again, over the ids of the new schema. */
  lemma EditedForm(g: Schema, g': Schema, p: Process, n: Id, e: Edit)
    requires Flattens(g, p) && n in Ids(p.body) && EditsTo(g, g', SiteOf(p.body, p.start, p.end, n), e)
    ensures WellFormed(p.(body := EditAt(p.body, n, e)))
    ensures g'.nodes.Keys == Ids(EditAt(p.body, n, e)) + {p.start, p.end}
  {
    SiteInside(p.body, p.start, p.end, n);
    EditIds(p.body, p.start, p.end, n, e);
    EditDistinct(p.body, p.start, p.end, n, e, g.nodes.Keys);
    EditShape(p.body, p.start, p.end, n, e);
  }

  lemma EditedTypes(g: Schema, g': Schema, p: Process, n: Id, e: Edit)
    requires Flattens(g, p) && n in Ids(p.body) && EditsTo(g, g', SiteOf(p.body, p.start, p.end, n), e)
    ensures p.start in g'.nodes && g'.nodes[p.start] == START && p.end in g'.nodes && g'.nodes[p.end] == END
    ensures Typed(g'.nodes, EditAt(p.body, n, e))
  {
    SiteInside(p.body, p.start, p.end, n);
    EditTyped(g.nodes, g'.nodes, p.body, p.start, p.end, n, e);
  }

  lemma EditedEdges(g: Schema, g': Schema, p: Process, n: Id, e: Edit)
    requires Flattens(g, p) && n in Ids(p.body) && EditsTo(g, g', SiteOf(p.body, p.start, p.end, n), e)
    ensures multiset(g'.edges) == EdgeBag(EditAt(p.body, n, e), p.start, p.end)
  {
    EditEdges(p.body, p.start, p.end, n, e);
    BagCancel(multiset(g'.edges), EdgeBag(EditAt(p.body, n, e), p.start, p.end), SiteBag(SiteOf(p.body, p.start, p.end, n)));
  }

  /** Such a graph edit turns a flattening into the flattening of the edited term. */
  lemma EditFlattens(g: Schema, g': Schema, p: Process, n: Id, e: Edit)
    requires Flattens(g, p) && n in Ids(p.body) && EditsTo(g, g', SiteOf(p.body, p.start, p.end, n), e)
    ensures Flattens(g', p.(body := EditAt(p.body, n, e)))
  {
    EditedForm(g, g', p, n, e);
    EditedTypes(g, g', p, n, e);
    EditedEdges(g, g', p, n, e);
  }

  lemma BagCancel(a: multiset<Edge>, b: multiset<Edge>, c: multiset<Edge>)
    requires a + c == b + c
    ensures a == b
  {
    forall e ensures a[e] == b[e] { assert (a + c)[e] == (b + c)[e]; }
  }

  // --- the edges of one block and of appended chains ------------------------------------

  /** The edges of a chain but its entry edge. */
  function Inner(b: Block, dst: Id): multiset<Edge> {
    match b
    case Task(id, _, next) => EdgeBag(next, id, dst)
    case Gateway(_, s, j, branches, next) => EdgeBag(branches, s, j) + EdgeBag(next, j, dst)
    case _ => multiset{}
  }

  lemma EntryAndInner(b: Block, src: Id, dst: Id)
    requires IsChain(b)
    ensures EdgeBag(b, src, dst) == multiset{Edge(src, First(b, dst))} + Inner(b, dst)
  {}

  /** The first block of a chain on its own. */
  function Head(b: Block): Block {
    match b
    case Task(id, kind, _) => Task(id, kind, Done)
    case Gateway(logic, s, j, branches, _) => Gateway(logic, s, j, branches, Done)
    case _ => b
  }

  /** The node at which the first block of a chain is left. */
  function HeadEnd(b: Block, src: Id): Id {
    match b
    case Task(id, _, _) => id
    case Gateway(_, _, j, _, _) => j
    case _ => src
  }

  function Rest(b: Block): Block {
    if b.Task? || b.Gateway? then b.next else b
  }

  lemma HeadAndRest(b: Block, src: Id, dst: Id)
    requires IsChain(b) && !b.Done?
    ensures EdgeBag(b, src, dst) == EdgeBag(Head(b), src, First(b.next, dst)) + Inner(b.next, dst)
  {
    var end := HeadEnd(b, src);
    EntryAndInner(b.next, end, dst);
    assert EdgeBag(Done, end, First(b.next, dst)) == multiset{Edge(end, First(b.next, dst))};
  }

  lemma {:induction false} AppendEdges(b: Block, tail: Block, src: Id, dst: Id)
    requires IsChain(b) && IsChain(tail)
    ensures EdgeBag(Append(b, tail), src, dst) == EdgeBag(b, src, First(tail, dst)) + Inner(tail, dst)
  {
    match b
    case Done => EntryAndInner(tail, src, dst);
    case Task(id, _, next) =>
      AppendEdges(next, tail, id, dst);
      BagFrame(EdgeBag(b, src, First(tail, dst)), EdgeBag(Append(b, tail), src, dst), multiset{Edge(src, id)},
               EdgeBag(next, id, First(tail, dst)), EdgeBag(Append(next, tail), id, dst), multiset{}, Inner(tail, dst));
    case Gateway(_, s, j, branches, next) =>
      AppendEdges(next, tail, j, dst);
      BagFrame(EdgeBag(b, src, First(tail, dst)), EdgeBag(Append(b, tail), src, dst),
               multiset{Edge(src, s)} + EdgeBag(branches, s, j),
               EdgeBag(next, j, First(tail, dst)), EdgeBag(Append(next, tail), j, dst), multiset{}, Inner(tail, dst));
  }

  lemma {:induction false} AppendForm(b: Block, tail: Block, nodes: map<Id, NodeType>)
    requires IsChain(b) && IsChain(tail) && Distinct(b) && Distinct(tail) && Ids(b) !! Ids(tail)
    requires Typed(nodes, b) && Typed(nodes, tail)
    ensures IsChain(Append(b, tail)) && Distinct(Append(b, tail)) && Ids(Append(b, tail)) == Ids(b) + Ids(tail)
    ensures Typed(nodes, Append(b, tail))
  {
    match b
    case Done =>
    case Task(_, _, next) => AppendForm(next, tail, nodes);
    case Gateway(_, _, _, branches, next) => AppendForm(next, tail, nodes);
  }

  /** What an insertion does to the edges of its site. */
  lemma InsertAtSite(b: Block, src: Id, dst: Id, f: Block)
    requires IsChain(b) && !b.Done? && IsChain(f)
    ensures var end, h := HeadEnd(b, src), First(b.next, dst);
            EdgeBag(Apply(Insert(f), b), src, dst) + multiset{Edge(end, h)} == EdgeBag(b, src, dst) + EdgeBag(f, end, h)
  {
    var end, h := HeadEnd(b, src), First(b.next, dst);
    AppendEdges(f, b.next, end, dst);
    EntryAndInner(b.next, end, dst);
    var before := if b.Task? then multiset{Edge(src, b.id)} else multiset{Edge(src, b.split)} + EdgeBag(b.branches, b.split, b.join);
    BagFrame(EdgeBag(b, src, dst), EdgeBag(Apply(Insert(f), b), src, dst), before,
             EdgeBag(b.next, end, dst), EdgeBag(Append(f, b.next), end, dst), multiset{Edge(end, h)}, EdgeBag(f, end, h));
  }

  /** What a removal does to the edges of its site. */
  lemma RemoveAtSite(b: Block, src: Id, dst: Id)
    requires IsChain(b) && !b.Done?
    ensures EdgeBag(Apply(Remove, b), src, dst) + EdgeBag(Head(b), src, First(b.next, dst))
         == EdgeBag(b, src, dst) + multiset{Edge(src, First(b.next, dst))}
  {
    HeadAndRest(b, src, dst);
    EntryAndInner(b.next, src, dst);
  }

  lemma {:induction false} WithoutEdges(b: Block, src: Id, dst: Id, n: Id)
    requires IsBundle(b) && HasSole(b, n)
    ensures EdgeBag(Without(b, n), src, dst) + multiset{Edge(src, n), Edge(n, dst)} == EdgeBag(b, src, dst)
    ensures IsBundle(Without(b, n)) && Width(Without(b, n)) == Width(b) - 1
  {
    if b.body.Task? && b.body.id == n && b.body.next.Done? {
      assert EdgeBag(b.body, src, dst) == multiset{Edge(src, n), Edge(n, dst)};
    } else {
      WithoutEdges(b.more, src, dst, n);
      BagFrame(EdgeBag(Without(b, n), src, dst), EdgeBag(b, src, dst), EdgeBag(b.body, src, dst),
               EdgeBag(Without(b.more, n), src, dst), EdgeBag(b.more, src, dst), multiset{}, multiset{Edge(src, n), Edge(n, dst)});
    }
  }

  lemma {:induction false} WithoutForm(b: Block, n: Id, nodes: map<Id, NodeType>)
    requires IsBundle(b) && HasSole(b, n) && Distinct(b) && Typed(nodes, b)
    ensures Distinct(Without(b, n)) && Ids(Without(b, n)) == Ids(b) - {n} && n in Ids(b) && Typed(nodes, Without(b, n))
  {
    if b.body.Task? && b.body.id == n && b.body.next.Done? {
      assert Ids(b.body) == {n};
    } else {
      WithoutForm(b.more, n, nodes);
    }
  }

  /** The edges strictly inside the first block of a chain. */
  function HeadCore(b: Block): multiset<Edge> {
    if b.Gateway? then EdgeBag(b.branches, b.split, b.join) else multiset{}
  }

  /** The edges strictly inside a chain that has at least one block. */
  function Core(b: Block): multiset<Edge>
    requires b.Task? || b.Gateway?
  {
    HeadCore(b) +
    if b.next.Task? || b.next.Gateway?
    then multiset{Edge(HeadEnd(b, ""), First(b.next, ""))} + Core(b.next) else multiset{}
  }

  lemma {:induction false} EntryCoreExit(b: Block, src: Id, dst: Id)
    requires IsChain(b) && !b.Done?
    ensures EdgeBag(b, src, dst) == multiset{Edge(src, First(b, dst))} + Core(b) + multiset{Edge(Last(b, src), dst)}
  {
    var end := HeadEnd(b, src);
    var entry, exit := multiset{Edge(src, First(b, dst))}, multiset{Edge(Last(b, src), dst)};
    assert EdgeBag(b, src, dst) == entry + HeadCore(b) + EdgeBag(b.next, end, dst);
    if b.next.Done? {
      assert b.next == Done && Last(b.next, end) == end;
      assert EdgeBag(b.next, end, dst) == exit;
    } else {
      EntryCoreExit(b.next, end, dst);
      var link := multiset{Edge(end, First(b.next, ""))};
      assert EdgeBag(b.next, end, dst) == link + Core(b.next) + exit;
      Regroup(entry, HeadCore(b), link, Core(b.next), exit);
    }
  }

  lemma Regroup(a: multiset<Edge>, b: multiset<Edge>, c: multiset<Edge>, d: multiset<Edge>, e: multiset<Edge>)
    ensures a + b + (c + d + e) == a + (b + (c + d)) + e
  {}
}

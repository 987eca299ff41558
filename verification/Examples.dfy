/**
 Small diagrams at which the general results take effect: for every gap the other modules describe,
 one schema and one marking that fall into it. Ids are arbitrary, as long as they differ.
 */
module Examples {
  import opened Model
  import opened Blocks
  import opened Edits
  import opened Marking
  import opened Validator
  import opened DataFlow
  import opened Structure
  import opened Execution
  import opened Operations
  import opened Deletion
  import opened Remnant
  import opened Adhoc
  import opened Migration

  /** The ids are pairwise different. */
  predicate Apart(ids: seq<Id>) {
    forall i, j :: 0 <= i < j < |ids| ==> ids[i] != ids[j]
  }

  /** The types a term gives to its nodes. */
  function NodesOf(b: Block): (r: map<Id, NodeType>)
    ensures r.Keys == Ids(b)
  {
    match b
    case Task(id, kind, next) => NodesOf(next)[id := kind]
    case Gateway(logic, s, j, branches, next) => (NodesOf(branches) + NodesOf(next))[s := logic.SplitType()][j := logic.JoinType()]
    case Branch(body, more) => NodesOf(body) + NodesOf(more)
    case _ => map[]
  }

  lemma {:induction false} NodesTyped(b: Block)
    requires Distinct(b)
    ensures Typed(NodesOf(b), b)
  {
    match b
    case Task(id, kind, next) =>
      NodesTyped(next);
      RetypeElsewhere(NodesOf(next), next, id, kind);
    case Gateway(logic, s, j, branches, next) =>
      NodesTyped(branches);
      NodesTyped(next);
      var inner := NodesOf(branches) + NodesOf(next);
      TypedElsewhere(NodesOf(branches), inner, branches);
      TypedElsewhere(NodesOf(next), inner, next);
      RetypeElsewhere(inner, branches, s, logic.SplitType());
      RetypeElsewhere(inner[s := logic.SplitType()], branches, j, logic.JoinType());
      RetypeElsewhere(inner, next, s, logic.SplitType());
      RetypeElsewhere(inner[s := logic.SplitType()], next, j, logic.JoinType());
    case Branch(body, more) =>
      NodesTyped(body);
      NodesTyped(more);
      TypedElsewhere(NodesOf(body), NodesOf(body) + NodesOf(more), body);
      TypedElsewhere(NodesOf(more), NodesOf(body) + NodesOf(more), more);
    case _ =>
  }

  /** The released schema that a term describes. */
  function Drawn(p: Process, decisions: map<Id, XorDecision>): Schema {
    Schema(RELEASED, 1, NodesOf(p.body)[p.start := START][p.end := END], EdgeList(p.body, p.start, p.end), decisions)
  }

  /** Every well-formed term has a flattening. */
  lemma DrawnFlattens(p: Process, decisions: map<Id, XorDecision>)
    requires WellFormed(p)
    ensures Flattens(Drawn(p, decisions), p)
  {
    NodesTyped(p.body);
    RetypeElsewhere(NodesOf(p.body), p.body, p.start, START);
    RetypeElsewhere(NodesOf(p.body)[p.start := START], p.body, p.end, END);
    EdgeListBag(p.body, p.start, p.end);
  }

  // --- a choice between two activities -----------------------------------------------------

  /** st -> x, x -> a -> j and x -> b -> j, j -> en */
  function Choosing(st: Id, en: Id, x: Id, j: Id, a: Id, b: Id): Process {
    Process(st, en, Gateway(XOR, x, j, Branch(Task(a, ACTIVITY, Done), Branch(Task(b, ACTIVITY, Done), NoBranch)), Done))
  }

  lemma TwoTasks(a: Id, b: Id, s: Id, j: Id)
    requires a != b
    ensures var bs := Branch(Task(a, ACTIVITY, Done), Branch(Task(b, ACTIVITY, Done), NoBranch));
            && IsBundle(bs) && Width(bs) == 2 && Ids(bs) == {a, b} && Distinct(bs)
            && NodesOf(bs) == map[a := ACTIVITY, b := ACTIVITY]
            && EdgeList(bs, s, j) == [Edge(s, a), Edge(a, j), Edge(s, b), Edge(b, j)]
  {
    OneStep(a, ACTIVITY, Done, s, j);
    OneStep(b, ACTIVITY, Done, s, j);
    LastTask(Task(b, ACTIVITY, Done), NoBranch, s, j);
  }

  lemma OneStep(a: Id, kind: NodeType, next: Block, st: Id, en: Id)
    requires next.Done? && kind.IsStep()
    ensures var t := Task(a, kind, next);
            && IsChain(t) && Ids(t) == {a} && Distinct(t) && NodesOf(t) == map[a := kind] && EdgeList(t, st, en) == [Edge(st, a), Edge(a, en)]
  {}

  lemma LastTask(t: Block, more: Block, s: Id, j: Id)
    requires IsChain(t) && Distinct(t) && more.NoBranch?
    ensures var bs := Branch(t, more);
            IsBundle(bs) && Width(bs) == 1 && Ids(bs) == Ids(t) && Distinct(bs) && NodesOf(bs) == NodesOf(t) && EdgeList(bs, s, j) == EdgeList(t, s, j)
  {}

  lemma ChoosingForm(st: Id, en: Id, x: Id, j: Id, a: Id, b: Id)
    requires Apart([st, en, x, j, a, b])
    ensures WellFormed(Choosing(st, en, x, j, a, b)) && Ids(Choosing(st, en, x, j, a, b).body) == {x, j, a, b}
  {
    SixApart(st, en, x, j, a, b);
    TwoTasks(a, b, x, j);
    assert Ids(Done) == {};
  }

  lemma ChoosingDrawn(st: Id, en: Id, x: Id, j: Id, a: Id, b: Id, ds: map<Id, XorDecision>)
    requires Apart([st, en, x, j, a, b])
    ensures var g := Drawn(Choosing(st, en, x, j, a, b), ds);
            && g.nodes == map[x := XOR_SPLIT, j := XOR_JOIN, a := ACTIVITY, b := ACTIVITY, st := START, en := END]
            && g.edges == [Edge(st, x), Edge(x, a), Edge(a, j), Edge(x, b), Edge(b, j), Edge(j, en)]
  {
    SixApart(st, en, x, j, a, b);
    TwoTasks(a, b, x, j);
    assert NodesOf(Done) == map[] && EdgeList(Done, j, en) == [Edge(j, en)];
  }

  /** The marking in which `b` was chosen and is to be worked on. */
  function Chosen(st: Id, en: Id, x: Id, j: Id, a: Id, b: Id, data: map<Id, Value>): Instance {
    Instance(false,
             map[st := COMPLETED, x := COMPLETED, a := SKIPPED, b := ACTIVATED, j := NOT_ACTIVATED, en := NOT_ACTIVATED],
             map[Edge(st, x) := TRUE_SIGNALED, Edge(x, a) := FALSE_SIGNALED, Edge(x, b) := TRUE_SIGNALED,
                 Edge(a, j) := FALSE_SIGNALED, Edge(b, j) := NOT_SIGNALED, Edge(j, en) := NOT_SIGNALED],
             map[x := b], data)
  }

  /** The graph of `Choosing`, spelled out. */
  ghost predicate IsChoice(g: Schema, st: Id, en: Id, x: Id, j: Id, a: Id, b: Id) {
    && st !in {en, x, j, a, b} && en !in {x, j, a, b} && x !in {j, a, b} && j !in {a, b} && a != b
    && g.nodes == map[x := XOR_SPLIT, j := XOR_JOIN, a := ACTIVITY, b := ACTIVITY, st := START, en := END]
    && forall e :: e in g.edges <==> e in {Edge(st, x), Edge(x, a), Edge(a, j), Edge(x, b), Edge(b, j), Edge(j, en)}
  }

  lemma ChosenShaped(g: Schema, st: Id, en: Id, x: Id, j: Id, a: Id, b: Id, data: map<Id, Value>)
    requires IsChoice(g, st, en, x, j, a, b)
    ensures Shaped(g, Chosen(st, en, x, j, a, b, data))
  {}

  lemma ChosenTold(g: Schema, st: Id, en: Id, x: Id, j: Id, a: Id, b: Id, data: map<Id, Value>)
    requires IsChoice(g, st, en, x, j, a, b)
    ensures var y := Chosen(st, en, x, j, a, b, data);
            Shaped(g, y) && forall e {:trigger y.edgeStates[e]} :: e in g.edges ==> y.edgeStates[e] == Told(g, y, e)
  {
    ChosenShaped(g, st, en, x, j, a, b, data);
  }

  lemma ChosenNode(g: Schema, st: Id, en: Id, x: Id, j: Id, a: Id, b: Id, data: map<Id, Value>, n: Id)
    requires IsChoice(g, st, en, x, j, a, b) && n in g.nodes
    ensures var y := Chosen(st, en, x, j, a, b, data); Shaped(g, y) && NodeOk(g, y, n) && SettledAt(g, y, n)
  {
    ChosenShaped(g, st, en, x, j, a, b, data);
    if n in {st, x, a} {
      assert Edge(st, x) in g.edges && Edge(x, a) in g.edges && Edge(x, b) in g.edges;
    } else {
      assert Edge(x, b) in g.edges && Edge(a, j) in g.edges && Edge(b, j) in g.edges && Edge(j, en) in g.edges;
    }
  }

  lemma ChosenSound(g: Schema, st: Id, en: Id, x: Id, j: Id, a: Id, b: Id, data: map<Id, Value>)
    requires IsChoice(g, st, en, x, j, a, b)
    ensures Inv(g, Chosen(st, en, x, j, a, b, data)) && Settled(g, Chosen(st, en, x, j, a, b, data))
  {
    var y := Chosen(st, en, x, j, a, b, data);
    ChosenTold(g, st, en, x, j, a, b, data);
    forall n | n in g.nodes ensures NodeOk(g, y, n) && SettledAt(g, y, n) { ChosenNode(g, st, en, x, j, a, b, data, n); }
  }

  lemma SixApart(st: Id, en: Id, x: Id, j: Id, a: Id, b: Id)
    requires Apart([st, en, x, j, a, b])
    ensures st !in {en, x, j, a, b} && en !in {x, j, a, b} && x !in {j, a, b} && j !in {a, b} && a != b
  {
    var ids := [st, en, x, j, a, b];
    assert ids[0] == st && ids[1] == en && ids[2] == x && ids[3] == j && ids[4] == a && ids[5] == b;
  }

  /** The BOOLEAN decision that sends true values to `a` and all others to `b`. */
  function Either(v: Id, a: Id, b: Id): XorDecision {
    XorDecision(v, BOOLEAN, [XorBranch(a, None, Some(true), [], false), XorBranch(b, None, Some(false), [], false)])
  }

  lemma TwoTargets(a: XorBranch, b: XorBranch, e: Edge, f: Edge)
    ensures BranchTargets([a, b]) == [a.target, b.target] && Targets([e, f]) == [e.target, f.target]
  {
    assert [a, b][1..] == [b] && [b][1..] == [] && [e, f][1..] == [f] && [f][1..] == [];
    assert BranchTargets([b]) == [b.target] && Targets([f]) == [f.target];
  }

  lemma EitherK7(g: Schema, x: Id, v: Id, a: Id, b: Id)
    requires OfType(g, XOR_SPLIT) == {x} && g.decisions == map[x := Either(v, a, b)]
    requires Outgoing(g.edges, x) == [Edge(x, a), Edge(x, b)]
    ensures K7(g)
  {
    var bs := Either(v, a, b).branches;
    TwoTargets(bs[0], bs[1], Edge(x, a), Edge(x, b));
    assert {bs[0].boolValue, bs[1].boolValue} == {Some(true), Some(false)};
  }

  lemma OutgoingFirst(e: Edge, rest: seq<Edge>, n: Id)
    ensures Outgoing([e] + rest, n) == (if e.source == n then [e] else []) + Outgoing(rest, n)
  {
    assert ([e] + rest)[1..] == rest;
  }

  lemma OutgoingPair(e: Edge, f: Edge, n: Id)
    ensures Outgoing([e, f], n) == (if e.source == n then [e] else []) + if f.source == n then [f] else []
  {
    assert [e, f] == [e] + [f] && [f] == [f] + [];
    OutgoingFirst(e, [f], n);
    OutgoingFirst(f, [], n);
  }

  /** Of six or seven edges only the second and the last but two leave `x`. */
  lemma OutgoingTwo(before: Edge, first: Edge, mid: seq<Edge>, second: Edge, u: Edge, v: Edge, x: Id)
    requires first.source == x == second.source && before.source != x && u.source != x && v.source != x
    requires Outgoing(mid, x) == []
    ensures Outgoing([before, first] + mid + ([second] + [u, v]), x) == [first, second]
  {
    OutgoingConcat([before, first], mid, x);
    OutgoingConcat([before, first] + mid, [second] + [u, v], x);
    OutgoingPair(before, first, x);
    OutgoingFirst(second, [u, v], x);
    OutgoingPair(u, v, x);
  }

  lemma DrawnIsValid(g: Schema, p: Process, ds: map<Id, XorDecision>)
    requires WellFormed(p) && g == Drawn(p, ds) && K7(g)
    ensures Flattens(g, p) && Structural(g)
  {
    DrawnFlattens(p, ds);
    FlatteningIsStructural(g, p);
  }

  lemma EitherIsValid(g: Schema, p: Process, x: Id, v: Id, a: Id, b: Id)
    requires WellFormed(p) && g == Drawn(p, map[x := Either(v, a, b)]) && OfType(g, XOR_SPLIT) == {x}
    requires Outgoing(g.edges, x) == [Edge(x, a), Edge(x, b)]
    ensures Flattens(g, p) && Structural(g)
  {
    EitherK7(g, x, v, a, b);
    DrawnIsValid(g, p, map[x := Either(v, a, b)]);
  }

  // --- a migration that leaves a gap -------------------------------------------------------------

  /** The same diagram with the activity `n` behind `a`. */
  function Longer(st: Id, en: Id, x: Id, j: Id, a: Id, b: Id, n: Id): Process {
    Process(st, en, Gateway(XOR, x, j, Branch(Task(a, ACTIVITY, Task(n, ACTIVITY, Done)), Branch(Task(b, ACTIVITY, Done), NoBranch)), Done))
  }

  lemma LongerBranches(a: Id, b: Id, n: Id, s: Id, j: Id)
    requires a != b && a != n && b != n
    ensures var bs := Branch(Task(a, ACTIVITY, Task(n, ACTIVITY, Done)), Branch(Task(b, ACTIVITY, Done), NoBranch));
            && IsBundle(bs) && Width(bs) == 2 && Ids(bs) == {a, b, n} && Distinct(bs)
            && NodesOf(bs) == map[a := ACTIVITY, b := ACTIVITY, n := ACTIVITY]
            && EdgeList(bs, s, j) == [Edge(s, a), Edge(a, n), Edge(n, j), Edge(s, b), Edge(b, j)]
  {
    OneStep(n, ACTIVITY, Done, a, j);
    OneStep(b, ACTIVITY, Done, s, j);
    LastTask(Task(b, ACTIVITY, Done), NoBranch, s, j);
    MoreTask(a, ACTIVITY, Task(n, ACTIVITY, Done), s, j);
  }

  lemma MoreTask(a: Id, kind: NodeType, next: Block, s: Id, j: Id)
    requires IsChain(next) && a !in Ids(next) && Distinct(next) && kind.IsStep()
    ensures var t := Task(a, kind, next);
            && IsChain(t) && Ids(t) == {a} + Ids(next) && Distinct(t) && NodesOf(t) == NodesOf(next)[a := kind]
            && EdgeList(t, s, j) == [Edge(s, a)] + EdgeList(next, a, j)
  {}

  lemma LongerForm(st: Id, en: Id, x: Id, j: Id, a: Id, b: Id, n: Id)
    requires Apart([st, en, x, j, a, b]) && n !in {st, en, x, j, a, b}
    ensures WellFormed(Longer(st, en, x, j, a, b, n))
  {
    SixApart(st, en, x, j, a, b);
    LongerBranches(a, b, n, x, j);
    assert Ids(Done) == {};
  }

  lemma LongerDrawn(st: Id, en: Id, x: Id, j: Id, a: Id, b: Id, n: Id, ds: map<Id, XorDecision>)
    requires Apart([st, en, x, j, a, b]) && n !in {st, en, x, j, a, b}
    ensures var h := Drawn(Longer(st, en, x, j, a, b, n), ds);
            && h.nodes == map[x := XOR_SPLIT, j := XOR_JOIN, a := ACTIVITY, b := ACTIVITY, st := START, en := END, n := ACTIVITY]
            && h.edges == [Edge(st, x), Edge(x, a), Edge(a, n), Edge(n, j), Edge(x, b), Edge(b, j), Edge(j, en)]
  {
    SixApart(st, en, x, j, a, b);
    LongerBranches(a, b, n, x, j);
    var bs := Branch(Task(a, ACTIVITY, Task(n, ACTIVITY, Done)), Branch(Task(b, ACTIVITY, Done), NoBranch));
    GatewayDrawn(XOR, x, j, bs, Done, st, en, ds);
    NestedMaps(NodesOf(bs), NodesOf(Done));
    assert EdgeList(Done, j, en) == [Edge(j, en)];
    LongerSpelled(st, en, x, j, a, b, n);
  }

  lemma LongerSpelled(st: Id, en: Id, x: Id, j: Id, a: Id, b: Id, n: Id)
    requires Apart([st, en, x, j, a, b]) && n !in {st, en, x, j, a, b}
    ensures map[a := ACTIVITY, b := ACTIVITY, n := ACTIVITY][x := XOR_SPLIT][j := XOR_JOIN][st := START][en := END]
         == map[x := XOR_SPLIT, j := XOR_JOIN, a := ACTIVITY, b := ACTIVITY, st := START, en := END, n := ACTIVITY]
  {
    SixApart(st, en, x, j, a, b);
  }

  lemma ChoiceIsChoice(g: Schema, st: Id, en: Id, x: Id, j: Id, a: Id, b: Id)
    requires Apart([st, en, x, j, a, b])
    requires g.nodes == map[x := XOR_SPLIT, j := XOR_JOIN, a := ACTIVITY, b := ACTIVITY, st := START, en := END]
    requires g.edges == [Edge(st, x), Edge(x, a), Edge(a, j), Edge(x, b), Edge(b, j), Edge(j, en)]
    ensures IsChoice(g, st, en, x, j, a, b)
  {
    SixApart(st, en, x, j, a, b);
  }

  lemma ChoiceSplits(g: Schema, st: Id, en: Id, x: Id, j: Id, a: Id, b: Id)
    requires IsChoice(g, st, en, x, j, a, b)
    ensures OfType(g, XOR_SPLIT) == {x}
  {}

  lemma LongerSplits(h: Schema, st: Id, en: Id, x: Id, j: Id, a: Id, b: Id, n: Id)
    requires IsLonger(h, st, en, x, j, a, b, n) && x !in {st, en, j, a, b, n}
    ensures OfType(h, XOR_SPLIT) == {x}
  {}

  lemma ChoiceDecides(g: Schema, p: Process, st: Id, en: Id, x: Id, j: Id, a: Id, b: Id, v: Id)
    requires Apart([st, en, x, j, a, b]) && WellFormed(p) && g == Drawn(p, map[x := Either(v, a, b)])
    requires g.nodes == map[x := XOR_SPLIT, j := XOR_JOIN, a := ACTIVITY, b := ACTIVITY, st := START, en := END]
    requires g.edges == [Edge(st, x), Edge(x, a), Edge(a, j), Edge(x, b), Edge(b, j), Edge(j, en)]
    ensures Flattens(g, p) && Structural(g)
  {
    SixApart(st, en, x, j, a, b);
    ChoiceOut(st, en, x, j, a, b);
    ChoiceIsChoice(g, st, en, x, j, a, b);
    ChoiceSplits(g, st, en, x, j, a, b);
    EitherIsValid(g, p, x, v, a, b);
  }

  lemma ChoiceOut(st: Id, en: Id, x: Id, j: Id, a: Id, b: Id)
    requires x !in {st, j, a, b}
    ensures Outgoing([Edge(st, x), Edge(x, a), Edge(a, j), Edge(x, b), Edge(b, j), Edge(j, en)], x) == [Edge(x, a), Edge(x, b)]
  {
    assert [Edge(st, x), Edge(x, a), Edge(a, j), Edge(x, b), Edge(b, j), Edge(j, en)]
        == [Edge(st, x), Edge(x, a)] + [Edge(a, j)] + ([Edge(x, b)] + [Edge(b, j), Edge(j, en)]);
    OutgoingFirst(Edge(a, j), [], x);
    assert [Edge(a, j)] == [Edge(a, j)] + [];
    OutgoingTwo(Edge(st, x), Edge(x, a), [Edge(a, j)], Edge(x, b), Edge(b, j), Edge(j, en), x);
  }

  lemma LongerOut(st: Id, en: Id, x: Id, j: Id, a: Id, b: Id, n: Id)
    requires x !in {st, j, a, b, n}
    ensures Outgoing([Edge(st, x), Edge(x, a), Edge(a, n), Edge(n, j), Edge(x, b), Edge(b, j), Edge(j, en)], x) == [Edge(x, a), Edge(x, b)]
  {
    assert [Edge(st, x), Edge(x, a), Edge(a, n), Edge(n, j), Edge(x, b), Edge(b, j), Edge(j, en)]
        == [Edge(st, x), Edge(x, a)] + [Edge(a, n), Edge(n, j)] + ([Edge(x, b)] + [Edge(b, j), Edge(j, en)]);
    OutgoingPair(Edge(a, n), Edge(n, j), x);
    OutgoingTwo(Edge(st, x), Edge(x, a), [Edge(a, n), Edge(n, j)], Edge(x, b), Edge(b, j), Edge(j, en), x);
  }

  lemma ChoiceExists(st: Id, en: Id, x: Id, j: Id, a: Id, b: Id, v: Id) returns (g: Schema, p: Process)
    requires Apart([st, en, x, j, a, b])
    ensures Flattens(g, p) && Structural(g) && IsChoice(g, st, en, x, j, a, b)
    ensures g.lifecycle.RELEASED? && p.start == st && p.end == en
  {
    p := Choosing(st, en, x, j, a, b);
    g := Drawn(p, map[x := Either(v, a, b)]);
    ChoosingForm(st, en, x, j, a, b);
    ChoosingDrawn(st, en, x, j, a, b, map[x := Either(v, a, b)]);
    ChoiceIsChoice(g, st, en, x, j, a, b);
    ChoiceDecides(g, p, st, en, x, j, a, b, v);
  }

  /** The graph of `Longer`, spelled out. */
  ghost predicate IsLonger(h: Schema, st: Id, en: Id, x: Id, j: Id, a: Id, b: Id, n: Id) {
    && h.nodes == map[x := XOR_SPLIT, j := XOR_JOIN, a := ACTIVITY, b := ACTIVITY, st := START, en := END, n := ACTIVITY]
    && forall e :: e in h.edges <==> e in {Edge(st, x), Edge(x, a), Edge(a, n), Edge(n, j), Edge(x, b), Edge(b, j), Edge(j, en)}
  }

  lemma LongerIsLonger(h: Schema, st: Id, en: Id, x: Id, j: Id, a: Id, b: Id, n: Id)
    requires h.nodes == map[x := XOR_SPLIT, j := XOR_JOIN, a := ACTIVITY, b := ACTIVITY, st := START, en := END, n := ACTIVITY]
    requires h.edges == [Edge(st, x), Edge(x, a), Edge(a, n), Edge(n, j), Edge(x, b), Edge(b, j), Edge(j, en)]
    ensures IsLonger(h, st, en, x, j, a, b, n)
  {}

  lemma LongerDecides(h: Schema, q: Process, st: Id, en: Id, x: Id, j: Id, a: Id, b: Id, n: Id, v: Id)
    requires x !in {st, en, j, a, b, n} && WellFormed(q) && h == Drawn(q, map[x := Either(v, a, b)])
    requires h.nodes == map[x := XOR_SPLIT, j := XOR_JOIN, a := ACTIVITY, b := ACTIVITY, st := START, en := END, n := ACTIVITY]
    requires h.edges == [Edge(st, x), Edge(x, a), Edge(a, n), Edge(n, j), Edge(x, b), Edge(b, j), Edge(j, en)]
    ensures Flattens(h, q) && Structural(h)
  {
    LongerOut(st, en, x, j, a, b, n);
    LongerIsLonger(h, st, en, x, j, a, b, n);
    LongerSplits(h, st, en, x, j, a, b, n);
    EitherIsValid(h, q, x, v, a, b);
  }

  lemma LongerExists(st: Id, en: Id, x: Id, j: Id, a: Id, b: Id, n: Id, v: Id) returns (h: Schema, q: Process)
    requires Apart([st, en, x, j, a, b]) && n !in {st, en, x, j, a, b}
    ensures Flattens(h, q) && Structural(h) && IsLonger(h, st, en, x, j, a, b, n)
    ensures h.lifecycle.RELEASED? && q.start == st && q.end == en
  {
    q := Longer(st, en, x, j, a, b, n);
    h := Drawn(q, map[x := Either(v, a, b)]);
    SixApart(st, en, x, j, a, b);
    LongerForm(st, en, x, j, a, b, n);
    LongerDrawn(st, en, x, j, a, b, n, map[x := Either(v, a, b)]);
    LongerIsLonger(h, st, en, x, j, a, b, n);
    LongerDecides(h, q, st, en, x, j, a, b, n, v);
  }

  lemma LongerInserts(g: Schema, h: Schema, st: Id, en: Id, x: Id, j: Id, a: Id, b: Id, n: Id)
    requires IsChoice(g, st, en, x, j, a, b) && IsLonger(h, st, en, x, j, a, b, n) && n !in {st, en, x, j, a, b}
    ensures StepInserted(g, h, a, n, j)
  {}

  lemma LongerBehindSkipped(g: Schema, p: Process, h: Schema, q: Process, st: Id, en: Id, x: Id, j: Id, a: Id, b: Id, n: Id, data: map<Id, Value>)
    requires IsChoice(g, st, en, x, j, a, b) && IsLonger(h, st, en, x, j, a, b, n) && n !in {st, en, x, j, a, b}
    requires Flattens(g, p) && Flattens(h, q)
    ensures InsertedBehindSkipped(g, p, h, q, Chosen(st, en, x, j, a, b, data), a, n, j)
  {
    ChosenSound(g, st, en, x, j, a, b, data);
    LongerInserts(g, h, st, en, x, j, a, b, n);
  }

  /** No run of the engine that starts at `y` finishes the node `end`. */
  ghost predicate NeverEnds(h: Schema, y: Instance, end: Id) {
    forall trace: seq<Instance> :: |trace| > 0 && trace[0] == y && IsRun(h, trace) ==> Unfinished(trace[|trace| - 1], end)
  }

  ghost predicate Unfinished(y: Instance, n: Id) {
    n in y.nodeStates && !y.nodeStates[n].Finished()
  }

  lemma GapNeverEnds(h: Schema, q: Process, y: Instance, u: Id, n: Id)
    requires Flattens(h, q) && Gap(h, y, u, n)
    ensures NeverEnds(h, y, q.end)
  {
    forall trace: seq<Instance> | |trace| > 0 && trace[0] == y && IsRun(h, trace) ensures Unfinished(trace[|trace| - 1], q.end) {
      GapNeverCompletes(h, q, trace, u, n);
    }
  }

  lemma GapHere(g: Schema, p: Process, h: Schema, q: Process, y: Instance, u: Id, n: Id, t: Id)
    requires InsertedBehindSkipped(g, p, h, q, y, u, n, t)
    ensures Passes(y, g, h) && NeverEnds(h, Migrated(h, y, map[]), q.end)
  {
    MigrationLeavesGap(g, p, h, q, y, map[], u, n, t);
    GapNeverEnds(h, q, Migrated(h, y, map[]), u, n);
  }

  /**
   A gap in a marking: `b` was chosen and `a` skipped when an activity behind `a` is rolled out. Both
   schemas are valid and M2 and M3 find nothing; no run of the migrated instance finishes its END.
   */
  lemma GapAtAChoice(st: Id, en: Id, x: Id, j: Id, a: Id, b: Id, n: Id, v: Id, data: map<Id, Value>)
    returns (g: Schema, h: Schema, y: Instance)
    requires Apart([st, en, x, j, a, b]) && n !in {st, en, x, j, a, b}
    ensures IsChoice(g, st, en, x, j, a, b) && IsLonger(h, st, en, x, j, a, b, n) && y == Chosen(st, en, x, j, a, b, data)
    ensures Structural(g) && Structural(h) && h.lifecycle.RELEASED?
    ensures Inv(g, y) && Settled(g, y) && Passes(y, g, h) && NeverEnds(h, Migrated(h, y, map[]), en)
  {
    var p, q;
    g, p := ChoiceExists(st, en, x, j, a, b, v);
    h, q := LongerExists(st, en, x, j, a, b, n, v);
    y := Chosen(st, en, x, j, a, b, data);
    LongerBehindSkipped(g, p, h, q, st, en, x, j, a, b, n, data);
    GapHere(g, p, h, q, y, a, n, j);
  }

  // --- a migration that leaves nothing to work on ---------------------------------------------------

  function Single(st: Id, en: Id, a: Id, kind: NodeType): Process {
    Process(st, en, Task(a, kind, Done))
  }

  /** The marking in which `a` is to be worked on. */
  function Waiting(st: Id, en: Id, a: Id, data: map<Id, Value>): Instance {
    Instance(false, map[st := COMPLETED, a := ACTIVATED, en := NOT_ACTIVATED],
             map[Edge(st, a) := TRUE_SIGNALED, Edge(a, en) := NOT_SIGNALED], map[], data)
  }

  lemma SingleExists(st: Id, en: Id, a: Id, kind: NodeType) returns (g: Schema, p: Process)
    requires st != en && st != a && en != a && kind.IsStep()
    ensures Flattens(g, p) && Structural(g) && g.lifecycle.RELEASED?
    ensures g.nodes == map[a := kind, st := START, en := END] && g.edges == [Edge(st, a), Edge(a, en)]
  {
    p := Single(st, en, a, kind);
    g := Drawn(p, map[]);
    OneStep(a, kind, Done, st, en);
    assert OfType(g, XOR_SPLIT) == {};
    DrawnIsValid(g, p, map[]);
  }

  lemma WaitingSound(g: Schema, st: Id, en: Id, a: Id, data: map<Id, Value>)
    requires st != en && st != a && en != a
    requires g.nodes == map[a := ACTIVITY, st := START, en := END] && g.edges == [Edge(st, a), Edge(a, en)]
    ensures Inv(g, Waiting(st, en, a, data)) && Settled(g, Waiting(st, en, a, data))
  {
    var y := Waiting(st, en, a, data);
    assert Edge(st, a) in g.edges && Edge(a, en) in g.edges;
    forall n | n in g.nodes ensures NodeOk(g, y, n) && SettledAt(g, y, n) {}
  }

  lemma WaitingReady(g: Schema, st: Id, en: Id, a: Id, data: map<Id, Value>)
    requires st != en && st != a && en != a && g.nodes == map[a := ACTIVITY, st := START, en := END]
    ensures a in g.nodes && Waiting(st, en, a, data).nodeStates[a].ACTIVATED?
    ensures forall m :: ReadyAt(g, Waiting(st, en, a, data), m) ==> m == a
  {}

  lemma Retyped(nodes: map<Id, NodeType>, nodes': map<Id, NodeType>, st: Id, en: Id, a: Id)
    requires st != en && st != a && en != a
    requires nodes == map[a := ACTIVITY, st := START, en := END] && nodes' == map[a := SUBPROCESS, st := START, en := END]
    ensures nodes' == nodes[a := SUBPROCESS]
  {}

  /**
   An activity that waits for work is turned into a SUBPROCESS and the change rolled out: both schemas
   are valid, M2 and M3 find nothing, and the migrated instance is RUNNING with nothing to work on.
   */
  lemma ConvertedAtWork(st: Id, en: Id, a: Id, data: map<Id, Value>) returns (g: Schema, h: Schema, y: Instance)
    requires st != en && st != a && en != a
    ensures h.nodes == g.nodes[a := SUBPROCESS] && h.edges == g.edges == [Edge(st, a), Edge(a, en)] && y == Waiting(st, en, a, data)
    ensures Structural(g) && Structural(h) && h.lifecycle.RELEASED? && Inv(g, y) && Settled(g, y) && Passes(y, g, h)
    ensures !Migrated(h, y, map[]).done && !Ready(h, Migrated(h, y, map[]))
  {
    var p, q;
    g, p := SingleExists(st, en, a, ACTIVITY);
    h, q := SingleExists(st, en, a, SUBPROCESS);
    y := Waiting(st, en, a, data);
    WaitingSound(g, st, en, a, data);
    WaitingReady(g, st, en, a, data);
    Retyped(g.nodes, h.nodes, st, en, a);
    ConvertedActivitySticks(g, p, h, q, y, map[], a);
  }

  // --- a migration that overtakes a waiting join -----------------------------------------------------

  /** An AND block with `first` in one branch and the activity `b` in the other. */
  function Parallel(st: Id, en: Id, s: Id, k: Id, first: Block, b: Id): Process {
    Process(st, en, Gateway(AND, s, k, Branch(first, Branch(Task(b, ACTIVITY, Done), NoBranch)), Done))
  }

  /** The graph with `a` alone in the first branch, spelled out. */
  ghost predicate IsParallel(g: Schema, st: Id, en: Id, s: Id, j: Id, a: Id, b: Id) {
    && g.nodes == map[a := ACTIVITY, b := ACTIVITY, s := AND_SPLIT, j := AND_JOIN, st := START, en := END]
    && forall e :: e in g.edges <==> e in {Edge(st, s), Edge(s, a), Edge(a, j), Edge(s, b), Edge(b, j), Edge(j, en)}
  }

  /** The graph with `a` and then the activity `j` in the first branch, and a new join `k`. */
  ghost predicate IsOvertaking(h: Schema, st: Id, en: Id, s: Id, k: Id, a: Id, j: Id, b: Id) {
    && h.nodes == map[a := ACTIVITY, b := ACTIVITY, j := ACTIVITY, s := AND_SPLIT, k := AND_JOIN, st := START, en := END]
    && forall e :: e in h.edges <==> e in {Edge(st, s), Edge(s, a), Edge(a, j), Edge(j, k), Edge(s, b), Edge(b, k), Edge(k, en)}
  }

  lemma ParallelDrawn(st: Id, en: Id, s: Id, k: Id, bs: Block, next: Block) returns (g: Schema, p: Process)
    requires IsBundle(bs) && Width(bs) >= 2 && Distinct(bs) && s != k && s !in Ids(bs) && k !in Ids(bs) && next.Done?
    requires st !in {en, s, k} && st !in Ids(bs) && en !in {s, k} && en !in Ids(bs)
    ensures p == Process(st, en, Gateway(AND, s, k, bs, next)) && g == Drawn(p, map[]) && WellFormed(p)
    ensures g.nodes == NodesOf(bs)[s := AND_SPLIT][k := AND_JOIN][st := START][en := END]
    ensures g.edges == [Edge(st, s)] + EdgeList(bs, s, k) + [Edge(k, en)] && g.lifecycle.RELEASED?
  {
    p := Process(st, en, Gateway(AND, s, k, bs, next));
    g := Drawn(p, map[]);
    GatewayForm(AND, s, k, bs, next, st, en);
    GatewayDrawn(AND, s, k, bs, next, st, en, map[]);
    assert NodesOf(next) == map[] && EdgeList(next, k, en) == [Edge(k, en)];
    NestedMaps(NodesOf(bs), NodesOf(next));
  }

  lemma NoXorIsValid(g: Schema, p: Process)
    requires WellFormed(p) && g == Drawn(p, map[]) && forall n :: n in g.nodes ==> !g.nodes[n].XOR_SPLIT?
    ensures Flattens(g, p) && Structural(g)
  {
    assert OfType(g, XOR_SPLIT) == {};
    DrawnIsValid(g, p, map[]);
  }

  lemma ParallelSpelled(g: Schema, st: Id, en: Id, s: Id, j: Id, a: Id, b: Id, bs: Block)
    requires Apart([st, en, s, j, a, b])
    requires NodesOf(bs) == map[a := ACTIVITY, b := ACTIVITY] && EdgeList(bs, s, j) == [Edge(s, a), Edge(a, j), Edge(s, b), Edge(b, j)]
    requires g.nodes == NodesOf(bs)[s := AND_SPLIT][j := AND_JOIN][st := START][en := END]
    requires g.edges == [Edge(st, s)] + EdgeList(bs, s, j) + [Edge(j, en)]
    ensures IsParallel(g, st, en, s, j, a, b) && forall n :: n in g.nodes ==> !g.nodes[n].XOR_SPLIT?
  {
    SixApart(st, en, s, j, a, b);
  }

  lemma ParallelExists(st: Id, en: Id, s: Id, j: Id, a: Id, b: Id) returns (g: Schema, p: Process)
    requires Apart([st, en, s, j, a, b])
    ensures Flattens(g, p) && Structural(g) && IsParallel(g, st, en, s, j, a, b)
  {
    SixApart(st, en, s, j, a, b);
    TwoTasks(a, b, s, j);
    var bs := Branch(Task(a, ACTIVITY, Done), Branch(Task(b, ACTIVITY, Done), NoBranch));
    g, p := ParallelDrawn(st, en, s, j, bs, Done);
    ParallelSpelled(g, st, en, s, j, a, b, bs);
    NoXorIsValid(g, p);
  }

  lemma OvertakingSpelled(h: Schema, st: Id, en: Id, s: Id, k: Id, a: Id, j: Id, b: Id, bs: Block)
    requires Apart([st, en, s, j, a, b]) && k !in {st, en, s, j, a, b}
    requires NodesOf(bs) == map[a := ACTIVITY, b := ACTIVITY, j := ACTIVITY]
    requires EdgeList(bs, s, k) == [Edge(s, a), Edge(a, j), Edge(j, k), Edge(s, b), Edge(b, k)]
    requires h.nodes == NodesOf(bs)[s := AND_SPLIT][k := AND_JOIN][st := START][en := END]
    requires h.edges == [Edge(st, s)] + EdgeList(bs, s, k) + [Edge(k, en)]
    ensures IsOvertaking(h, st, en, s, k, a, j, b) && forall n :: n in h.nodes ==> !h.nodes[n].XOR_SPLIT?
  {
    SixApart(st, en, s, j, a, b);
  }

  lemma OvertakingExists(st: Id, en: Id, s: Id, k: Id, a: Id, j: Id, b: Id) returns (h: Schema, q: Process)
    requires Apart([st, en, s, j, a, b]) && k !in {st, en, s, j, a, b}
    ensures Flattens(h, q) && Structural(h) && h.lifecycle.RELEASED? && IsOvertaking(h, st, en, s, k, a, j, b)
  {
    SixApart(st, en, s, j, a, b);
    LongerBranches(a, b, j, s, k);
    var bs := Branch(Task(a, ACTIVITY, Task(j, ACTIVITY, Done)), Branch(Task(b, ACTIVITY, Done), NoBranch));
    h, q := ParallelDrawn(st, en, s, k, bs, Done);
    OvertakingSpelled(h, st, en, s, k, a, j, b, bs);
    NoXorIsValid(h, q);
  }

  /** The marking in which `a` is done and `b` is to be worked on; `j` waits. */
  function HalfDone(g: Schema, en: Id, j: Id, b: Id, data: map<Id, Value>): Instance {
    Instance(false, map n | n in g.nodes :: if n == j || n == en then NOT_ACTIVATED else if n == b then ACTIVATED else COMPLETED,
             map e | e in g.edges :: if e.source == b || e.source == j then NOT_SIGNALED else TRUE_SIGNALED, map[], data)
  }

  lemma HalfDoneTold(g: Schema, st: Id, en: Id, s: Id, j: Id, a: Id, b: Id, data: map<Id, Value>)
    requires Apart([st, en, s, j, a, b]) && IsParallel(g, st, en, s, j, a, b)
    ensures var y := HalfDone(g, en, j, b, data);
            Shaped(g, y) && forall e {:trigger y.edgeStates[e]} :: e in g.edges ==> y.edgeStates[e] == Told(g, y, e)
  {
    SixApart(st, en, s, j, a, b);
  }

  lemma HalfDoneNode(g: Schema, st: Id, en: Id, s: Id, j: Id, a: Id, b: Id, data: map<Id, Value>, n: Id)
    requires Apart([st, en, s, j, a, b]) && IsParallel(g, st, en, s, j, a, b) && n in g.nodes
    ensures var y := HalfDone(g, en, j, b, data); Shaped(g, y) && NodeOk(g, y, n) && SettledAt(g, y, n)
  {
    HalfDoneTold(g, st, en, s, j, a, b, data);
    SixApart(st, en, s, j, a, b);
    assert Edge(st, s) in g.edges && Edge(s, a) in g.edges && Edge(s, b) in g.edges;
    assert Edge(a, j) in g.edges && Edge(b, j) in g.edges && Edge(j, en) in g.edges;
  }

  lemma HalfDoneSound(g: Schema, st: Id, en: Id, s: Id, j: Id, a: Id, b: Id, data: map<Id, Value>)
    requires Apart([st, en, s, j, a, b]) && IsParallel(g, st, en, s, j, a, b)
    ensures Inv(g, HalfDone(g, en, j, b, data)) && Settled(g, HalfDone(g, en, j, b, data))
  {
    var y := HalfDone(g, en, j, b, data);
    HalfDoneTold(g, st, en, s, j, a, b, data);
    SixApart(st, en, s, j, a, b);
    forall n | n in g.nodes ensures NodeOk(g, y, n) && SettledAt(g, y, n) { HalfDoneNode(g, st, en, s, j, a, b, data, n); }
  }

  lemma OvertakingPasses(g: Schema, h: Schema, st: Id, en: Id, s: Id, j: Id, k: Id, a: Id, b: Id, data: map<Id, Value>)
    requires Apart([st, en, s, j, a, b]) && k !in {st, en, s, j, a, b}
    requires IsParallel(g, st, en, s, j, a, b) && IsOvertaking(h, st, en, s, k, a, j, b)
    ensures Passes(HalfDone(g, en, j, b, data), g, h)
  {
    var y := HalfDone(g, en, j, b, data);
    SixApart(st, en, s, j, a, b);
    forall f ensures !IsM2(y, g, h, f) && !IsM3(y, g, h, f) {
      if f.Rewired? && f.id in {st, s, a} {
        assert forall e: Edge :: e.source == f.id ==> (e in g.edges <==> e in h.edges);
        assert forall e :: e in Outgoing(g.edges, f.id) <==> e in Outgoing(h.edges, f.id);
        assert Ends(Outgoing(g.edges, f.id)) == Ends(Outgoing(h.edges, f.id));
      }
    }
  }

  lemma OvertakingKeeps(g: Schema, h: Schema, st: Id, en: Id, s: Id, j: Id, k: Id, a: Id, b: Id, data: map<Id, Value>)
    requires Apart([st, en, s, j, a, b]) && k !in {st, en, s, j, a, b}
    requires IsParallel(g, st, en, s, j, a, b) && IsOvertaking(h, st, en, s, k, a, j, b)
    ensures var y := HalfDone(g, en, j, b, data);
            SkippedKeep(g, h, y) && ActiveKeep(h, y) && NoLongerJoin(g, h, y, Edge(a, j)) && ReadyAt(g, y, b)
  {
    SixApart(st, en, s, j, a, b);
  }

  lemma OvertakenEnabled(h: Schema, st: Id, en: Id, s: Id, k: Id, a: Id, j: Id, b: Id, y: Instance)
    requires Apart([st, en, s, j, a, b]) && k !in {st, en, s, j, a, b} && IsOvertaking(h, st, en, s, k, a, j, b)
    requires Inv(h, y) && y.nodeStates[a].COMPLETED?
    ensures h.nodes[j].ACTIVITY? && Enabled(h, y, j) && forall z, n :: !StuckAt(h, z, n)
  {
    SixApart(st, en, s, j, a, b);
    assert Edge(a, j) in h.edges;
    assert y.edgeStates[Edge(a, j)] == Told(h, y, Edge(a, j));
  }

  lemma OvertakenRuns(g: Schema, p: Process, h: Schema, q: Process, st: Id, en: Id, s: Id, j: Id, k: Id, a: Id, b: Id, data: map<Id, Value>)
    requires Apart([st, en, s, j, a, b]) && k !in {st, en, s, j, a, b} && Flattens(g, p) && Flattens(h, q)
    requires IsParallel(g, st, en, s, j, a, b) && IsOvertaking(h, st, en, s, k, a, j, b)
    ensures var y := HalfDone(g, en, j, b, data);
            && Inv(g, y) && Settled(g, y) && Passes(y, g, h) && Inv(h, Migrated(h, y, map[])) && Overdue(h, Migrated(h, y, map[]), j)
            && b in h.nodes && ReadyAt(h, Migrated(h, y, map[]), b) && y.nodeStates.Keys == g.nodes.Keys
            && a in g.nodes && y.nodeStates[a].COMPLETED? && a in h.nodes
  {
    var y := HalfDone(g, en, j, b, data);
    SixApart(st, en, s, j, a, b);
    HalfDoneSound(g, st, en, s, j, a, b, data);
    OvertakingPasses(g, h, st, en, s, j, k, a, b, data);
    OvertakingKeeps(g, h, st, en, s, j, k, a, b, data);
    WaitingLeftBehind(g, p, h, q, y, map[], Edge(a, j));
  }

  /**
   A join that waits for `b` becomes an activity behind `a`, in front of a new join, and the change is
   rolled out: both schemas are valid and M2 and M3 find nothing, but the migrated instance offers
   nobody `j`, which is due. Completing `b` puts it right.
   */
  lemma OvertakenAtAJoin(st: Id, en: Id, s: Id, j: Id, k: Id, a: Id, b: Id, data: map<Id, Value>, written: map<Id, Value>)
    returns (g: Schema, h: Schema, y: Instance, z: Instance)
    requires Apart([st, en, s, j, a, b]) && k !in {st, en, s, j, a, b}
    ensures IsParallel(g, st, en, s, j, a, b) && IsOvertaking(h, st, en, s, k, a, j, b) && y == HalfDone(g, en, j, b, data)
    ensures Structural(g) && Structural(h) && h.lifecycle.RELEASED? && Inv(g, y) && Settled(g, y) && Passes(y, g, h)
    ensures Inv(h, Migrated(h, y, map[])) && Overdue(h, Migrated(h, y, map[]), j)
    ensures b in h.nodes && Outcome(h, Begun(h, Migrated(h, y, map[]), b, written), z) && ReadyAt(h, z, j)
  {
    var p, q, stuck;
    g, p := ParallelExists(st, en, s, j, a, b);
    h, q := OvertakingExists(st, en, s, k, a, j, b);
    y := HalfDone(g, en, j, b, data);
    OvertakenRuns(g, p, h, q, st, en, s, j, k, a, b, data);
    var moved := Migrated(h, y, map[]);
    OvertakenEnabled(h, st, en, s, k, a, j, b, moved);
    z, stuck := NextAdvanceRepairs(h, q, moved, j, b, written);
  }

  // --- exchanged joins: an instance that never completes ------------------------------------------

  /** An AND block with the activities `a` and `b`, and behind it an XOR block with `c` and `d`. */
  function InSequence(st: Id, en: Id, s: Id, k: Id, a: Id, b: Id, x: Id, j: Id, c: Id, d: Id): Process {
    Process(st, en,
      Gateway(AND, s, k, Branch(Task(a, ACTIVITY, Done), Branch(Task(b, ACTIVITY, Done), NoBranch)),
        Gateway(XOR, x, j, Branch(Task(c, ACTIVITY, Done), Branch(Task(d, ACTIVITY, Done), NoBranch)), Done)))
  }

  lemma XorBlock(x: Id, j: Id, c: Id, d: Id, src: Id, dst: Id)
    requires c != d && x != j && x !in {c, d} && j !in {c, d}
    ensures var b := Gateway(XOR, x, j, Branch(Task(c, ACTIVITY, Done), Branch(Task(d, ACTIVITY, Done), NoBranch)), Done);
            && IsChain(b) && Distinct(b) && Ids(b) == {x, j, c, d}
            && NodesOf(b) == map[c := ACTIVITY, d := ACTIVITY, x := XOR_SPLIT, j := XOR_JOIN]
            && EdgeList(b, src, dst) == [Edge(src, x), Edge(x, c), Edge(c, j), Edge(x, d), Edge(d, j), Edge(j, dst)]
  {
    TwoTasks(c, d, x, j);
    assert Ids(Done) == {} && NodesOf(Done) == map[] && EdgeList(Done, j, dst) == [Edge(j, dst)];
  }

  /** A gateway block that is put together from its parts. */
  lemma GatewayForm(logic: Logic, s: Id, j: Id, bs: Block, next: Block, st: Id, en: Id)
    requires IsBundle(bs) && Width(bs) >= 2 && Distinct(bs) && IsChain(next) && Distinct(next)
    requires s != j && s !in Ids(bs) && s !in Ids(next) && j !in Ids(bs) && j !in Ids(next) && Ids(bs) !! Ids(next)
    requires st !in {en, s, j} && st !in Ids(bs) && st !in Ids(next) && en !in {s, j} && en !in Ids(bs) && en !in Ids(next)
    ensures WellFormed(Process(st, en, Gateway(logic, s, j, bs, next)))
  {}

  lemma GatewayDrawn(logic: Logic, s: Id, j: Id, bs: Block, next: Block, st: Id, en: Id, ds: map<Id, XorDecision>)
    ensures var g := Drawn(Process(st, en, Gateway(logic, s, j, bs, next)), ds);
            && g.nodes == (NodesOf(bs) + NodesOf(next))[s := logic.SplitType()][j := logic.JoinType()][st := START][en := END]
            && g.edges == [Edge(st, s)] + EdgeList(bs, s, j) + EdgeList(next, j, en)
  {}

  lemma SequenceForm(st: Id, en: Id, s: Id, k: Id, a: Id, b: Id, x: Id, j: Id, c: Id, d: Id)
    requires Apart([st, en, s, k, a, b]) && Apart([st, en, x, j, c, d]) && {s, k, a, b} !! {x, j, c, d}
    ensures WellFormed(InSequence(st, en, s, k, a, b, x, j, c, d))
  {
    var bs := Branch(Task(a, ACTIVITY, Done), Branch(Task(b, ACTIVITY, Done), NoBranch));
    var next := Gateway(XOR, x, j, Branch(Task(c, ACTIVITY, Done), Branch(Task(d, ACTIVITY, Done), NoBranch)), Done);
    SixApart(st, en, s, k, a, b);
    SixApart(st, en, x, j, c, d);
    TwoTasks(a, b, s, k);
    XorBlock(x, j, c, d, k, en);
    GatewayForm(AND, s, k, bs, next, st, en);
  }

  lemma SequenceNodes(nodes: map<Id, NodeType>, st: Id, en: Id, s: Id, k: Id, a: Id, b: Id, x: Id, j: Id, c: Id, d: Id)
    requires Apart([st, en, s, k, a, b]) && Apart([st, en, x, j, c, d]) && {s, k, a, b} !! {x, j, c, d}
    requires nodes == (map[a := ACTIVITY, b := ACTIVITY] + map[c := ACTIVITY, d := ACTIVITY, x := XOR_SPLIT, j := XOR_JOIN])
                      [s := AND_SPLIT][k := AND_JOIN][st := START][en := END]
    ensures forall n :: n in nodes ==> (nodes[n].XOR_SPLIT? <==> n == x)
    ensures x in nodes && j in nodes && nodes[j].XOR_JOIN? && k in nodes && nodes[k].AND_JOIN?
  {
    SixApart(st, en, s, k, a, b);
    SixApart(st, en, x, j, c, d);
  }

  lemma SequenceDrawn(st: Id, en: Id, s: Id, k: Id, a: Id, b: Id, x: Id, j: Id, c: Id, d: Id, ds: map<Id, XorDecision>)
    requires Apart([st, en, s, k, a, b]) && Apart([st, en, x, j, c, d]) && {s, k, a, b} !! {x, j, c, d}
    ensures var g := Drawn(InSequence(st, en, s, k, a, b, x, j, c, d), ds);
            && OfType(g, XOR_SPLIT) == {x} && j in g.nodes && g.nodes[j].XOR_JOIN? && k in g.nodes && g.nodes[k].AND_JOIN?
            && g.edges == [Edge(st, s)] + [Edge(s, a), Edge(a, k), Edge(s, b), Edge(b, k)]
                          + [Edge(k, x), Edge(x, c), Edge(c, j), Edge(x, d), Edge(d, j), Edge(j, en)]
  {
    var p := InSequence(st, en, s, k, a, b, x, j, c, d);
    SixApart(st, en, s, k, a, b);
    SixApart(st, en, x, j, c, d);
    TwoTasks(a, b, s, k);
    XorBlock(x, j, c, d, k, en);
    GatewayDrawn(AND, s, k, p.body.branches, p.body.next, st, en, ds);
    SequenceNodes(Drawn(p, ds).nodes, st, en, s, k, a, b, x, j, c, d);
  }

  lemma NoneOut(es: seq<Edge>, n: Id)
    requires forall e :: e in es ==> e.source != n
    ensures Outgoing(es, n) == []
  {
    if es != [] { NoneOut(es[1..], n); }
  }

  lemma SequenceOut(st: Id, en: Id, s: Id, k: Id, a: Id, b: Id, x: Id, j: Id, c: Id, d: Id)
    requires x !in {st, s, k, a, b, j, c, d}
    ensures Outgoing([Edge(st, s)] + [Edge(s, a), Edge(a, k), Edge(s, b), Edge(b, k)]
                     + [Edge(k, x), Edge(x, c), Edge(c, j), Edge(x, d), Edge(d, j), Edge(j, en)], x) == [Edge(x, c), Edge(x, d)]
  {
    var first, last := [Edge(st, s)] + [Edge(s, a), Edge(a, k), Edge(s, b), Edge(b, k)],
                       [Edge(k, x), Edge(x, c), Edge(c, j), Edge(x, d), Edge(d, j), Edge(j, en)];
    OutgoingConcat(first, last, x);
    assert forall e :: e in first ==> e.source != x;
    assert Outgoing(first, x) == [] by { NoneOut(first, x); }
    ChoiceOut(k, en, x, j, c, d);
  }

  lemma TwoPorts(x: Id, j: Id, c: Id, d: Id)
    ensures var bs := Branch(Task(c, ACTIVITY, Done), Branch(Task(d, ACTIVITY, Done), NoBranch));
            Port(Edge(x, c), Edge(c, j)) in Ports(bs, x, j) && Port(Edge(x, d), Edge(d, j)) in Ports(bs, x, j)
  {
    OnePort(c, Done, x, j);
    OnePort(d, Done, x, j);
    var last := Branch(Task(d, ACTIVITY, Done), NoBranch);
    assert Port(Edge(x, d), Edge(d, j)) in Ports(last, x, j);
  }

  lemma OnePort(c: Id, next: Block, x: Id, j: Id)
    requires next.Done?
    ensures Ports(Task(c, ACTIVITY, next), x, j) == {Port(Edge(x, c), Edge(c, j))}
  {
    var t := Task(c, ACTIVITY, next);
    assert First(t, j) == c && Last(next, c) == c && Last(t, x) == Last(next, c);
  }

  /** Exchanging the two joins is accepted, and no instance of the result ever completes. */
  lemma ExchangedNeverComplete(st: Id, en: Id, s: Id, k: Id, a: Id, b: Id, x: Id, j: Id, c: Id, d: Id, v: Id)
    returns (g: Schema, p: Process)
    requires Apart([st, en, s, k, a, b]) && Apart([st, en, x, j, c, d]) && {s, k, a, b} !! {x, j, c, d}
    ensures p == InSequence(st, en, s, k, a, b, x, j, c, d) && Flattens(g, p)
    ensures Structural(g) && j in g.nodes && k in g.nodes && Structural(SwapJoins(g, j, k))
    ensures forall y :: Inv(SwapJoins(g, j, k), y) ==> !y.done
  {
    p := InSequence(st, en, s, k, a, b, x, j, c, d);
    g := Drawn(p, map[x := Either(v, c, d)]);
    SequenceValid(g, p, st, en, s, k, a, b, x, j, c, d, v);
    MismatchedJoinsPass(g, p, j, k);
    SixApart(st, en, x, j, c, d);
    SequenceSticks(g, p, st, en, s, k, a, b, x, j, c, d);
  }

  lemma SequenceValid(g: Schema, p: Process, st: Id, en: Id, s: Id, k: Id, a: Id, b: Id, x: Id, j: Id, c: Id, d: Id, v: Id)
    requires Apart([st, en, s, k, a, b]) && Apart([st, en, x, j, c, d]) && {s, k, a, b} !! {x, j, c, d}
    requires p == InSequence(st, en, s, k, a, b, x, j, c, d) && g == Drawn(p, map[x := Either(v, c, d)])
    ensures Flattens(g, p) && Structural(g)
    ensures j in g.nodes && g.nodes[j].XOR_JOIN? && k in g.nodes && g.nodes[k].AND_JOIN?
  {
    SequenceForm(st, en, s, k, a, b, x, j, c, d);
    SequenceDrawn(st, en, s, k, a, b, x, j, c, d, map[x := Either(v, c, d)]);
    SixApart(st, en, x, j, c, d);
    SequenceOut(st, en, s, k, a, b, x, j, c, d);
    EitherIsValid(g, p, x, v, c, d);
  }

  lemma SequenceSticks(g: Schema, p: Process, st: Id, en: Id, s: Id, k: Id, a: Id, b: Id, x: Id, j: Id, c: Id, d: Id)
    requires p == InSequence(st, en, s, k, a, b, x, j, c, d) && Flattens(g, p) && c != d
    requires j in g.nodes && g.nodes[j].XOR_JOIN? && k in g.nodes && g.nodes[k].AND_JOIN?
    ensures forall y :: Inv(SwapJoins(g, j, k), y) ==> !y.done
  {
    var bag := multiset(g.edges);
    assert Embedded(g.nodes, bag, p.body, st, en);
    EmbeddedGateway(g.nodes, bag, p.body, st, en);
    TwoPorts(x, j, c, d);
    forall y | Inv(SwapJoins(g, j, k), y) ensures !y.done {
      MismatchedJoinsNeverComplete(g, p, p.body.next, k, k, y, Port(Edge(x, c), Edge(c, j)), Port(Edge(x, d), Edge(d, j)));
    }
  }

  // --- exchanged joins: an instance that completes ----------------------------------------------

  /** An AND block with an XOR block in one branch and the activity `c` in the other. */
  function Nested(st: Id, en: Id, s: Id, k: Id, c: Id, x: Id, j: Id, a: Id, b: Id): Process {
    Process(st, en,
      Gateway(AND, s, k,
        Branch(Gateway(XOR, x, j, Branch(Task(a, ACTIVITY, Done), Branch(Task(b, ACTIVITY, Done), NoBranch)), Done),
          Branch(Task(c, ACTIVITY, Done), NoBranch)), Done))
  }

  predicate NineApart(st: Id, en: Id, s: Id, k: Id, c: Id, x: Id, j: Id, a: Id, b: Id) {
    Apart([st, en, x, j, a, b]) && Apart([s, k, c]) && {s, k, c} !! {st, en, x, j, a, b}
  }

  lemma NineDiffer(st: Id, en: Id, s: Id, k: Id, c: Id, x: Id, j: Id, a: Id, b: Id)
    requires NineApart(st, en, s, k, c, x, j, a, b)
    ensures st !in {en, s, k, c, x, j, a, b} && en !in {s, k, c, x, j, a, b} && s !in {k, c, x, j, a, b}
    ensures k !in {c, x, j, a, b} && c !in {x, j, a, b} && x !in {j, a, b} && j !in {a, b} && a != b
  {
    SixApart(st, en, x, j, a, b);
    var ids := [s, k, c];
    assert ids[0] == s && ids[1] == k && ids[2] == c;
  }

  /** A bundle of two chains. */
  lemma TwoChains(u: Block, v: Block, last: Block, s: Id, k: Id)
    requires IsChain(u) && IsChain(v) && Distinct(u) && Distinct(v) && Ids(u) !! Ids(v) && last.NoBranch?
    ensures var bs := Branch(u, Branch(v, last));
            && IsBundle(bs) && Width(bs) == 2 && Distinct(bs) && Ids(bs) == Ids(u) + Ids(v)
            && NodesOf(bs) == NodesOf(u) + NodesOf(v) && EdgeList(bs, s, k) == EdgeList(u, s, k) + EdgeList(v, s, k)
  {
    LastTask(v, last, s, k);
  }

  lemma NestedBranches(s: Id, k: Id, c: Id, x: Id, j: Id, a: Id, b: Id) returns (bs: Block)
    requires a != b && x != j && x !in {a, b} && j !in {a, b} && c !in {x, j, a, b}
    ensures bs == Branch(Gateway(XOR, x, j, Branch(Task(a, ACTIVITY, Done), Branch(Task(b, ACTIVITY, Done), NoBranch)), Done),
                    Branch(Task(c, ACTIVITY, Done), NoBranch))
    ensures IsBundle(bs) && Width(bs) == 2 && Distinct(bs) && Ids(bs) == {x, j, a, b, c}
    ensures NodesOf(bs) == map[a := ACTIVITY, b := ACTIVITY, x := XOR_SPLIT, j := XOR_JOIN, c := ACTIVITY]
    ensures EdgeList(bs, s, k) == [Edge(s, x), Edge(x, a), Edge(a, j), Edge(x, b), Edge(b, j), Edge(j, k)] + [Edge(s, c), Edge(c, k)]
  {
    var u := Gateway(XOR, x, j, Branch(Task(a, ACTIVITY, Done), Branch(Task(b, ACTIVITY, Done), NoBranch)), Done);
    var v := Task(c, ACTIVITY, Done);
    XorBlock(x, j, a, b, s, k);
    OneStep(c, ACTIVITY, Done, s, k);
    TwoChains(u, v, NoBranch, s, k);
    bs := Branch(u, Branch(v, NoBranch));
  }

  lemma NestedForm(st: Id, en: Id, s: Id, k: Id, c: Id, x: Id, j: Id, a: Id, b: Id)
    requires NineApart(st, en, s, k, c, x, j, a, b)
    ensures WellFormed(Nested(st, en, s, k, c, x, j, a, b))
  {
    NineDiffer(st, en, s, k, c, x, j, a, b);
    var bs := NestedBranches(s, k, c, x, j, a, b);
    GatewayForm(AND, s, k, bs, Done, st, en);
  }

  lemma NestedLists(first: Edge, mid: seq<Edge>, u: Edge, v: Edge, last: Edge)
    ensures [first] + (mid + [u, v]) + [last] == [first] + mid + [u, v, last]
  {}

  lemma NestedMaps(nodes: map<Id, NodeType>, none: map<Id, NodeType>)
    requires none == map[]
    ensures nodes + none == nodes
  {}

  lemma NestedDrawn(st: Id, en: Id, s: Id, k: Id, c: Id, x: Id, j: Id, a: Id, b: Id, ds: map<Id, XorDecision>)
    requires NineApart(st, en, s, k, c, x, j, a, b)
    ensures var g := Drawn(Nested(st, en, s, k, c, x, j, a, b), ds);
            && g.nodes == map[a := ACTIVITY, b := ACTIVITY, x := XOR_SPLIT, j := XOR_JOIN, c := ACTIVITY]
                          [s := AND_SPLIT][k := AND_JOIN][st := START][en := END]
            && g.edges == [Edge(st, s)] + [Edge(s, x), Edge(x, a), Edge(a, j), Edge(x, b), Edge(b, j), Edge(j, k)]
                          + [Edge(s, c), Edge(c, k), Edge(k, en)]
  {
    NineDiffer(st, en, s, k, c, x, j, a, b);
    var bs := NestedBranches(s, k, c, x, j, a, b);
    GatewayDrawn(AND, s, k, bs, Done, st, en, ds);
    assert NodesOf(Done) == map[] && EdgeList(Done, k, en) == [Edge(k, en)];
    NestedLists(Edge(st, s), [Edge(s, x), Edge(x, a), Edge(a, j), Edge(x, b), Edge(b, j), Edge(j, k)], Edge(s, c), Edge(c, k), Edge(k, en));
    NestedMaps(NodesOf(bs), NodesOf(Done));
  }

  lemma NestedOut(st: Id, en: Id, s: Id, k: Id, c: Id, x: Id, j: Id, a: Id, b: Id)
    requires x !in {st, s, k, c, j, a, b}
    ensures Outgoing([Edge(st, s)] + [Edge(s, x), Edge(x, a), Edge(a, j), Edge(x, b), Edge(b, j), Edge(j, k)]
                     + [Edge(s, c), Edge(c, k), Edge(k, en)], x) == [Edge(x, a), Edge(x, b)]
  {
    var first, mid := [Edge(st, s)], [Edge(s, x), Edge(x, a), Edge(a, j), Edge(x, b), Edge(b, j), Edge(j, k)];
    var last := [Edge(s, c), Edge(c, k), Edge(k, en)];
    OutgoingConcat(first + mid, last, x);
    OutgoingConcat(first, mid, x);
    NoneOut(first, x);
    NoneOut(last, x);
    ChoiceOut(s, k, x, j, a, b);
  }

  /** The graph of `Nested` with its joins exchanged. */
  ghost predicate IsExchanged(h: Schema, st: Id, en: Id, s: Id, k: Id, c: Id, x: Id, j: Id, a: Id, b: Id) {
    && st !in {en, s, k, c, x, j, a, b} && en !in {s, k, c, x, j, a, b} && s !in {k, c, x, j, a, b}
    && k !in {c, x, j, a, b} && c !in {x, j, a, b} && x !in {j, a, b} && j !in {a, b} && a != b
    && h.nodes.Keys == {st, en, s, k, c, x, j, a, b}
    && h.nodes[st] == START && h.nodes[en] == END && h.nodes[s] == AND_SPLIT && h.nodes[x] == XOR_SPLIT
    && h.nodes[j] == AND_JOIN && h.nodes[k] == XOR_JOIN
    && h.nodes[a] == ACTIVITY && h.nodes[b] == ACTIVITY && h.nodes[c] == ACTIVITY
    && forall e :: e in h.edges <==> e in {Edge(st, s), Edge(s, x), Edge(x, a), Edge(a, j), Edge(x, b), Edge(b, j), Edge(j, k),
                                           Edge(s, c), Edge(c, k), Edge(k, en)}
  }

  /** A node with one way in, once the advance is over. */
  lemma EnteredOnce(h: Schema, y: Instance, e: Edge, n: Id)
    requires Inv(h, y) && Settled(h, y) && e in h.edges && n == e.target && y.edgeStates[e] != NOT_SIGNALED
    requires n in h.nodes && !h.nodes[n].START? && forall f :: f in h.edges && f.target == n ==> f == e
    ensures y.edgeStates[e].FALSE_SIGNALED? ==> y.nodeStates[n].SKIPPED?
    ensures y.edgeStates[e].TRUE_SIGNALED? ==> !y.nodeStates[n].NOT_ACTIVATED? && !y.nodeStates[n].SKIPPED? && (!h.nodes[n].ACTIVITY? ==> y.nodeStates[n].COMPLETED?)
  {
    assert NodeOk(h, y, n) && SettledAt(h, y, n);
  }

  /** A join with two ways in, one of them TRUE and the other FALSE. */
  lemma EnteredTwice(h: Schema, y: Instance, e: Edge, f: Edge, n: Id)
    requires Inv(h, y) && Settled(h, y) && e in h.edges && f in h.edges && n == e.target == f.target
    requires y.edgeStates[e].TRUE_SIGNALED? && y.edgeStates[f].FALSE_SIGNALED?
    requires n in h.nodes && h.nodes[n].IsJoin() && forall d :: d in h.edges && d.target == n ==> d == e || d == f
    ensures y.nodeStates[n] == if h.nodes[n].AND_JOIN? then SKIPPED else COMPLETED
  {
    assert NodeOk(h, y, n) && SettledAt(h, y, n);
  }

  /** After instantiation: `a` was chosen; `a` and `c` are to be worked on. */
  ghost predicate Offered(h: Schema, x: Id, a: Id, b: Id, c: Id, y: Instance) {
    && Inv(h, y) && Settled(h, y) && {x, a, b, c} <= y.nodeStates.Keys
    && y.nodeStates[x].COMPLETED? && x in y.decisions && y.decisions[x] == a && y.nodeStates[b].SKIPPED?
    && y.nodeStates[a].ACTIVATED? && y.nodeStates[c].ACTIVATED?
  }

  /** After completing `a`: the AND join `j` was skipped. */
  ghost predicate Bypassed(h: Schema, x: Id, j: Id, c: Id, y: Instance) {
    && Inv(h, y) && Settled(h, y) && {x, j, c} <= y.nodeStates.Keys
    && y.nodeStates[x].COMPLETED? && y.nodeStates[j].SKIPPED? && y.nodeStates[c].ACTIVATED?
  }

  lemma SplitsDone(h: Schema, st: Id, en: Id, s: Id, k: Id, c: Id, x: Id, j: Id, a: Id, b: Id, y: Instance)
    requires IsExchanged(h, st, en, s, k, c, x, j, a, b) && Inv(h, y) && Settled(h, y)
    ensures y.nodeStates[s].COMPLETED? && y.nodeStates[x].COMPLETED? && !y.nodeStates[c].NOT_ACTIVATED? && !y.nodeStates[c].SKIPPED?
  {
    assert NodeOk(h, y, st) && SettledAt(h, y, st);
    var e, f, d := Edge(st, s), Edge(s, x), Edge(s, c);
    assert y.edgeStates[e] == Told(h, y, e);
    EnteredOnce(h, y, e, s);
    assert y.edgeStates[f] == Told(h, y, f) && y.edgeStates[d] == Told(h, y, d);
    EnteredOnce(h, y, f, x);
    EnteredOnce(h, y, d, c);
  }

  lemma OfferedFirst(h: Schema, st: Id, en: Id, s: Id, k: Id, c: Id, x: Id, j: Id, a: Id, b: Id, data: map<Id, Value>, y: Instance)
    requires IsExchanged(h, st, en, s, k, c, x, j, a, b) && Choice(h, data, x) == Some(a) && Outcome(h, Initial(h, data), y)
    ensures Offered(h, x, a, b, c, y)
  {
    SplitsDone(h, st, en, s, k, c, x, j, a, b, y);
    assert Grows(h, Initial(h, data), y, x) && NodeOk(h, y, x);
    var e, f := Edge(x, a), Edge(x, b);
    assert y.edgeStates[e] == Told(h, y, e) && y.edgeStates[f] == Told(h, y, f);
    EnteredOnce(h, y, e, a);
    EnteredOnce(h, y, f, b);
    assert Grows(h, Initial(h, data), y, a) && Grows(h, Initial(h, data), y, c);
  }

  lemma BypassedThen(h: Schema, st: Id, en: Id, s: Id, k: Id, c: Id, x: Id, j: Id, a: Id, b: Id, y: Instance, z: Instance)
    requires IsExchanged(h, st, en, s, k, c, x, j, a, b) && Offered(h, x, a, b, c, y) && Outcome(h, Begun(h, y, a, map[]), z)
    ensures Bypassed(h, x, j, c, z)
  {
    var begun := Begun(h, y, a, map[]);
    assert Grows(h, begun, z, x) && Grows(h, begun, z, c) && Grows(h, begun, z, a) && Grows(h, begun, z, b);
    var e, f := Edge(a, j), Edge(b, j);
    assert z.edgeStates[e] == Told(h, z, e) && z.edgeStates[f] == Told(h, z, f);
    EnteredTwice(h, z, e, f, j);
  }

  lemma DoneInTheEnd(h: Schema, st: Id, en: Id, s: Id, k: Id, c: Id, x: Id, j: Id, a: Id, b: Id, y: Instance, z: Instance)
    requires IsExchanged(h, st, en, s, k, c, x, j, a, b) && Bypassed(h, x, j, c, y) && Outcome(h, Begun(h, y, c, map[]), z)
    ensures z.done && z.nodeStates[x].COMPLETED? && z.nodeStates[j].SKIPPED?
  {
    var begun := Begun(h, y, c, map[]);
    assert Grows(h, begun, z, x) && Grows(h, begun, z, j) && Grows(h, begun, z, c);
    EndReached(h, st, en, s, k, c, x, j, a, b, z);
  }

  lemma EndReached(h: Schema, st: Id, en: Id, s: Id, k: Id, c: Id, x: Id, j: Id, a: Id, b: Id, z: Instance)
    requires IsExchanged(h, st, en, s, k, c, x, j, a, b) && Inv(h, z) && Settled(h, z)
    requires z.nodeStates[j].SKIPPED? && z.nodeStates[c].COMPLETED?
    ensures z.done
  {
    var e, f, d := Edge(c, k), Edge(j, k), Edge(k, en);
    assert z.edgeStates[e] == Told(h, z, e) && z.edgeStates[f] == Told(h, z, f);
    EnteredTwice(h, z, e, f, k);
    assert z.edgeStates[d] == Told(h, z, d);
    EnteredOnce(h, z, d, en);
  }

  /** The advance of the exchanged diagram cannot get stuck while the data choose `a`. */
  lemma ExchangedAdvances(h: Schema, x: Id, a: Id, y: Instance) returns (z: Instance)
    requires Runnable(h) && Inv(h, y) && OfType(h, XOR_SPLIT) == {x} && Choice(h, y.data, x) == Some(a)
    ensures Outcome(h, y, z)
  {
    assert forall n :: n in h.nodes && h.nodes[n].XOR_SPLIT? ==> n in OfType(h, XOR_SPLIT);
    var stuck;
    z, stuck := AdvanceEnds(h, y);
  }

  lemma SwapConnected(g: Schema, j: Id, k: Id)
    requires Connected(g) && j in g.nodes && g.nodes[j].XOR_JOIN? && k in g.nodes && g.nodes[k].AND_JOIN?
    ensures Connected(SwapJoins(g, j, k))
  {
    var h := SwapJoins(g, j, k);
    forall n ensures (Entered(g, n) <==> Entered(h, n)) && (Left(g, n) <==> Left(h, n)) {}
  }

  lemma SwapAcyclic(g: Schema, j: Id, k: Id)
    requires Acyclic(g) && j in g.nodes && k in g.nodes
    ensures Acyclic(SwapJoins(g, j, k))
  {
    var rank :| Ranked(g, rank);
    assert Ranked(SwapJoins(g, j, k), rank);
  }

  lemma SwapRuns(g: Schema, p: Process, j: Id, k: Id)
    requires Flattens(g, p) && K7(g) && j in g.nodes && g.nodes[j].XOR_JOIN? && k in g.nodes && g.nodes[k].AND_JOIN?
    ensures Runnable(SwapJoins(g, j, k))
  {
    FlatteningIsRunnable(g, p);
    SwapConnected(g, j, k);
    SwapAcyclic(g, j, k);
    var s :| OnlyStart(g, s);
    assert OnlyStart(SwapJoins(g, j, k), s);
  }

  /** The run: instantiate, complete `a`, complete `c`. */
  lemma ExchangedRun(h: Schema, st: Id, en: Id, s: Id, k: Id, c: Id, x: Id, j: Id, a: Id, b: Id, data: map<Id, Value>)
    returns (y: Instance, z: Instance, w: Instance)
    requires IsExchanged(h, st, en, s, k, c, x, j, a, b) && Runnable(h) && OfType(h, XOR_SPLIT) == {x} && Choice(h, data, x) == Some(a)
    ensures Outcome(h, Initial(h, data), y) && ReadyAt(h, y, a) && Outcome(h, Begun(h, y, a, map[]), z)
    ensures ReadyAt(h, z, c) && Outcome(h, Begun(h, z, c, map[]), w)
    ensures w.done && w.nodeStates[x].COMPLETED? && w.nodeStates[j].SKIPPED?
  {
    InitialKeepsInv(h, data);
    y := ExchangedAdvances(h, x, a, Initial(h, data));
    OfferedFirst(h, st, en, s, k, c, x, j, a, b, data, y);
    BegunKeepsInv(h, y, a, map[]);
    z := ExchangedAdvances(h, x, a, Begun(h, y, a, map[]));
    BypassedThen(h, st, en, s, k, c, x, j, a, b, y, z);
    BegunKeepsInv(h, z, c, map[]);
    w := ExchangedAdvances(h, x, a, Begun(h, z, c, map[]));
    DoneInTheEnd(h, st, en, s, k, c, x, j, a, b, z, w);
  }

  lemma NestedExchanged(g: Schema, st: Id, en: Id, s: Id, k: Id, c: Id, x: Id, j: Id, a: Id, b: Id)
    requires NineApart(st, en, s, k, c, x, j, a, b)
    requires g.nodes == map[a := ACTIVITY, b := ACTIVITY, x := XOR_SPLIT, j := XOR_JOIN, c := ACTIVITY]
                        [s := AND_SPLIT][k := AND_JOIN][st := START][en := END]
    requires g.edges == [Edge(st, s)] + [Edge(s, x), Edge(x, a), Edge(a, j), Edge(x, b), Edge(b, j), Edge(j, k)]
                        + [Edge(s, c), Edge(c, k), Edge(k, en)]
    ensures j in g.nodes && g.nodes[j].XOR_JOIN? && k in g.nodes && g.nodes[k].AND_JOIN? && OfType(g, XOR_SPLIT) == {x}
    ensures IsExchanged(SwapJoins(g, j, k), st, en, s, k, c, x, j, a, b)
  {
    NineDiffer(st, en, s, k, c, x, j, a, b);
  }

  /**
   Exchanging the two joins is accepted, and an instance of the result is COMPLETED by completing `a`
   and `c`, with the join `j` skipped although its split `x` was completed.
   */
  lemma ExchangedMayComplete(st: Id, en: Id, s: Id, k: Id, c: Id, x: Id, j: Id, a: Id, b: Id, v: Id, data: map<Id, Value>)
    returns (g: Schema, p: Process, y: Instance, z: Instance, w: Instance)
    requires NineApart(st, en, s, k, c, x, j, a, b) && v in data && Truthy(data[v])
    ensures p == Nested(st, en, s, k, c, x, j, a, b) && Flattens(g, p)
    ensures Structural(g) && j in g.nodes && k in g.nodes && Structural(SwapJoins(g, j, k))
    ensures var h := SwapJoins(g, j, k);
            && Outcome(h, Initial(h, data), y) && ReadyAt(h, y, a) && Outcome(h, Begun(h, y, a, map[]), z)
            && ReadyAt(h, z, c) && Outcome(h, Begun(h, z, c, map[]), w)
            && {x, j} <= w.nodeStates.Keys && w.done && w.nodeStates[x].COMPLETED? && w.nodeStates[j].SKIPPED?
  {
    g, p := NestedValid(st, en, s, k, c, x, j, a, b, v);
    MismatchedJoinsPass(g, p, j, k);
    SwapRuns(g, p, j, k);
    var h := SwapJoins(g, j, k);
    EitherChooses(h, x, v, a, b, data);
    y, z, w := ExchangedRun(h, st, en, s, k, c, x, j, a, b, data);
  }

  lemma EitherChooses(h: Schema, x: Id, v: Id, a: Id, b: Id, data: map<Id, Value>)
    requires h.decisions == map[x := Either(v, a, b)] && v in data && Truthy(data[v])
    ensures Choice(h, data, x) == Some(a)
  {}

  lemma NestedValid(st: Id, en: Id, s: Id, k: Id, c: Id, x: Id, j: Id, a: Id, b: Id, v: Id) returns (g: Schema, p: Process)
    requires NineApart(st, en, s, k, c, x, j, a, b)
    ensures p == Nested(st, en, s, k, c, x, j, a, b) && Flattens(g, p) && Structural(g) && g.decisions == map[x := Either(v, a, b)]
    ensures j in g.nodes && g.nodes[j].XOR_JOIN? && k in g.nodes && g.nodes[k].AND_JOIN?
    ensures IsExchanged(SwapJoins(g, j, k), st, en, s, k, c, x, j, a, b) && OfType(SwapJoins(g, j, k), XOR_SPLIT) == {x}
  {
    p := Nested(st, en, s, k, c, x, j, a, b);
    g := Drawn(p, map[x := Either(v, a, b)]);
    NestedForm(st, en, s, k, c, x, j, a, b);
    NestedGraph(g, p, st, en, s, k, c, x, j, a, b, map[x := Either(v, a, b)]);
    EitherIsValid(g, p, x, v, a, b);
    SwapTypes(g, j, k);
  }

  lemma NestedGraph(g: Schema, p: Process, st: Id, en: Id, s: Id, k: Id, c: Id, x: Id, j: Id, a: Id, b: Id, ds: map<Id, XorDecision>)
    requires NineApart(st, en, s, k, c, x, j, a, b) && p == Nested(st, en, s, k, c, x, j, a, b) && g == Drawn(p, ds)
    ensures j in g.nodes && g.nodes[j].XOR_JOIN? && k in g.nodes && g.nodes[k].AND_JOIN?
    ensures OfType(g, XOR_SPLIT) == {x} && Outgoing(g.edges, x) == [Edge(x, a), Edge(x, b)]
    ensures IsExchanged(SwapJoins(g, j, k), st, en, s, k, c, x, j, a, b)
  {
    NestedDrawn(st, en, s, k, c, x, j, a, b, ds);
    NestedExchanged(g, st, en, s, k, c, x, j, a, b);
    NineDiffer(st, en, s, k, c, x, j, a, b);
    NestedOut(st, en, s, k, c, x, j, a, b);
  }

  // --- a discriminator that only a SUBPROCESS is to write ---------------------------------------------

  /** st -> w -> x, and from there as in `Choosing`; `w` is a SUBPROCESS. */
  function Delegating(st: Id, en: Id, w: Id, x: Id, j: Id, a: Id, b: Id): Process {
    Process(st, en, Task(w, SUBPROCESS,
      Gateway(XOR, x, j, Branch(Task(a, ACTIVITY, Done), Branch(Task(b, ACTIVITY, Done), NoBranch)), Done)))
  }

  /** The graph of `Delegating`, spelled out. */
  ghost predicate IsDelegating(g: Schema, st: Id, en: Id, w: Id, x: Id, j: Id, a: Id, b: Id) {
    && g.nodes == map[a := ACTIVITY, b := ACTIVITY, x := XOR_SPLIT, j := XOR_JOIN, w := SUBPROCESS, st := START, en := END]
    && forall e :: e in g.edges <==> e in {Edge(st, w), Edge(w, x), Edge(x, a), Edge(a, j), Edge(x, b), Edge(b, j), Edge(j, en)}
  }

  lemma DelegatingForm(st: Id, en: Id, w: Id, x: Id, j: Id, a: Id, b: Id) returns (p: Process)
    requires Apart([st, en, x, j, a, b]) && w !in {st, en, x, j, a, b}
    ensures p == Delegating(st, en, w, x, j, a, b) && WellFormed(p)
    ensures NodesOf(p.body) == map[a := ACTIVITY, b := ACTIVITY, x := XOR_SPLIT, j := XOR_JOIN, w := SUBPROCESS]
    ensures EdgeList(p.body, st, en) == [Edge(st, w)] + [Edge(w, x), Edge(x, a), Edge(a, j), Edge(x, b), Edge(b, j), Edge(j, en)]
  {
    SixApart(st, en, x, j, a, b);
    var block := Gateway(XOR, x, j, Branch(Task(a, ACTIVITY, Done), Branch(Task(b, ACTIVITY, Done), NoBranch)), Done);
    XorBlock(x, j, a, b, w, en);
    MoreTask(w, SUBPROCESS, block, st, en);
    p := Process(st, en, Task(w, SUBPROCESS, block));
  }

  lemma DelegatingSpelled(g: Schema, st: Id, en: Id, w: Id, x: Id, j: Id, a: Id, b: Id)
    requires Apart([st, en, x, j, a, b]) && w !in {st, en, x, j, a, b}
    requires g.nodes == map[a := ACTIVITY, b := ACTIVITY, x := XOR_SPLIT, j := XOR_JOIN, w := SUBPROCESS][st := START][en := END]
    requires g.edges == [Edge(st, w)] + [Edge(w, x), Edge(x, a), Edge(a, j), Edge(x, b), Edge(b, j), Edge(j, en)]
    ensures IsDelegating(g, st, en, w, x, j, a, b) && OfType(g, XOR_SPLIT) == {x}
  {
    SixApart(st, en, x, j, a, b);
  }

  lemma DelegatingOut(g: Schema, st: Id, en: Id, w: Id, x: Id, j: Id, a: Id, b: Id)
    requires x !in {st, en, w, j, a, b}
    requires g.edges == [Edge(st, w)] + [Edge(w, x), Edge(x, a), Edge(a, j), Edge(x, b), Edge(b, j), Edge(j, en)]
    ensures Outgoing(g.edges, x) == [Edge(x, a), Edge(x, b)]
  {
    NoneOut([Edge(st, w)], x);
    OutgoingConcat([Edge(st, w)], [Edge(w, x), Edge(x, a), Edge(a, j), Edge(x, b), Edge(b, j), Edge(j, en)], x);
    ChoiceOut(w, en, x, j, a, b);
  }

  /** What the analysis finds if `w` is declared to write `v`. */
  function BehindDelegate(g: Schema, st: Id, w: Id, v: Id): map<Id, set<Id>> {
    map n | n in g.nodes :: if n == st || n == w then {} else {v}
  }

  lemma DelegatingSolved(g: Schema, st: Id, en: Id, w: Id, x: Id, j: Id, a: Id, b: Id, v: Id)
    requires Apart([st, en, x, j, a, b]) && w !in {st, en, x, j, a, b} && IsDelegating(g, st, en, w, x, j, a, b)
    ensures var before := BehindDelegate(g, st, w, v); Solves(g, map[w := {v}], before) && x in before && v in before[x]
  {
    SixApart(st, en, x, j, a, b);
    assert Edge(st, w) in g.edges && Edge(w, x) in g.edges && Edge(x, a) in g.edges && Edge(x, b) in g.edges;
    assert Edge(a, j) in g.edges && Edge(b, j) in g.edges && Edge(j, en) in g.edges;
    forall n | n in g.nodes ensures SolvedAt(g, map[w := {v}], BehindDelegate(g, st, w, v), n) {
      DelegatingSolvedAt(g, st, en, w, x, j, a, b, v, n);
    }
  }

  lemma DelegatingSolvedAt(g: Schema, st: Id, en: Id, w: Id, x: Id, j: Id, a: Id, b: Id, v: Id, n: Id)
    requires Apart([st, en, x, j, a, b]) && w !in {st, en, x, j, a, b} && IsDelegating(g, st, en, w, x, j, a, b) && n in g.nodes
    ensures SolvedAt(g, map[w := {v}], BehindDelegate(g, st, w, v), n)
  {
    SixApart(st, en, x, j, a, b);
    var writes, before := map[w := {v}], BehindDelegate(g, st, w, v);
    forall e | e in g.edges && e.target == n
      ensures After(writes, before, e.source) == if n == w then {} else {v}
    {}
    var e := if n == w then Edge(st, w) else if n == x then Edge(w, x) else if n == j then Edge(a, j) else if n == en then Edge(j, en)
             else Edge(x, n);
    assert n != st ==> e in g.edges && e.target == n && HasEntry(g.edges, n);
    assert n == st ==> !HasEntry(g.edges, n);
  }

  /** The engine itself completes `w`, and does not write `v`. */
  lemma DelegateWritesNothing(g: Schema, st: Id, en: Id, w: Id, x: Id, j: Id, a: Id, b: Id, data: map<Id, Value>, z: Instance)
    requires Apart([st, en, x, j, a, b]) && w !in {st, en, x, j, a, b} && IsDelegating(g, st, en, w, x, j, a, b)
    requires Outcome(g, Initial(g, data), z)
    ensures Choice(g, data, x).Some?
  {
    SixApart(st, en, x, j, a, b);
    assert NodeOk(g, z, st) && SettledAt(g, z, st);
    var e, f := Edge(st, w), Edge(w, x);
    assert z.edgeStates[e] == Told(g, z, e);
    EnteredOnce(g, z, e, w);
    assert z.edgeStates[f] == Told(g, z, f);
    EnteredOnce(g, z, f, x);
    assert NodeOk(g, z, x) && Grows(g, Initial(g, data), z, x);
  }

  lemma EitherDecides(g: Schema, x: Id, v: Id, a: Id, b: Id, data: map<Id, Value>)
    requires g.decisions == map[x := Either(v, a, b)]
    ensures Choice(g, data, x).Some? <==> v in data
  {
    if v in data {
      var bs := Either(v, a, b).branches;
      assert bs[1..] == [bs[1]];
      assert Choice(g, data, x) == FirstTruth(bs, Truthy(data[v]));
      assert FirstTruth([bs[1]], false) == Some(b);
    }
  }

  lemma DelegatingAdvances(g: Schema, x: Id, data: map<Id, Value>) returns (z: Instance)
    requires Runnable(g) && OfType(g, XOR_SPLIT) == {x} && Choice(g, data, x).Some?
    ensures Outcome(g, Initial(g, data), z)
  {
    InitialKeepsInv(g, data);
    z := ExchangedAdvances(g, x, Choice(g, data, x).value, Initial(g, data));
  }

  /** The supply rule of K7: the analysis finds every discriminator written before its split. */
  ghost predicate AllSupplied(g: Schema, before: map<Id, set<Id>>) {
    forall s :: s in g.decisions ==> s in before && g.decisions[s].discriminator in before[s]
  }

  lemma OneSupplied(g: Schema, before: map<Id, set<Id>>, x: Id, v: Id, a: Id, b: Id)
    requires g.decisions == map[x := Either(v, a, b)] && x in before && v in before[x]
    ensures AllSupplied(g, before)
  {}

  ghost predicate Instantiable(g: Schema, data: map<Id, Value>) {
    exists z :: Outcome(g, Initial(g, data), z)
  }

  /**
   The supply rule of K7 counts the output mappings of a SUBPROCESS. This schema is valid and the
   analysis supplies its discriminator `v`, yet it can be instantiated exactly with data that set `v`.
   */
  lemma DelegatedDiscriminator(st: Id, en: Id, w: Id, x: Id, j: Id, a: Id, b: Id, v: Id, data: map<Id, Value>)
    returns (g: Schema, p: Process, before: map<Id, set<Id>>)
    requires Apart([st, en, x, j, a, b]) && w !in {st, en, x, j, a, b}
    ensures p == Delegating(st, en, w, x, j, a, b) && Flattens(g, p) && Structural(g) && g.decisions == map[x := Either(v, a, b)]
    ensures Solves(g, map[w := {v}], before) && AllSupplied(g, before)
    ensures Instantiable(g, data) <==> v in data
  {
    g, p := DelegatingValid(st, en, w, x, j, a, b, v);
    before := BehindDelegate(g, st, w, v);
    DelegatingSolved(g, st, en, w, x, j, a, b, v);
    OneSupplied(g, before, x, v, a, b);
    DelegatingStarts(g, p, st, en, w, x, j, a, b, v, data);
  }

  lemma DelegatingValid(st: Id, en: Id, w: Id, x: Id, j: Id, a: Id, b: Id, v: Id) returns (g: Schema, p: Process)
    requires Apart([st, en, x, j, a, b]) && w !in {st, en, x, j, a, b}
    ensures p == Delegating(st, en, w, x, j, a, b) && Flattens(g, p) && Structural(g) && g.decisions == map[x := Either(v, a, b)]
    ensures IsDelegating(g, st, en, w, x, j, a, b) && OfType(g, XOR_SPLIT) == {x}
  {
    p := DelegatingForm(st, en, w, x, j, a, b);
    g := Drawn(p, map[x := Either(v, a, b)]);
    DelegatingSpelled(g, st, en, w, x, j, a, b);
    SixApart(st, en, x, j, a, b);
    DelegatingOut(g, st, en, w, x, j, a, b);
    EitherIsValid(g, p, x, v, a, b);
  }

  lemma DelegatingStarts(g: Schema, p: Process, st: Id, en: Id, w: Id, x: Id, j: Id, a: Id, b: Id, v: Id, data: map<Id, Value>)
    requires Apart([st, en, x, j, a, b]) && w !in {st, en, x, j, a, b} && IsDelegating(g, st, en, w, x, j, a, b)
    requires Flattens(g, p) && K7(g) && g.decisions == map[x := Either(v, a, b)] && OfType(g, XOR_SPLIT) == {x}
    ensures Instantiable(g, data) <==> v in data
  {
    EitherDecides(g, x, v, a, b, data);
    if v in data {
      FlatteningIsRunnable(g, p);
      var z := DelegatingAdvances(g, x, data);
    }
    forall z | Outcome(g, Initial(g, data), z) ensures v in data {
      DelegateWritesNothing(g, st, en, w, x, j, a, b, data, z);
    }
  }

  // --- a deletion that empties a parallel branch -------------------------------------------------

  /** An AND block with `y` in one branch and, in the other, an AND block of which one branch is empty. */
  function Emptying(st: Id, en: Id, s: Id, j: Id, y: Id, t: Id, k: Id, x: Id): Process {
    Process(st, en, Gateway(AND, s, j, Branch(HalfEmpty(t, k, x, Done, NoBranch, Done), Branch(Task(y, ACTIVITY, Done), NoBranch)), Done))
  }

  function HalfEmpty(t: Id, k: Id, x: Id, empty: Block, last: Block, next: Block): Block {
    Gateway(AND, t, k, Branch(Task(x, ACTIVITY, empty), Branch(empty, last)), next)
  }

  lemma HalfEmptyForm(t: Id, k: Id, x: Id, empty: Block, last: Block, next: Block, s: Id, j: Id)
    requires empty.Done? && last.NoBranch? && next.Done? && t != k && t != x && k != x
    ensures var b := HalfEmpty(t, k, x, empty, last, next);
            && IsChain(b) && Distinct(b) && Ids(b) == {t, k, x} && NodesOf(b) == map[x := ACTIVITY, t := AND_SPLIT, k := AND_JOIN]
  {
    OneStep(x, ACTIVITY, empty, t, k);
    EmptyBranch(empty, last);
    var bs := Branch(Task(x, ACTIVITY, empty), Branch(empty, last));
    assert Ids(bs) == {x} && IsBundle(bs) && Width(bs) == 2 && Distinct(bs) && NodesOf(bs) == map[x := ACTIVITY];
    assert Ids(next) == {} && NodesOf(next) == map[];
  }

  lemma EmptyBranch(empty: Block, last: Block)
    requires empty.Done? && last.NoBranch?
    ensures var b := Branch(empty, last); IsBundle(b) && Width(b) == 1 && Distinct(b) && Ids(b) == {} && NodesOf(b) == map[]
  {}

  lemma EmptyingForm(st: Id, en: Id, s: Id, j: Id, y: Id, t: Id, k: Id, x: Id)
    requires Apart([st, en, s, j, y, t, k, x])
    ensures WellFormed(Emptying(st, en, s, j, y, t, k, x)) && Apart([st, en, s, j, y]) && st != en
    ensures {t, k, x} !! {st, en, s, j, y} && t != k && t != x && k != x && s != j && y != s && y != j
  {
    var ids := [st, en, s, j, y, t, k, x];
    assert ids[0] == st && ids[1] == en && ids[2] == s && ids[3] == j && ids[4] == y && ids[5] == t && ids[6] == k && ids[7] == x;
    EmptyingParts(s, j, y, t, k, x);
    var u, v := HalfEmpty(t, k, x, Done, NoBranch, Done), Task(y, ACTIVITY, Done);
    assert Ids(Done) == {};
    GatewayForm(AND, s, j, Branch(u, Branch(v, NoBranch)), Done, st, en);
  }

  lemma EmptyingParts(s: Id, j: Id, y: Id, t: Id, k: Id, x: Id)
    requires t != k && t != x && k != x && y !in {t, k, x}
    ensures var u, v := HalfEmpty(t, k, x, Done, NoBranch, Done), Task(y, ACTIVITY, Done);
            var bs := Branch(u, Branch(v, NoBranch));
            && Ids(u) == {t, k, x} && Ids(v) == {y} && IsBundle(bs) && Width(bs) == 2 && Distinct(bs) && Ids(bs) == {t, k, x, y}
            && NodesOf(bs) == map[x := ACTIVITY, t := AND_SPLIT, k := AND_JOIN, y := ACTIVITY]
  {
    HalfEmptyForm(t, k, x, Done, NoBranch, Done, s, j);
    OneStep(y, ACTIVITY, Done, s, j);
    TwoChains(HalfEmpty(t, k, x, Done, NoBranch, Done), Task(y, ACTIVITY, Done), NoBranch, s, j);
  }

  /** Where a node of the first branch of a gateway sits. */
  lemma SiteInFirst(b: Block, src: Id, dst: Id, n: Id)
    requires b.Gateway? && !Owns(b, n) && b.branches.Branch? && n in Ids(b.branches.body)
    ensures SiteOf(b, src, dst, n) == SiteOf(b.branches.body, b.split, b.join, n)
  {
    assert n in Ids(b.branches);
    assert SiteOf(b.branches, b.split, b.join, n) == SiteOf(b.branches.body, b.split, b.join, n);
  }

  lemma OwnSite(b: Block, src: Id, dst: Id, n: Id)
    requires Owns(b, n)
    ensures SiteOf(b, src, dst, n) == Site(b, src, dst)
  {}

  lemma EmptyingSites(p: Process, outer: Block, inner: Block, step: Block, x: Id)
    requires p.body == outer && outer.Gateway? && outer.branches.Branch? && outer.branches.body == inner
    requires inner.Gateway? && inner.branches.Branch? && inner.branches.body == step && step.Task? && step.id == x && step.next.Done?
    requires x !in {inner.split, inner.join} && {x, inner.split} !! {outer.split, outer.join}
    requires inner.branches.more.Branch? && inner.branches.more.body.Done? && inner.branches.more.more.NoBranch?
    ensures SoleBlock(p, x) == inner && LeavesNothing(p, x)
    ensures NodeBefore(p, x) == outer.split && (inner.next.Done? ==> NodeBehind(p, x) == outer.join)
  {
    assert x in Ids(step) && x in Ids(inner.branches) && x in Ids(inner);
    SiteInFirst(outer, p.start, p.end, x);
    SiteInFirst(inner, outer.split, outer.join, x);
    OwnSite(step, inner.split, inner.join, x);
    assert inner.split in Ids(inner);
    SiteInFirst(outer, p.start, p.end, inner.split);
    OwnSite(inner, outer.split, outer.join, inner.split);
    assert inner.split in Ids(outer.branches);
  }

  lemma EmptyingTypes(nodes: map<Id, NodeType>, st: Id, en: Id, s: Id, j: Id, y: Id, t: Id, k: Id, x: Id)
    requires Apart([st, en, s, j, y]) && {t, k, x} !! {st, en, s, j, y} && t != k && t != x && k != x
    requires nodes == map[x := ACTIVITY, t := AND_SPLIT, k := AND_JOIN, y := ACTIVITY][s := AND_SPLIT][j := AND_JOIN][st := START][en := END]
    ensures forall n :: n in nodes ==> !nodes[n].XOR_SPLIT?
    ensures s in nodes && nodes[s].AND_SPLIT? && j in nodes && nodes[j].AND_JOIN? && x in nodes && nodes[x].ACTIVITY?
  {
    var ids := [st, en, s, j, y];
    assert ids[0] == st && ids[1] == en && ids[2] == s && ids[3] == j && ids[4] == y;
  }

  lemma EmptyingDrawn(st: Id, en: Id, s: Id, j: Id, y: Id, t: Id, k: Id, x: Id) returns (g: Schema, p: Process)
    requires Apart([st, en, s, j, y, t, k, x])
    ensures p == Emptying(st, en, s, j, y, t, k, x) && Flattens(g, p) && Structural(g)
    ensures s in g.nodes && g.nodes[s].AND_SPLIT? && j in g.nodes && g.nodes[j].AND_JOIN? && x in g.nodes && g.nodes[x].ACTIVITY?
  {
    p := Emptying(st, en, s, j, y, t, k, x);
    g := Drawn(p, map[]);
    EmptyingForm(st, en, s, j, y, t, k, x);
    EmptyingParts(s, j, y, t, k, x);
    GatewayDrawn(AND, s, j, p.body.branches, Done, st, en, map[]);
    NestedMaps(NodesOf(p.body.branches), NodesOf(Done));
    EmptyingTypes(g.nodes, st, en, s, j, y, t, k, x);
    assert OfType(g, XOR_SPLIT) == {};
    DrawnIsValid(g, p, map[]);
  }

  lemma EmptyingSoles(p: Process, st: Id, en: Id, s: Id, j: Id, y: Id, t: Id, k: Id, x: Id)
    requires Apart([st, en, s, j, y, t, k, x]) && p == Emptying(st, en, s, j, y, t, k, x)
    ensures LeavesNothing(p, x) && SoleBlock(p, x).split == t && SoleBlock(p, x).join == k
    ensures NodeBefore(p, x) == s && NodeBehind(p, x) == j
  {
    EmptyingForm(st, en, s, j, y, t, k, x);
    EmptyingSites(p, p.body, p.body.branches.body, p.body.branches.body.branches.body, x);
  }

  lemma EmptyingCandidate(g: Schema, p: Process, c: Schema, s: Id, j: Id, t: Id, k: Id, x: Id)
    requires LeavesNothing(p, x) && SoleBlock(p, x).split == t && SoleBlock(p, x).join == k
    requires NodeBefore(p, x) == s && NodeBehind(p, x) == j
    requires c == g.(nodes := g.nodes - {x, t, k}, decisions := g.decisions - {x, t, k},
                     edges := Detached(Detached(g.edges, {x}), {t, k}) + [Edge(s, k)] + [Edge(t, j)])
    ensures IsCandidate(g, p, x, c)
    ensures Edge(s, k) in c.edges && Edge(t, j) in c.edges && k !in c.nodes && t !in c.nodes
  {
    assert SiteOf(p.body, p.start, p.end, t).chain == SoleBlock(p, x);
  }

  /**
   Deleting `x`: the rules K1, K2, K3 and K7 find nothing wrong with the candidate, although its edges
   lead to and from nodes that are gone; only the data-flow analysis fails on it.
   */
  lemma EmptyingPassesRules(st: Id, en: Id, s: Id, j: Id, y: Id, t: Id, k: Id, x: Id) returns (g: Schema, p: Process, c: Schema)
    requires Apart([st, en, s, j, y, t, k, x])
    ensures p == Emptying(st, en, s, j, y, t, k, x) && Flattens(g, p) && Structural(g) && IsCandidate(g, p, x, c)
    ensures K1(c) && K2(c) && K3(c) && K7(c) && !Resolves(c)
    ensures Edge(s, k) in c.edges && Edge(t, j) in c.edges && k !in c.nodes && t !in c.nodes
  {
    g, p := EmptyingDrawn(st, en, s, j, y, t, k, x);
    EmptyingSoles(p, st, en, s, j, y, t, k, x);
    c := g.(nodes := g.nodes - {x, t, k}, decisions := g.decisions - {x, t, k},
            edges := Detached(Detached(g.edges, {x}), {t, k}) + [Edge(s, k)] + [Edge(t, j)]);
    EmptyingCandidate(g, p, c, s, j, t, k, x);
    EmptyingRules(g, p, x, c);
  }

  lemma EmptyingRules(g: Schema, p: Process, x: Id, c: Schema)
    requires Flattens(g, p) && K7(g) && IsCandidate(g, p, x, c) && FillsParallelBranch(g, p, x)
    ensures K1(c) && K2(c) && K3(c) && K7(c) && !Resolves(c)
  {
    RemnantPassesIff(g, p, x, c);
  }
}

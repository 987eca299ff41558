/**
 The life of a schema: created empty, changed by the insert and delete operations, released and
 revised. Every schema reached that way is the flattening of a block term.
 */
module Design {
  import opened Model
  import opened Blocks
  import opened Edits
  import opened Marking
  import opened Validator
  import opened Structure
  import opened Execution
  import opened Operations
  import opened Deletion
  import opened Adhoc
  import opened Migration

  /** A schema with its block term. */
  datatype Draft = Draft(schema: Schema, term: Process)

  function EmptySchema(start: Id, end: Id): Schema {
    Schema(ENTWURF, 1, map[start := START, end := END], [Edge(start, end)], map[])
  }

  /** `create_empty_schema`: START -> END. */
  method CreateEmpty(start: Id, end: Id, rest: Schema -> bool) returns (r: Result<Schema>)
    requires start != end
    ensures r.Ok? <==> rest(EmptySchema(start, end))
    ensures r.Ok? ==> r.value == Schema(ENTWURF, 1, map[start := START, end := END], [Edge(start, end)], map[])
    ensures r.Ok? ==> r.value == EmptySchema(start, end) && Flattens(r.value, Process(start, end, Done)) && Valid(r.value, rest)
  {
    var g := Schema(ENTWURF, 1, map[start := START, end := END], [Edge(start, end)], map[]);
    EmptyFlattens(start, end);
    r := RaiseIfInvalid(g, rest);
  }

  lemma EmptyFlattens(start: Id, end: Id)
    requires start != end
    ensures Flattens(EmptySchema(start, end), Process(start, end, Done)) && Structural(EmptySchema(start, end))
  {
    var g, p := EmptySchema(start, end), Process(start, end, Done);
    EmptyTerm(start, end);
    EmptyK7(start, end);
    FlatteningIsStructural(g, p);
  }

  lemma EmptyTerm(start: Id, end: Id)
    requires start != end
    ensures Flattens(EmptySchema(start, end), Process(start, end, Done))
  {
    assert Ids(Done) == {};
    assert EdgeBag(Done, start, end) == multiset{Edge(start, end)};
  }

  lemma EmptyK7(start: Id, end: Id)
    ensures K7(EmptySchema(start, end))
  {
    assert OfType(EmptySchema(start, end), XOR_SPLIT) == {};
  }

  /** `release` */
  method Release(g: Schema, rest: Schema -> bool) returns (r: Result<Schema>)
    ensures r.Ok? <==> (g.lifecycle.ENTWURF? || g.lifecycle.REVIEW?) && Valid(g, rest)
    ensures r.Ok? ==> r.value == g.(lifecycle := RELEASED)
  {
    if !g.lifecycle.ENTWURF? && !g.lifecycle.REVIEW? { return Err(Incorrect("LC")); }
    var valid := RaiseIfInvalid(g, rest);
    if valid.Err? { return valid; }
    return Ok(g.(lifecycle := RELEASED));
  }

  /** `new_revision`: an editable copy with the same ids. */
  method NewRevision(g: Schema, rest: Schema -> bool) returns (r: Result<Schema>)
    ensures r.Ok? <==> g.lifecycle.RELEASED? && Valid(g.(version := g.version + 1, lifecycle := ENTWURF), rest)
    ensures r.Ok? ==> r.value == g.(version := g.version + 1, lifecycle := ENTWURF)
  {
    if !g.lifecycle.RELEASED? { return Err(Incorrect("LC")); }
    r := RaiseIfInvalid(g.(version := g.version + 1, lifecycle := ENTWURF), rest);
  }

  datatype Change =
    | Insertion(after: Id, chain: Block, decisions: map<Id, XorDecision>)
    | Removal(id: Id)
    | Releasing
    | Revising

  /**
   What an accepted change makes of a draft: the schema is what the operation proposes, and the
   validator has accepted it. The term follows the change; nothing is said about it here.
   */
  ghost predicate Changes(c: Draft, change: Change, rest: Schema -> bool, d: Draft) {
    && Valid(d.schema, rest)
    && match change {
         case Insertion(after, f, ds) =>
           && Anchor(c.schema, after) && IsChain(f) && Distinct(f) && Splices(c.schema, after, f, ds, d.schema)
           && d.term == EditProcess(c.term, after, Insert(f))
         case Removal(n) =>
           Deletable(c.schema, n) && d.schema == DeletionCandidate(c.schema, c.term, n) && d.term == Deleted(c.term, n)
         case Releasing =>
           (c.schema.lifecycle.ENTWURF? || c.schema.lifecycle.REVIEW?) && d == c.(schema := c.schema.(lifecycle := RELEASED))
         case Revising =>
           c.schema.lifecycle.RELEASED? && d == c.(schema := c.schema.(version := c.schema.version + 1, lifecycle := ENTWURF))
       }
  }

  /** What the insertions accept is such a change. */
  lemma AcceptedInsertion(g: Schema, p: Process, after: Id, f: Block, ds: map<Id, XorDecision>, rest: Schema -> bool, r: Result<Schema>)
    requires InsertPost(g, p, after, f, ds, rest, r) && r.Ok? && IsChain(f) && Distinct(f)
    ensures Changes(Draft(g, p), Insertion(after, f, ds), rest, Draft(r.value, EditProcess(p, after, Insert(f))))
  {
    var c :| Splices(g, after, f, ds, c) && r == Committed(c, rest);
  }

  /** What the deletion accepts is such a change. */
  lemma AcceptedRemoval(g: Schema, p: Process, n: Id, rest: Schema -> bool, r: Result<Schema>)
    requires DeletePost(g, p, n, rest, r) && r.Ok?
    ensures Changes(Draft(g, p), Removal(n), rest, Draft(r.value, Deleted(p, n)))
  {
    assert r == Committed(DeletionCandidate(g, p, n), rest);
  }

  ghost predicate Developed(drafts: seq<Draft>, changes: seq<Change>, rest: Schema -> bool) {
    && |drafts| == |changes| + 1
    && (changes != [] ==>
          var k := |changes| - 1;
          Developed(drafts[..k + 1], changes[..k], rest) && Changes(drafts[k], changes[k], rest, drafts[k + 1]))
  }

  /**
   Correctness by construction: whatever the operations propose and the validator accepts, starting
   from a block-structured schema, is block-structured and can be run.
   */
  lemma {:induction false} DevelopedIsRunnable(drafts: seq<Draft>, changes: seq<Change>, rest: Schema -> bool)
    requires Developed(drafts, changes, rest) && Flattens(drafts[0].schema, drafts[0].term) && K7(drafts[0].schema)
    ensures var d := drafts[|changes|]; Flattens(d.schema, d.term) && Structural(d.schema) && Runnable(d.schema)
  {
    var d := drafts[|changes|];
    if changes != [] {
      var k := |changes| - 1;
      DevelopedIsRunnable(drafts[..k + 1], changes[..k], rest);
      ChangeKeeps(drafts[k], changes[k], rest, d);
    }
    FlatteningIsStructural(d.schema, d.term);
    FlatteningIsRunnable(d.schema, d.term);
  }

  /** An accepted change of a block-structured schema leads to a block-structured one. */
  lemma ChangeKeeps(c: Draft, change: Change, rest: Schema -> bool, d: Draft)
    requires Flattens(c.schema, c.term) && Changes(c, change, rest, d)
    ensures Flattens(d.schema, d.term) && K7(d.schema)
  {
    match change
    case Insertion(after, f, ds) =>
      var h :| Spliced(c.schema, d.schema, after, h, f);
      AcceptedSplice(c.schema, d.schema, c.term, after, h, f);
    case Removal(n) => DeletionMeans(c.schema, c.term, n);
    case Releasing => SameGraph(c.schema, d.schema, c.term);
    case Revising => SameGraph(c.schema, d.schema, c.term);
  }

  lemma SameGraph(g: Schema, h: Schema, p: Process)
    requires Flattens(g, p) && h.nodes == g.nodes && h.edges == g.edges && h.decisions == g.decisions
    ensures Flattens(h, p) && (K7(g) ==> K7(h))
  {
    assert OfType(h, XOR_SPLIT) == OfType(g, XOR_SPLIT);
  }

  ghost predicate SameControlFlow(g: Schema, h: Schema) {
    h.nodes == g.nodes && h.edges == g.edges && h.decisions == g.decisions
  }

  lemma RevisionPasses(g: Schema, p: Process, h: Schema, x: Instance)
    requires Flattens(g, p) && Inv(g, x) && SameControlFlow(g, h)
    ensures Passes(x, g, h)
  {
    forall f ensures !IsM2(x, g, h, f) && !IsM3(x, g, h, f) {
      if f.RunningLost? || f.NotAStep? { assert f.id in g.nodes ==> NodeOk(g, x, f.id); }
    }
  }

  lemma RevisionKeeps(g: Schema, p: Process, h: Schema, x: Instance)
    requires Flattens(g, p) && Inv(g, x) && Settled(g, x) && SameControlFlow(g, h)
    ensures SkippedKeep(g, h, x) && ActiveKeep(h, x) && WaitingKeep(g, h, x)
  {
    forall m | m in x.nodeStates && x.nodeStates[m].ACTIVATED? && m in h.nodes ensures h.nodes[m].ACTIVITY? { assert SettledAt(g, x, m); }
    forall e | e in g.edges && e.source in FinishedNodes(x) && Awaited(x, e.target) ensures h.nodes[e.target].IsJoin() {
      WaitingIsJoin(g, p, x, e);
    }
  }

  lemma RevisionMarking(g: Schema, h: Schema, x: Instance, mapping: map<Id, Value>)
    requires Shaped(g, x) && SameControlFlow(g, h)
    ensures Migrated(h, x, mapping) == x.(data := x.data + mapping)
  {
    assert Migrated(h, x, mapping).nodeStates == x.nodeStates;
    assert Migrated(h, x, mapping).edgeStates == x.edgeStates;
  }

  /** A revision without changes can take over every settled instance, marking and all. */
  lemma RevisionTakesOver(g: Schema, p: Process, h: Schema, x: Instance, mapping: map<Id, Value>)
    requires Flattens(g, p) && K7(g) && Inv(g, x) && Settled(g, x) && SameControlFlow(g, h)
    ensures Passes(x, g, h) && Inv(h, Migrated(h, x, mapping)) && Settled(h, Migrated(h, x, mapping))
    ensures Migrated(h, x, mapping) == x.(data := x.data + mapping)
  {
    SameGraph(g, h, p);
    RevisionPasses(g, p, h, x);
    RevisionKeeps(g, p, h, x);
    RevisionMarking(g, h, x, mapping);
    MovedIsSound(g, p, h, p, x, mapping);
  }
}

/**
 The life of an instance: from instantiation through starts, completions, ad-hoc changes and
 migrations. Soundness is kept by every step, so it holds in every reachable state, and the
 number of completions is bounded by the activities there are to complete.
 */
module Lifetime {
  import opened Model
  import opened Blocks
  import opened Edits
  import opened Marking
  import opened Partition
  import opened Validator
  import opened Structure
  import opened DataFlow
  import opened Execution
  import opened Deletion
  import opened Adhoc
  import opened Migration
  import opened Design

  /** A running case: its schema, the block term the schema flattens, and its marking. */
  datatype Case = Case(schema: Schema, term: Process, instance: Instance)

  datatype Event =
    | Start(id: Id)
    | Complete(id: Id, written: map<Id, Value>)
    | InsertAfter(anchor: Id, id: Id)
    | Delete(id: Id)
    | Switch(mapping: map<Id, Value>)

  ghost predicate Sound(c: Case) {
    && Flattens(c.schema, c.term) && K7(c.schema)
    && Inv(c.schema, c.instance) && Settled(c.schema, c.instance)
  }

  /** What an accepted request makes of a case. */
  ghost predicate Step(c: Case, event: Event, d: Case) {
    var g, x := c.schema, c.instance;
    match event
    case Start(n) =>
      d == c.(instance := Started(x, n)) && !x.done && ReadyAt(g, x, n) && x.nodeStates[n].ACTIVATED?
    case Complete(n, written) =>
      d.schema == g && d.term == c.term && !x.done && ReadyAt(g, x, n) && Outcome(g, Begun(g, x, n, written), d.instance)
    case InsertAfter(anchor, n) =>
      && d.term == EditProcess(c.term, anchor, Insert(Task(n, ACTIVITY, Done))) && K7(d.schema) && n !in g.nodes
      && Shaped(g, x) && InsertableAfter(g, x, anchor) && IsInsert(g, c.term, x, anchor, n, d.schema, d.instance)
    case Delete(n) =>
      && d.term == c.term.(body := EditAt(c.term.body, n, Remove)) && K7(d.schema)
      && Shaped(g, x) && Removable(g, x, n) && IsRemoval(g, c.term, x, n, d.schema, d.instance)
    case Switch(mapping) =>
      && Flattens(d.schema, d.term) && K7(d.schema) && Passes(x, g, d.schema)
      && SkippedKeep(g, d.schema, x) && ActiveKeep(d.schema, x) && WaitingKeep(g, d.schema, x)
      && d.instance == Migrated(d.schema, x, mapping)
  }

  lemma InitialSound(g: Schema, p: Process, data: map<Id, Value>, x: Instance)
    requires Flattens(g, p) && K7(g) && Outcome(g, Initial(g, data), x)
    ensures Sound(Case(g, p, x))
  {}

  /** Every step keeps a sound case sound. */
  lemma StepSound(c: Case, event: Event, d: Case)
    requires Sound(c) && Step(c, event, d)
    ensures Sound(d)
  {
    var g, p, x := c.schema, c.term, c.instance;
    match event
    case Start(n) => StartKeepsInv(g, x, n); StartKeepsSettled(g, x, n);
    case Complete(_, _) =>
    case InsertAfter(anchor, n) => InsertSound(c, anchor, n, d);
    case Delete(n) =>
      var before, h :| Neighbours(p, n, before, h) && d.schema == DeleteCandidate(g, before, n, h) && d.instance == DeleteMarking(x, before, n, h);
      DeleteCarries(g, p, x, before, n, h);
    case Switch(mapping) => MovedIsSound(g, p, d.schema, d.term, x, mapping);
  }

  lemma InsertSound(c: Case, anchor: Id, n: Id, d: Case)
    requires Sound(c) && Step(c, InsertAfter(anchor, n), d)
    ensures Sound(d)
  {
    var h :| Outgoing(c.schema.edges, anchor) == [Edge(anchor, h)] && d.schema == InsertCandidate(c.schema, anchor, n, h)
             && d.instance == InsertMarking(c.instance, anchor, n, h);
    InsertCarries(c.schema, c.term, c.instance, anchor, n, h);
  }

  /** `cases` is a history: each event leads from one case to the next. */
  ghost predicate History(cases: seq<Case>, events: seq<Event>) {
    && |cases| == |events| + 1
    && (events != [] ==>
          var k := |events| - 1;
          History(cases[..k + 1], events[..k]) && Step(cases[k], events[k], cases[k + 1]))
  }

  function Now(cases: seq<Case>): Case
    requires cases != []
  {
    cases[|cases| - 1]
  }

  lemma {:induction false} HistorySound(cases: seq<Case>, events: seq<Event>)
    requires History(cases, events) && Sound(cases[0])
    ensures Sound(Now(cases))
  {
    if events != [] {
      var k := |events| - 1;
      HistorySound(cases[..k + 1], events[..k]);
      StepSound(cases[k], events[k], cases[k + 1]);
    }
  }

  /**
   Soundness: in every state an instance ever gets into, END is not skipped, a RUNNING instance
   has an activity to work on, and a COMPLETED one has every node COMPLETED or SKIPPED.
   */
  lemma Soundness(cases: seq<Case>, events: seq<Event>)
    requires History(cases, events) && Sound(cases[0])
    ensures var c := Now(cases);
            && Sound(c) && !c.instance.nodeStates[c.term.end].SKIPPED?
            && (c.instance.done || Ready(c.schema, c.instance))
            && (c.instance.done ==> forall n :: n in c.schema.nodes ==> c.instance.nodeStates[n].Finished())
  {
    HistorySound(cases, events);
    var c := Now(cases);
    EndNeverSkipped(c.schema, c.term, c.instance);
    NoDeadlock(c.schema, c.term, c.instance);
    if c.instance.done { ProperCompletion(c.schema, c.term, c.instance); }
  }

  // --- how many completions a life can hold -----------------------------------------------

  /** The number of completions among the events. */
  function Completions(events: seq<Event>): nat {
    if events == [] then 0 else Completions(events[..|events| - 1]) + if events[|events| - 1].Complete? then 1 else 0
  }

  /** The number of ad-hoc insertions among the events. */
  function Insertions(events: seq<Event>): nat {
    if events == [] then 0 else Insertions(events[..|events| - 1]) + if events[|events| - 1].InsertAfter? then 1 else 0
  }

  function Open(c: Case): set<Id> {
    OpenActivities(c.schema, c.instance)
  }

  lemma SmallerCard(a: set<Id>, b: set<Id>)
    requires a <= b
    ensures |a| <= |b| && (a != b ==> |a| < |b|)
  {
    assert b == a + (b - a);
    assert |b| == |a| + |b - a|;
  }

  /** How one step changes the open activities. */
  ghost predicate Opens(c: Case, event: Event, d: Case) {
    match event
    case Start(_) => Open(d) == Open(c)
    case Complete(_, _) => Open(d) < Open(c)
    case InsertAfter(_, n) => Open(d) == Open(c) + {n}
    case Delete(_) => Open(d) <= Open(c)
    case Switch(_) => true
  }

  lemma StepOpens(c: Case, event: Event, d: Case)
    requires Sound(c) && Step(c, event, d)
    ensures Opens(c, event, d)
  {
    match event
    case Start(_) =>
    case Complete(n, written) => CompletionUsesUp(c.schema, c.instance, n, written, d.instance);
    case InsertAfter(anchor, n) => InsertOpens(c, anchor, n, d);
    case Delete(n) => DeleteOpens(c, n, d);
    case Switch(_) =>
  }

  lemma InsertOpens(c: Case, anchor: Id, n: Id, d: Case)
    requires Sound(c) && Step(c, InsertAfter(anchor, n), d)
    ensures Open(d) == Open(c) + {n}
  {
    OneMore(c.schema, d.schema, c.instance, d.instance, n);
  }

  lemma OneMore(g: Schema, h: Schema, x: Instance, y: Instance, n: Id)
    requires h.nodes == g.nodes[n := ACTIVITY] && y.nodeStates == x.nodeStates[n := NOT_ACTIVATED] && g.nodes.Keys == x.nodeStates.Keys
    ensures OpenActivities(h, y) == OpenActivities(g, x) + {n}
  {}

  lemma DeleteOpens(c: Case, n: Id, d: Case)
    requires Sound(c) && Step(c, Delete(n), d)
    ensures Open(d) <= Open(c)
  {
    assert d.schema.nodes == c.schema.nodes - {n};
    assert d.instance.nodeStates == c.instance.nodeStates - {n};
  }

  lemma OpensCounts(c: Case, event: Event, d: Case)
    requires Opens(c, event, d) && !event.Switch?
    ensures |Open(d)| + (if event.Complete? then 1 else 0) <= |Open(c)| + (if event.InsertAfter? then 1 else 0)
  {
    if !event.InsertAfter? { SmallerCard(Open(d), Open(c)); }
  }

  /**
   Conservation: until an instance is migrated, its completions and its open activities together
   never exceed the activities that were open at first plus those inserted ad hoc.
   */
  lemma {:induction false} CompletionsBounded(cases: seq<Case>, events: seq<Event>)
    requires History(cases, events) && Sound(cases[0]) && forall e :: e in events ==> !e.Switch?
    ensures Completions(events) + |Open(Now(cases))| <= |Open(cases[0])| + Insertions(events)
  {
    if events != [] {
      var k := |events| - 1;
      CompletionsBounded(cases[..k + 1], events[..k]);
      HistorySound(cases[..k + 1], events[..k]);
      StepOpens(cases[k], events[k], cases[k + 1]);
      OpensCounts(cases[k], events[k], cases[k + 1]);
    }
  }

  /** A life of as many completions as there were activities is over. */
  lemma AllDone(cases: seq<Case>, events: seq<Event>)
    requires History(cases, events) && Sound(cases[0])
    requires forall e :: e in events ==> e.Start? || e.Complete?
    requires Completions(events) >= |Open(cases[0])|
    ensures Now(cases).instance.done
  {
    CompletionsBounded(cases, events);
    NoInsertions(events);
    Soundness(cases, events);
    ReadyIsOpen(Now(cases));
  }

  lemma ReadyIsOpen(c: Case)
    ensures Ready(c.schema, c.instance) ==> |Open(c)| > 0
  {
    if Ready(c.schema, c.instance) {
      var n :| ReadyAt(c.schema, c.instance, n);
      assert n in Open(c);
    }
  }

  lemma {:induction false} NoInsertions(events: seq<Event>)
    requires forall e :: e in events ==> e.Start? || e.Complete?
    ensures Insertions(events) == 0
  {
    if events != [] {
      assert events[|events| - 1] in events;
      NoInsertions(events[..|events| - 1]);
    }
  }

  // --- data are there when they are needed ---------------------------------------------------

  /** Every completed node has written what it is sure to write. */
  ghost predicate Written(g: Schema, x: Instance, writes: map<Id, set<Id>>) {
    forall n :: n in g.nodes && n in x.nodeStates && x.nodeStates[n].COMPLETED? ==> Writes(writes, n) <= x.data.Keys
  }

  /** The node was reached by a TRUE signal. */
  predicate Live(x: Instance, n: Id) {
    n in x.nodeStates && (x.nodeStates[n].ACTIVATED? || x.nodeStates[n].RUNNING? || x.nodeStates[n].COMPLETED?)
  }

  lemma TrueFrom(g: Schema, x: Instance, e: Edge)
    requires Inv(g, x) && e in g.edges && x.edgeStates[e].TRUE_SIGNALED?
    ensures x.nodeStates[e.source].COMPLETED?
  {
    assert x.edgeStates[e] == Told(g, x, e);
  }

  /** A live node that is entered at all has a TRUE edge; an AND join has nothing else. */
  lemma LiveMeans(g: Schema, x: Instance, n: Id)
    requires Inv(g, x) && Connected(g) && n in g.nodes && Live(x, n) && Entered(g, n)
    ensures Enabled(g, x, n)
  {
    assert NodeOk(g, x, n);
  }

  /**
   What the data-flow analysis guarantees holds at run time: at every node an instance gets to, the
   elements that are written before it have a value.
   */
  lemma {:induction false} SuppliedAt(g: Schema, rank: map<Id, nat>, x: Instance, writes: map<Id, set<Id>>, before: map<Id, set<Id>>, n: Id, el: Id)
    requires Ranked(g, rank) && Connected(g) && Inv(g, x) && Solves(g, writes, before) && Written(g, x, writes)
    requires n in g.nodes && Live(x, n) && el in before[n]
    ensures el in x.data
    decreases rank[n]
  {
    assert SolvedAt(g, writes, before, n);
    assert Supplied(g, writes, before, n, el);
    var e := Bringer(g, x, writes, before, n, el);
    TrueFrom(g, x, e);
    if el !in Writes(writes, e.source) { SuppliedAt(g, rank, x, writes, before, e.source, el); }
  }

  /** The element comes along a TRUE edge. */
  lemma Bringer(g: Schema, x: Instance, writes: map<Id, set<Id>>, before: map<Id, set<Id>>, n: Id, el: Id) returns (e: Edge)
    requires Connected(g) && Inv(g, x) && n in g.nodes && Live(x, n) && Supplied(g, writes, before, n, el)
    ensures e in g.edges && e.target == n && x.edgeStates[e].TRUE_SIGNALED? && el in After(writes, before, e.source)
  {
    var first :| first in g.edges && first.target == n;
    assert Entered(g, n);
    LiveMeans(g, x, n);
    if g.nodes[n].AND_JOIN? {
      e :| e in g.edges && e.target == n && el in After(writes, before, e.source);
    } else {
      e :| e in g.edges && e.target == n && x.edgeStates[e].TRUE_SIGNALED?;
    }
  }

  /** An AND join waits for all its branches: what one of them is sure to have written is there. */
  lemma JoinUnites(g: Schema, writes: map<Id, set<Id>>, before: map<Id, set<Id>>, e: Edge, el: Id)
    requires Solves(g, writes, before) && e in g.edges && e.source in g.nodes && e.target in g.nodes && g.nodes[e.target] == AND_JOIN
    requires el in before[e.source] || (e.source in writes && el in writes[e.source])
    ensures el in before[e.target]
  {
    assert SolvedAt(g, writes, before, e.target);
    assert Supplied(g, writes, before, e.target, el);
  }

  lemma EntryIsEntered(g: Schema, n: Id)
    ensures HasEntry(g.edges, n) <==> Entered(g, n)
  {}

  /** No node of the walk before its last one is sure to write the element. */
  ghost predicate NobodyWrites(writes: map<Id, set<Id>>, walk: seq<Id>, el: Id) {
    forall i :: 0 <= i < |walk| - 1 ==> !(walk[i] in writes && el in writes[walk[i]])
  }

  lemma WalkOn(es: seq<Edge>, writes: map<Id, set<Id>>, walk: seq<Id>, e: Edge, el: Id)
    requires IsWalk(es, walk) && e in es && walk[|walk| - 1] == e.source
    requires NobodyWrites(writes, walk, el) && !(e.source in writes && el in writes[e.source])
    ensures IsWalk(es, walk + [e.target]) && NobodyWrites(writes, walk + [e.target], el)
  {}

  /** If the analysis does not guarantee an element at `n`, a way leads to `n` on which nobody is sure to write it. */
  lemma {:induction false} WayWithout(g: Schema, rank: map<Id, nat>, writes: map<Id, set<Id>>, before: map<Id, set<Id>>, n: Id, el: Id)
    returns (walk: seq<Id>)
    requires Ranked(g, rank) && Solves(g, writes, before) && n in g.nodes && el !in before[n]
    ensures IsWalk(g.edges, walk) && walk[|walk| - 1] == n && !Entered(g, walk[0])
    ensures NobodyWrites(writes, walk, el)
    decreases rank[n]
  {
    assert SolvedAt(g, writes, before, n) && !Supplied(g, writes, before, n, el);
    if HasEntry(g.edges, n) {
      var e :| e in g.edges && e.target == n && el !in After(writes, before, e.source);
      var front := WayWithout(g, rank, writes, before, e.source, el);
      WalkOn(g.edges, writes, front, e, el);
      walk := front + [n];
    } else {
      EntryIsEntered(g, n);
      walk := [n];
    }
  }

  /** What holds at a node that is no AND join holds behind every node before it. */
  lemma SoBefore(g: Schema, writes: map<Id, set<Id>>, before: map<Id, set<Id>>, m: Id, n: Id, el: Id)
    requires Solves(g, writes, before) && Edge(m, n) in g.edges && m in g.nodes && n in g.nodes && !g.nodes[n].AND_JOIN? && el in before[n]
    ensures el in before[m] || (m in writes && el in writes[m])
  {
    assert SolvedAt(g, writes, before, n);
    assert Supplied(g, writes, before, n, el);
  }

  lemma GuaranteedIsEntered(g: Schema, writes: map<Id, set<Id>>, before: map<Id, set<Id>>, n: Id, el: Id)
    requires Solves(g, writes, before) && n in g.nodes && el in before[n]
    ensures Entered(g, n)
  {
    assert SolvedAt(g, writes, before, n);
    assert Supplied(g, writes, before, n, el);
    EntryIsEntered(g, n);
  }

  /** If it does, every way to `n` without AND joins passes somebody who is sure to write it. */
  lemma {:induction false} WriterOnWay(g: Schema, writes: map<Id, set<Id>>, before: map<Id, set<Id>>, walk: seq<Id>, el: Id) returns (i: nat)
    requires Solves(g, writes, before) && IsWalk(g.edges, walk) && !Entered(g, walk[0])
    requires forall m :: m in walk ==> m in g.nodes && !g.nodes[m].AND_JOIN?
    requires el in before[walk[|walk| - 1]]
    ensures i < |walk| - 1 && walk[i] in writes && el in writes[walk[i]]
  {
    var last := |walk| - 1;
    GuaranteedIsEntered(g, writes, before, walk[last], el);
    var front := walk[..last];
    SoBefore(g, writes, before, walk[last - 1], walk[last], el);
    if walk[last - 1] in writes && el in writes[walk[last - 1]] { i := last - 1; } else { i := WriterOnWay(g, writes, before, front, el); }
  }

  /** Rule D1 at run time: what a ready activity reads mandatorily is there. */
  lemma ReadsSupplied(g: Schema, x: Instance, writes: map<Id, set<Id>>, before: map<Id, set<Id>>, needs: map<Id, set<Id>>, n: Id)
    requires Acyclic(g) && Connected(g) && Inv(g, x) && Solves(g, writes, before) && Written(g, x, writes)
    requires forall m :: m in needs && m in before ==> needs[m] <= before[m]
    requires ReadyAt(g, x, n) && n in needs
    ensures needs[n] <= x.data.Keys
  {
    var rank :| Ranked(g, rank);
    forall el | el in needs[n] ensures el in x.data { SuppliedAt(g, rank, x, writes, before, n, el); }
  }

  // --- every life can be lived to its end ----------------------------------------------------

  /** Discriminators have values their decisions can place, as far as they are set. */
  ghost predicate WellTyped(g: Schema, data: map<Id, Value>) {
    forall s :: s in g.decisions && g.decisions[s].discriminator in data ==> Placeable(g.decisions[s], data[g.decisions[s].discriminator])
  }

  /**
   The supply rule of K7: every discriminator is set already, or the data-flow analysis guarantees
   that it is written before its split is reached, where only the writes of activities count: what a
   SUBPROCESS is to write is missing when the engine completes it by itself.
   */
  ghost predicate Provided(g: Schema, x: Instance, writes: map<Id, set<Id>>, before: map<Id, set<Id>>) {
    && Solves(g, writes, before) && Written(g, x, writes) && WellTyped(g, x.data)
    && (forall n :: n in g.nodes && Writes(writes, n) != {} ==> g.nodes[n].ACTIVITY?)
    && (forall s :: s in g.decisions && s in before ==> g.decisions[s].discriminator in x.data.Keys + before[s])
  }

  /** With the supply rule no split is ever stuck. */
  lemma NeverStuck(g: Schema, x: Instance, writes: map<Id, set<Id>>, before: map<Id, set<Id>>, s: Id)
    requires Acyclic(g) && Connected(g) && K7(g) && Inv(g, x) && Provided(g, x, writes, before)
    ensures !StuckAt(g, x, s)
  {
    if s in g.nodes && g.nodes[s].XOR_SPLIT? && x.nodeStates[s].ACTIVATED? {
      var rank :| Ranked(g, rank);
      assert s in OfType(g, XOR_SPLIT);
      var d := g.decisions[s].discriminator;
      if d !in x.data { SuppliedAt(g, rank, x, writes, before, s, d); }
      ResolveFailsOnNonNumbers(g.decisions[s], x.data[d]);
    }
  }

  /** The engine itself completes no activity, so nothing is missing after an advance. */
  lemma ProvidedStays(g: Schema, x: Instance, z: Instance, writes: map<Id, set<Id>>, before: map<Id, set<Id>>)
    requires Provided(g, x, writes, before) && Extends(g, x, z)
    ensures Provided(g, z, writes, before)
  {
    forall n | n in g.nodes && n in z.nodeStates && z.nodeStates[n].COMPLETED? ensures Writes(writes, n) <= z.data.Keys {
      assert Grows(g, x, z, n);
    }
  }

  /** With discriminators supplied and well typed, advancing always has an outcome. */
  lemma OutcomeExists(g: Schema, x: Instance, writes: map<Id, set<Id>>, before: map<Id, set<Id>>) returns (z: Instance)
    requires Runnable(g) && K7(g) && Inv(g, x) && Provided(g, x, writes, before)
    ensures Outcome(g, x, z) && Provided(g, z, writes, before)
  {
    var stuck;
    z, stuck := AdvanceEnds(g, x);
    ProvidedStays(g, x, z, writes, before);
    if stuck.Some? { NeverStuck(g, z, writes, before, stuck.value); }
  }

  /** What an activity reports: all it is sure to write, and values the decisions can place. */
  ghost predicate Reports(g: Schema, writes: map<Id, set<Id>>, n: Id, written: map<Id, Value>) {
    Writes(writes, n) <= written.Keys && WellTyped(g, written)
  }

  lemma ProvidedAfter(g: Schema, x: Instance, writes: map<Id, set<Id>>, before: map<Id, set<Id>>, n: Id, written: map<Id, Value>)
    requires Provided(g, x, writes, before) && n in g.nodes && Reports(g, writes, n, written)
    ensures Provided(g, Begun(g, x, n, written), writes, before)
  {
    var y := Begun(g, x, n, written);
    assert y.data == x.data + written && x.data.Keys <= y.data.Keys && written.Keys <= y.data.Keys;
    forall m | m in g.nodes && m in y.nodeStates && y.nodeStates[m].COMPLETED? ensures Writes(writes, m) <= y.data.Keys {}
  }

  /** A ready activity can always be completed. */
  lemma CompletionExists(c: Case, n: Id, written: map<Id, Value>, writes: map<Id, set<Id>>, before: map<Id, set<Id>>) returns (d: Case)
    requires Sound(c) && !c.instance.done && ReadyAt(c.schema, c.instance, n)
    requires Provided(c.schema, c.instance, writes, before) && Reports(c.schema, writes, n, written)
    ensures Step(c, Complete(n, written), d) && Sound(d) && d.schema == c.schema && Provided(d.schema, d.instance, writes, before)
  {
    FlatteningIsRunnable(c.schema, c.term);
    BegunKeepsInv(c.schema, c.instance, n, written);
    ProvidedAfter(c.schema, c.instance, writes, before, n, written);
    var y := OutcomeExists(c.schema, Begun(c.schema, c.instance, n, written), writes, before);
    d := c.(instance := y);
    StepSound(c, Complete(n, written), d);
  }

  /** Part of a life in which every event completes an activity. */
  ghost predicate Completing(c: Case, outputs: Id -> map<Id, Value>, cases: seq<Case>, events: seq<Event>,
                             writes: map<Id, set<Id>>, before: map<Id, set<Id>>) {
    && History(cases, events) && cases[0] == c && Sound(Now(cases))
    && Now(cases).schema == c.schema && Provided(c.schema, Now(cases).instance, writes, before)
    && |events| + |Open(Now(cases))| <= |Open(c)| && AllReport(events, outputs)
  }

  ghost predicate AllReport(events: seq<Event>, outputs: Id -> map<Id, Value>) {
    forall e :: e in events ==> e.Complete? && e.written == outputs(e.id)
  }

  lemma OneMoreReport(events: seq<Event>, outputs: Id -> map<Id, Value>, n: Id)
    requires AllReport(events, outputs)
    ensures AllReport(events + [Complete(n, outputs(n))], outputs)
  {}

  lemma CompleteNext(c: Case, outputs: Id -> map<Id, Value>, d: Case, writes: map<Id, set<Id>>, before: map<Id, set<Id>>)
    returns (n: Id, e: Case)
    requires Sound(d) && d.schema == c.schema && Provided(c.schema, d.instance, writes, before) && !d.instance.done
    requires forall n :: Reports(c.schema, writes, n, outputs(n))
    ensures Step(d, Complete(n, outputs(n)), e) && Sound(e)
    ensures e.schema == c.schema && Provided(c.schema, e.instance, writes, before) && |Open(e)| < |Open(d)|
  {
    NoDeadlock(d.schema, d.term, d.instance);
    n :| ReadyAt(d.schema, d.instance, n);
    e := CompletionExists(d, n, outputs(n), writes, before);
    StepOpens(d, Complete(n, outputs(n)), e);
    OpensCounts(d, Complete(n, outputs(n)), e);
  }

  lemma CompletingGrows(c: Case, outputs: Id -> map<Id, Value>, cases: seq<Case>, events: seq<Event>, n: Id, e: Case,
                        writes: map<Id, set<Id>>, before: map<Id, set<Id>>)
    requires Completing(c, outputs, cases, events, writes, before)
    requires Sound(e) && History(cases + [e], events + [Complete(n, outputs(n))])
    requires e.schema == c.schema && Provided(c.schema, e.instance, writes, before) && |Open(e)| < |Open(Now(cases))|
    ensures Completing(c, outputs, cases + [e], events + [Complete(n, outputs(n))], writes, before)
  {
    OneMoreReport(events, outputs, n);
  }

  /**
   Option to complete: whatever an instance has come to, completing ready activities one after
   the other brings it to COMPLETED, in at most as many completions as it has open activities. It
   takes that every discriminator is set or, by the supply rule of K7, is sure to be written before
   its split, and that activities write what they are declared to write.
   */
  lemma CanFinish(c: Case, outputs: Id -> map<Id, Value>, writes: map<Id, set<Id>>, before: map<Id, set<Id>>)
    returns (cases: seq<Case>, events: seq<Event>)
    requires Sound(c) && Provided(c.schema, c.instance, writes, before)
    requires forall n :: Reports(c.schema, writes, n, outputs(n))
    ensures History(cases, events) && cases[0] == c && Now(cases).instance.done && |events| <= |Open(c)|
    ensures forall e :: e in events ==> e.Complete? && e.written == outputs(e.id)
  {
    cases, events := [c], [];
    while !Now(cases).instance.done
      invariant Completing(c, outputs, cases, events, writes, before)
      decreases |Open(Now(cases))|
    {
      var n, e := CompleteNext(c, outputs, Now(cases), writes, before);
      HistoryGrows(cases, events, Now(cases), Complete(n, outputs(n)), e);
      CompletingGrows(c, outputs, cases, events, n, e, writes, before);
      cases, events := cases + [e], events + [Complete(n, outputs(n))];
    }
  }

  /** If every discriminator is set and well typed, nothing need be written. */
  lemma SetIsProvided(g: Schema, x: Instance) returns (before: map<Id, set<Id>>)
    requires WellTyped(g, x.data) && forall s :: s in g.decisions ==> g.decisions[s].discriminator in x.data
    ensures Provided(g, x, map[], before)
  {
    before := map n | n in g.nodes :: {};
    forall n | n in g.nodes ensures SolvedAt(g, map[], before, n) {
      forall el ensures !Supplied(g, map[], before, n, el) {
        if HasEntry(g.edges, n) {
          var e :| e in g.edges && e.target == n;
          assert After(map[], before, e.source) == {};
        }
      }
    }
  }

  lemma FlatteningComes(g: Schema, p: Process, n: Id)
    requires Flattens(g, p) && n in g.nodes
    ensures Comes(g, n)
  {
    FlatteningIsAcyclic(g, p);
    var rank :| Ranked(g, rank);
    RankedComes(g, rank, n);
  }

  /** The supply part of K7, run on a block-structured schema: it decides what `CanFinish` asks for. */
  method CheckSupply(g: Schema, writes: map<Id, set<Id>>, ghost p: Process) returns (ok: bool, before: map<Id, set<Id>>)
    requires Flattens(g, p) && K7(g)
    ensures Solves(g, writes, before)
    ensures ok <==> forall s :: s in g.decisions && s in before ==> g.decisions[s].discriminator in before[s]
  {
    FlatteningIsStructural(g, p);
    var found := MustWrittenBefore(g, writes);
    before := found.value;
    forall n | n in g.nodes ensures SolvedAt(g, writes, before, n) { FlatteningComes(g, p, n); }
    ok := forall s :: s in g.decisions.Keys ==> s in before && g.decisions[s].discriminator in before[s];
    forall s | s in g.decisions ensures s in before { assert s in OfType(g, XOR_SPLIT); }
  }

  /** The marking an instance starts from is provided for, if its data and the analysis supply all discriminators. */
  lemma StartIsProvided(g: Schema, data: map<Id, Value>, writes: map<Id, set<Id>>, before: map<Id, set<Id>>)
    requires Supplies(g, data, writes, before)
    ensures Provided(g, Initial(g, data), writes, before)
  {}

  /** What the design and the request bring along: with the writes of activities, every discriminator has a source. */
  ghost predicate Supplies(g: Schema, data: map<Id, Value>, writes: map<Id, set<Id>>, before: map<Id, set<Id>>) {
    && Solves(g, writes, before) && WellTyped(g, data)
    && (forall n :: n in g.nodes && Writes(writes, n) != {} ==> g.nodes[n].ACTIVITY?)
    && (forall s :: s in g.decisions && s in before ==> g.decisions[s].discriminator in data.Keys + before[s])
  }

  /**
   From instantiation to COMPLETED: on a block-structured schema whose discriminators are supplied, an
   instance can be created, and from the marking it starts with, completing ready activities one after
   the other brings it to COMPLETED, each activity at most once.
   */
  lemma FromStartToEnd(g: Schema, p: Process, data: map<Id, Value>, outputs: Id -> map<Id, Value>,
                       writes: map<Id, set<Id>>, before: map<Id, set<Id>>)
    returns (x: Instance, cases: seq<Case>, events: seq<Event>)
    requires Flattens(g, p) && K7(g) && Supplies(g, data, writes, before)
    requires forall n :: Reports(g, writes, n, outputs(n))
    ensures Outcome(g, Initial(g, data), x)
    ensures History(cases, events) && cases[0] == Case(g, p, x) && Now(cases).instance.done
    ensures |events| <= |OpenActivities(g, x)| && forall e :: e in events ==> e.Complete? && e.written == outputs(e.id)
    ensures x.data == data && |events| <= |OfType(g, ACTIVITY)|
  {
    FlatteningIsRunnable(g, p);
    InitialKeepsInv(g, data);
    StartIsProvided(g, data, writes, before);
    x := OutcomeExists(g, Initial(g, data), writes, before);
    InitialSound(g, p, data, x);
    cases, events := CanFinish(Case(g, p, x), outputs, writes, before);
    SmallerCard(OpenActivities(g, x), OfType(g, ACTIVITY));
  }

  /**
   From the first draft to COMPLETED: whatever was developed from the empty schema has instances that
   can be brought to COMPLETED, if its discriminators are supplied.
   */
  lemma DevelopedCompletes(drafts: seq<Draft>, changes: seq<Change>, rest: Schema -> bool, start: Id, end: Id,
                           data: map<Id, Value>, outputs: Id -> map<Id, Value>, writes: map<Id, set<Id>>, before: map<Id, set<Id>>)
    returns (x: Instance, cases: seq<Case>, events: seq<Event>)
    requires Developed(drafts, changes, rest) && start != end && drafts[0] == Draft(EmptySchema(start, end), Process(start, end, Done))
    requires var g := drafts[|changes|].schema; Supplies(g, data, writes, before) && forall n :: Reports(g, writes, n, outputs(n))
    ensures var d := drafts[|changes|];
            && Outcome(d.schema, Initial(d.schema, data), x)
            && History(cases, events) && cases[0] == Case(d.schema, d.term, x) && Now(cases).instance.done
            && |events| <= |OpenActivities(d.schema, x)|
    ensures forall e :: e in events ==> e.Complete? && e.written == outputs(e.id)
  {
    var d := drafts[|changes|];
    EmptyFlattens(start, end);
    DevelopedIsRunnable(drafts, changes, rest);
    x, cases, events := FromStartToEnd(d.schema, d.term, data, outputs, writes, before);
  }

  lemma HistoryGrows(cases: seq<Case>, events: seq<Event>, c: Case, event: Event, d: Case)
    requires History(cases, events) && c == cases[|events|] && Step(c, event, d)
    ensures History(cases + [d], events + [event])
  {
    var k, longer, more := |events|, cases + [d], events + [event];
    assert longer[..k + 1] == cases && more[..k] == events;
    assert longer[k] == c && more[k] == event && longer[k + 1] == d;
  }

  // --- what becomes of the data ---------------------------------------------------------------

  /** The elements an event writes. */
  function Brings(event: Event): map<Id, Value> {
    match event
    case Complete(_, written) => written
    case Switch(mapping) => mapping
    case _ => map[]
  }

  lemma AdhocAdds(c: Case, event: Event, d: Case)
    requires Sound(c) && Step(c, event, d) && (event.InsertAfter? || event.Delete?)
    ensures d.instance.data == c.instance.data
  {}

  lemma StartAdds(c: Case, n: Id, d: Case)
    requires Step(c, Start(n), d)
    ensures d.instance.data == c.instance.data
  {}

  lemma SwitchAdds(c: Case, mapping: map<Id, Value>, d: Case)
    requires Step(c, Switch(mapping), d)
    ensures d.instance.data == c.instance.data + mapping
  {}

  lemma NothingAdded(data: map<Id, Value>, none: map<Id, Value>)
    requires none == map[]
    ensures data + none == data
  {}

  lemma StepAdds(c: Case, event: Event, d: Case)
    requires Sound(c) && Step(c, event, d)
    ensures d.instance.data == c.instance.data + Brings(event)
  {
    if event.Complete? {
      CompleteMeans(c, event.id, event.written, d);
    } else if event.Switch? {
      SwitchAdds(c, event.mapping, d);
    } else {
      if event.Start? { StartAdds(c, event.id, d); } else { AdhocAdds(c, event, d); }
      NothingAdded(c.instance.data, Brings(event));
    }
  }

  /** Every event writes what it brings, over what was there, and nothing else. */
  lemma StepWrites(c: Case, event: Event, d: Case)
    requires Sound(c) && Step(c, event, d)
    ensures d.instance.data.Keys == c.instance.data.Keys + Brings(event).Keys
    ensures forall el :: el in d.instance.data ==>
              d.instance.data[el] == if el in Brings(event) then Brings(event)[el] else c.instance.data[el]
  {
    StepAdds(c, event, d);
  }

  /** A completion completes its activity and leaves the others alone; the splits behind it take the branch of their cell. */
  lemma CompleteMeans(c: Case, n: Id, written: map<Id, Value>, d: Case)
    requires Sound(c) && Step(c, Complete(n, written), d)
    ensures d.instance.data == c.instance.data + written && OnlyCompletes(c.schema, c.instance, n, d.instance)
    ensures CellsTaken(c.schema, c.instance, d.instance)
  {
    CompletionMeans(c.schema, c.instance, n, written, d.instance);
  }

  /** `el` was written with the value `v` by the event `i`, and not since. */
  ghost predicate WrittenLast(events: seq<Event>, i: nat, el: Id, v: Value) {
    && i < |events| && el in Brings(events[i]) && Brings(events[i])[el] == v
    && forall k :: i < k < |events| ==> el !in Brings(events[k])
  }

  lemma WrittenBefore(events: seq<Event>, i: nat, el: Id, v: Value)
    requires WrittenLast(events, i, el, v) && i < |events| - 1
    ensures WrittenLast(events[..|events| - 1], i, el, v) && el !in Brings(events[|events| - 1])
  {}

  /** The element has this value now. */
  predicate Holds(c: Case, el: Id, v: Value) {
    el in c.instance.data && c.instance.data[el] == v
  }

  lemma StepHolds(c: Case, event: Event, d: Case, el: Id, v: Value)
    requires Sound(c) && Step(c, event, d)
    requires if el in Brings(event) then Brings(event)[el] == v else Holds(c, el, v)
    ensures Holds(d, el, v)
  {
    StepAdds(c, event, d);
  }

  /** The value of an element is the one written last. */
  lemma {:induction false} LastWriteCounts(cases: seq<Case>, events: seq<Event>, i: nat, el: Id, v: Value)
    requires History(cases, events) && Sound(cases[0]) && WrittenLast(events, i, el, v)
    ensures Holds(Now(cases), el, v)
  {
    var k := |events| - 1;
    if i < k {
      WrittenBefore(events, i, el, v);
      LastWriteCounts(cases[..k + 1], events[..k], i, el, v);
    }
    HistorySound(cases[..k + 1], events[..k]);
    StepHolds(cases[k], events[k], cases[k + 1], el, v);
  }

  /** An element that no event writes keeps the value it had. */
  lemma {:induction false} UnwrittenStays(cases: seq<Case>, events: seq<Event>, el: Id)
    requires History(cases, events) && Sound(cases[0]) && forall e :: e in events ==> el !in Brings(e)
    ensures el in Now(cases).instance.data <==> el in cases[0].instance.data
    ensures el in cases[0].instance.data ==> Now(cases).instance.data[el] == cases[0].instance.data[el]
  {
    if events != [] {
      var k := |events| - 1;
      assert events[k] in events;
      UnwrittenStays(cases[..k + 1], events[..k], el);
      HistorySound(cases[..k + 1], events[..k]);
      StepWrites(cases[k], events[k], cases[k + 1]);
    }
  }

  // --- what stays -----------------------------------------------------------------------------

  predicate CompletedIn(c: Case, n: Id) {
    n in c.instance.nodeStates && c.instance.nodeStates[n].COMPLETED?
  }

  /** A completed node stays completed, whatever happens to its instance. */
  lemma CompletedStays(c: Case, event: Event, d: Case, n: Id)
    requires Sound(c) && Step(c, event, d) && CompletedIn(c, n)
    ensures CompletedIn(d, n)
  {
    match event
    case Start(m) =>
    case Complete(m, written) => CompleteStays(c, m, written, d, n);
    case InsertAfter(anchor, m) => InsertStays(c, anchor, m, d, n);
    case Delete(m) => DeleteStays(c, m, d, n);
    case Switch(_) => FrozenKept(c.schema, d.schema, c.instance, n);
  }

  lemma CompleteStays(c: Case, m: Id, written: map<Id, Value>, d: Case, n: Id)
    requires Sound(c) && Step(c, Complete(m, written), d) && CompletedIn(c, n)
    ensures CompletedIn(d, n)
  {
    assert Grows(c.schema, Begun(c.schema, c.instance, m, written), d.instance, n);
  }

  lemma InsertStays(c: Case, anchor: Id, m: Id, d: Case, n: Id)
    requires Sound(c) && Step(c, InsertAfter(anchor, m), d) && CompletedIn(c, n)
    ensures CompletedIn(d, n)
  {
    assert d.instance.nodeStates == c.instance.nodeStates[m := NOT_ACTIVATED];
  }

  lemma DeleteStays(c: Case, m: Id, d: Case, n: Id)
    requires Sound(c) && Step(c, Delete(m), d) && CompletedIn(c, n)
    ensures CompletedIn(d, n)
  {
    assert d.instance.nodeStates == c.instance.nodeStates - {m};
  }

  /** A completed activity is completed for the first time. */
  lemma CompletesNew(c: Case, n: Id, written: map<Id, Value>, d: Case)
    requires Sound(c) && Step(c, Complete(n, written), d)
    ensures !CompletedIn(c, n) && CompletedIn(d, n)
  {
    assert Grows(c.schema, Begun(c.schema, c.instance, n, written), d.instance, n);
  }
}

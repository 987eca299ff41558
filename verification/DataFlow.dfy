/**
 The data-flow analysis of the validator: the topological order it walks along, and the elements that
 are guaranteed to be written before a node. The analysis looks up the type of every node it meets;
 an edge to a node that does not exist makes it fail.
 */
module DataFlow {
  import opened Model
  import opened Partition

  // --- the topological order --------------------------------------------------------------

  predicate HasEntry(es: seq<Edge>, n: Id) {
    exists e :: e in es && e.target == n
  }

  /** `n` is a node or the target of an edge, and everything in front of it comes within `k` steps. */
  ghost predicate ComesWithin(g: Schema, n: Id, k: nat)
    decreases k
  {
    && (n in g.nodes || HasEntry(g.edges, n))
    && forall e :: e in g.edges && e.target == n ==> k > 0 && ComesWithin(g, e.source, k - 1)
  }

  /** The topological order takes `n` up. */
  ghost predicate Comes(g: Schema, n: Id) {
    exists k :: ComesWithin(g, n, k)
  }

  /** The analysis meets known nodes only. */
  ghost predicate Resolves(g: Schema) {
    forall n :: Comes(g, n) ==> n in g.nodes
  }

  lemma {:induction false} ComesLater(g: Schema, n: Id, k: nat, l: nat)
    requires ComesWithin(g, n, k) && k <= l
    ensures ComesWithin(g, n, l)
    decreases k
  {
    forall e | e in g.edges && e.target == n ensures l > 0 && ComesWithin(g, e.source, l - 1) {
      ComesLater(g, e.source, k - 1, l - 1);
    }
  }

  /** If all edges join nodes, the analysis never fails. */
  lemma JoinedResolves(g: Schema)
    requires forall e :: e in g.edges ==> e.target in g.nodes
    ensures Resolves(g)
  {}

  /** An edge to a node that does not exist is met if everything in front of it comes. */
  lemma MissingIsMet(g: Schema, n: Id)
    requires Comes(g, n) && n !in g.nodes
    ensures !Resolves(g)
  {}

  /** The edges into `n` from outside `past`. */
  function Waits(es: seq<Edge>, n: Id, past: set<Id>): nat {
    if es == [] then 0 else (if es[0].target == n && es[0].source !in past then 1 else 0) + Waits(es[1..], n, past)
  }

  /** The edges into `n`. */
  function Ways(es: seq<Edge>, n: Id): nat {
    if es == [] then 0 else (if es[0].target == n then 1 else 0) + Ways(es[1..], n)
  }

  lemma WaysFirst(e: Edge, rest: seq<Edge>, n: Id)
    ensures Ways([e] + rest, n) == (if e.target == n then 1 else 0) + Ways(rest, n)
  {
    assert ([e] + rest)[1..] == rest;
  }

  lemma {:induction false} WaitsFor(es: seq<Edge>, n: Id, past: set<Id>, c: Id)
    requires c !in past
    ensures Waits(es, n, past) == Waits(es, n, past + {c}) + Ways(Outgoing(es, c), n)
  {
    if es != [] {
      WaitsFor(es[1..], n, past, c);
      WaysFirst(es[0], Outgoing(es[1..], c), n);
      assert Outgoing(es, c) == if es[0].source == c then [es[0]] + Outgoing(es[1..], c) else Outgoing(es[1..], c);
    }
  }

  lemma {:induction false} NothingToWaitFor(es: seq<Edge>, n: Id, past: set<Id>)
    ensures Waits(es, n, past) == 0 <==> forall e :: e in es && e.target == n ==> e.source in past
  {
    if es != [] {
      NothingToWaitFor(es[1..], n, past);
      assert forall e :: e in es <==> e == es[0] || e in es[1..];
    }
  }

  lemma {:induction false} WaysMeansEntry(es: seq<Edge>, n: Id)
    ensures Ways(es, n) > 0 <==> HasEntry(es, n)
  {
    if es != [] {
      WaysMeansEntry(es[1..], n);
      if es[0].target == n { assert es[0] in es; }
      assert forall e :: e in es <==> e == es[0] || e in es[1..];
    }
  }

  function Known(g: Schema): set<Id> {
    g.nodes.Keys + set e | e in g.edges :: e.target
  }

  function Members(order: seq<Id>): set<Id> {
    set n | n in order
  }

  /** The state of the loop: what is taken, what is ready, and how many edges the others wait for. */
  ghost predicate Sorting(g: Schema, indegree: map<Id, int>, queue: seq<Id>, order: seq<Id>) {
    && indegree.Keys == Known(g) && NoRepeat(queue)
    && (forall n :: n in queue ==> n in indegree && n !in order)
    && (forall n :: n in order ==> n in indegree)
    && (forall n :: n in indegree ==> (n in queue || n in order <==> indegree[n] == 0))
  }

  /** Every member of the list has everything in front of it in the list before it. */
  ghost predicate Sorted(g: Schema, order: seq<Id>) {
    NoRepeat(order) && forall i, e :: 0 <= i < |order| && e in g.edges && e.target == order[i] ==> e.source in order[..i]
  }

  /** The counters while the edges `out` of the node taken last have not been handled. */
  ghost predicate Counting(g: Schema, indegree: map<Id, int>, past: set<Id>, out: seq<Edge>) {
    forall n :: n in indegree ==> indegree[n] == Waits(g.edges, n, past) + Ways(out, n)
  }

  lemma SourceBefore(g: Schema, order: seq<Id>, i: nat, e: Edge) returns (j: nat)
    requires Sorted(g, order) && i < |order| && e in g.edges && e.target == order[i]
    ensures j < i && order[j] == e.source
  {
    assert e.source in order[..i];
    j :| 0 <= j < i && order[..i][j] == e.source;
  }

  lemma {:induction false} SortedComes(g: Schema, order: seq<Id>, i: nat)
    requires Sorted(g, order) && (forall n :: n in order ==> n in Known(g)) && i < |order|
    ensures ComesWithin(g, order[i], i)
    decreases i
  {
    var n := order[i];
    assert n in Known(g);
    forall e | e in g.edges && e.target == n ensures i > 0 && ComesWithin(g, e.source, i - 1) {
      var j := SourceBefore(g, order, i, e);
      SortedComes(g, order, j);
      ComesLater(g, e.source, j, i - 1);
    }
  }

  lemma {:induction false} AllTaken(g: Schema, indegree: map<Id, int>, order: seq<Id>, n: Id, k: nat)
    requires Sorting(g, indegree, [], order) && Counting(g, indegree, Members(order), []) && ComesWithin(g, n, k)
    ensures n in order
    decreases k
  {
    forall e | e in g.edges && e.target == n ensures e.source in Members(order) { AllTaken(g, indegree, order, e.source, k - 1); }
    NothingToWaitFor(g.edges, n, Members(order));
    assert n in indegree;
  }

  /** `indegree.get(n, 0)` */
  function Count(indegree: map<Id, int>, n: Id): int {
    if n in indegree then indegree[n] else 0
  }

  /** The counters after the first `i` edges. */
  ghost predicate Counted(g: Schema, indegree: map<Id, int>, i: nat)
    requires i <= |g.edges|
  {
    && indegree.Keys == g.nodes.Keys + (set e | e in g.edges[..i] :: e.target)
    && forall n: Id :: Count(indegree, n) + Ways(g.edges[i..], n) == Ways(g.edges, n)
  }

  lemma CountNext(g: Schema, indegree: map<Id, int>, i: nat)
    requires i < |g.edges| && Counted(g, indegree, i)
    ensures var t := g.edges[i].target; Counted(g, indegree[t := Count(indegree, t) + 1], i + 1)
  {
    var t := g.edges[i].target;
    assert g.edges[i..][1..] == g.edges[i + 1..];
    assert g.edges[..i + 1] == g.edges[..i] + [g.edges[i]];
    assert (set e | e in g.edges[..i + 1] :: e.target) == (set e | e in g.edges[..i] :: e.target) + {t};
  }

  /** The loop that counts incoming edges, of known nodes and unknown targets alike. */
  method CountEdges(g: Schema) returns (indegree: map<Id, int>)
    ensures indegree.Keys == Known(g) && forall n :: n in indegree ==> indegree[n] == Ways(g.edges, n)
  {
    indegree := map n | n in g.nodes :: 0;
    assert g.edges[0..] == g.edges;
    for i := 0 to |g.edges|
      invariant Counted(g, indegree, i)
    {
      CountNext(g, indegree, i);
      var t := g.edges[i].target;
      indegree := indegree[t := Count(indegree, t) + 1];
    }
    assert g.edges[..|g.edges|] == g.edges;
  }

  /** The keys whose counter is zero, in some order. */
  method Zeros(indegree: map<Id, int>) returns (queue: seq<Id>)
    ensures NoRepeat(queue) && forall n :: n in queue <==> n in indegree && indegree[n] == 0
  {
    queue := [];
    var left := indegree.Keys;
    while left != {}
      invariant left <= indegree.Keys
      invariant NoRepeat(queue) && forall n :: n in queue <==> n in indegree && n !in left && indegree[n] == 0
      decreases left
    {
      var n :| n in left;
      left := left - {n};
      if indegree[n] == 0 { queue := queue + [n]; }
    }
  }

  lemma TakeNext(g: Schema, indegree: map<Id, int>, queue: seq<Id>, order: seq<Id>)
    requires Sorting(g, indegree, queue, order) && Counting(g, indegree, Members(order), []) && Sorted(g, order) && queue != []
    ensures Sorting(g, indegree, queue[1..], order + [queue[0]]) && Sorted(g, order + [queue[0]])
    ensures Counting(g, indegree, Members(order + [queue[0]]), Outgoing(g.edges, queue[0]))
    ensures queue[0] in Known(g) - Members(order) && Members(order + [queue[0]]) == Members(order) + {queue[0]}
  {
    var c := queue[0];
    assert queue == [c] + queue[1..];
    assert Members(order + [c]) == Members(order) + {c};
    NothingToWaitFor(g.edges, c, Members(order));
    forall n | n in indegree ensures indegree[n] == Waits(g.edges, n, Members(order) + {c}) + Ways(Outgoing(g.edges, c), n) {
      WaitsFor(g.edges, n, Members(order), c);
    }
    SortedMore(g, order, c);
  }

  lemma SortedMore(g: Schema, order: seq<Id>, c: Id)
    requires Sorted(g, order) && c !in order && forall e :: e in g.edges && e.target == c ==> e.source in Members(order)
    ensures Sorted(g, order + [c])
  {
    var longer := order + [c];
    forall i, e | 0 <= i < |longer| && e in g.edges && e.target == longer[i] ensures e.source in longer[..i] {
      if i == |order| { assert longer[..i] == order; } else { assert longer[..i] == order[..i]; }
    }
  }

  /** One edge less to wait for. */
  lemma Released(g: Schema, indegree: map<Id, int>, queue: seq<Id>, order: seq<Id>, out: seq<Edge>)
    requires Sorting(g, indegree, queue, order) && Counting(g, indegree, Members(order), out) && out != []
    requires out[0] in g.edges
    ensures var t := out[0].target;
            && t in indegree && indegree[t] >= 1
            && Sorting(g, indegree[t := indegree[t] - 1], if indegree[t] == 1 then queue + [t] else queue, order)
            && Counting(g, indegree[t := indegree[t] - 1], Members(order), out[1..])
  {
    assert out[0].target in Known(g);
  }

  /** The state of the inner loop. */
  ghost predicate Releasing(g: Schema, indegree: map<Id, int>, queue: seq<Id>, order: seq<Id>, out: seq<Edge>, i: nat)
    requires i <= |out|
  {
    Sorting(g, indegree, queue, order) && Counting(g, indegree, Members(order), out[i..])
  }

  lemma ReleaseNext(g: Schema, indegree: map<Id, int>, queue: seq<Id>, order: seq<Id>, out: seq<Edge>, i: nat)
    requires i < |out| && out[i] in g.edges && Releasing(g, indegree, queue, order, out, i)
    ensures var t := out[i].target;
            && t in indegree
            && Releasing(g, indegree[t := indegree[t] - 1], if indegree[t] == 1 then queue + [t] else queue, order, out, i + 1)
  {
    assert out[i..][1..] == out[i + 1..] && out[i..][0] == out[i];
    Released(g, indegree, queue, order, out[i..]);
  }

  /** The inner loop: the edges out of the node taken last. */
  method Release(g: Schema, out: seq<Edge>, counters: map<Id, int>, ready: seq<Id>, ghost order: seq<Id>)
    returns (indegree: map<Id, int>, queue: seq<Id>)
    requires Sorting(g, counters, ready, order) && Counting(g, counters, Members(order), out) && forall e :: e in out ==> e in g.edges
    ensures Sorting(g, indegree, queue, order) && Counting(g, indegree, Members(order), [])
  {
    indegree, queue := counters, ready;
    assert out[0..] == out;
    for i := 0 to |out|
      invariant Releasing(g, indegree, queue, order, out, i)
    {
      ReleaseNext(g, indegree, queue, order, out, i);
      var t := out[i].target;
      indegree := indegree[t := indegree[t] - 1];
      if indegree[t] == 0 { queue := queue + [t]; }
    }
  }

  lemma SortDone(g: Schema, indegree: map<Id, int>, order: seq<Id>)
    requires Sorting(g, indegree, [], order) && Counting(g, indegree, Members(order), []) && Sorted(g, order)
    ensures forall n :: n in order <==> Comes(g, n)
  {
    forall n ensures n in order <==> Comes(g, n) {
      if n in order {
        var i :| 0 <= i < |order| && order[i] == n;
        SortedComes(g, order, i);
      }
      if Comes(g, n) {
        var k :| ComesWithin(g, n, k);
        AllTaken(g, indegree, order, n, k);
      }
    }
  }

  /** `_topological_order` */
  method TopologicalOrder(g: Schema) returns (order: seq<Id>)
    ensures Sorted(g, order) && forall n :: n in order <==> Comes(g, n)
  {
    var indegree := CountEdges(g);
    var queue := Zeros(indegree);
    order := [];
    NothingTaken(g, indegree);
    while queue != []
      invariant Sorting(g, indegree, queue, order) && Counting(g, indegree, Members(order), []) && Sorted(g, order)
      decreases Known(g) - Members(order)
    {
      TakeNext(g, indegree, queue, order);
      var current := queue[0];
      order := order + [current];
      indegree, queue := Release(g, Outgoing(g.edges, current), indegree, queue[1..], order);
    }
    SortDone(g, indegree, order);
  }

  lemma NothingTaken(g: Schema, indegree: map<Id, int>)
    requires forall n :: n in indegree ==> indegree[n] == Ways(g.edges, n)
    ensures Counting(g, indegree, Members([]), [])
  {
    forall n | n in indegree ensures Waits(g.edges, n, Members([])) == Ways(g.edges, n) { AllWait(g.edges, n, Members([])); }
  }

  lemma AllWait(es: seq<Edge>, n: Id, none: set<Id>)
    requires none == {}
    ensures Waits(es, n, none) == Ways(es, n)
  {}

  // --- what is written before a node ------------------------------------------------------------

  /** The elements a node is sure to write. */
  function Writes(writes: map<Id, set<Id>>, n: Id): set<Id> {
    if n in writes then writes[n] else {}
  }

  /** The elements available behind `n`. */
  function After(writes: map<Id, set<Id>>, before: map<Id, set<Id>>, n: Id): set<Id> {
    (if n in before then before[n] else {}) + Writes(writes, n)
  }

  /** What all the edges bring: the contributions intersected. */
  function AllBring(writes: map<Id, set<Id>>, before: map<Id, set<Id>>, es: seq<Edge>): (r: set<Id>)
    requires es != []
    ensures forall el :: el in r <==> forall e :: e in es ==> el in After(writes, before, e.source)
  {
    var first := After(writes, before, es[0].source);
    assert forall e :: e in es <==> e == es[0] || e in es[1..];
    if |es| == 1 then first else first * AllBring(writes, before, es[1..])
  }

  /** What some edge brings: the contributions united. */
  function SomeBrings(writes: map<Id, set<Id>>, before: map<Id, set<Id>>, es: seq<Edge>): (r: set<Id>)
    ensures forall el :: el in r <==> exists e :: e in es && el in After(writes, before, e.source)
  {
    if es == [] then {}
    else
      assert forall e :: e in es <==> e == es[0] || e in es[1..];
      After(writes, before, es[0].source) + SomeBrings(writes, before, es[1..])
  }

  /** On every way to `n` the element is written: at an AND join by some branch, at other nodes by all. */
  ghost predicate Supplied(g: Schema, writes: map<Id, set<Id>>, before: map<Id, set<Id>>, n: Id, el: Id) {
    HasEntry(g.edges, n) &&
    if n in g.nodes && g.nodes[n].AND_JOIN?
    then exists e :: e in g.edges && e.target == n && el in After(writes, before, e.source)
    else forall e :: e in g.edges && e.target == n ==> el in After(writes, before, e.source)
  }

  ghost predicate SolvedAt(g: Schema, writes: map<Id, set<Id>>, before: map<Id, set<Id>>, n: Id) {
    n in before && forall el :: el in before[n] <==> Supplied(g, writes, before, n, el)
  }

  /** `before` is what the analysis is after. */
  ghost predicate Solves(g: Schema, writes: map<Id, set<Id>>, before: map<Id, set<Id>>) {
    before.Keys == g.nodes.Keys && forall n :: n in g.nodes ==> SolvedAt(g, writes, before, n)
  }

  /** The nodes of the order up to `i` are solved, the others still empty. */
  ghost predicate SolvedUpTo(g: Schema, writes: map<Id, set<Id>>, before: map<Id, set<Id>>, order: seq<Id>, i: nat)
    requires i <= |order|
  {
    && before.Keys == g.nodes.Keys
    && (forall n :: n in order[..i] ==> SolvedAt(g, writes, before, n))
    && (forall n :: n in g.nodes && n !in order[..i] ==> before[n] == {})
  }

  /** What is written behind a node that is not solved yet plays no part in what was solved. */
  lemma SolvedStays(g: Schema, writes: map<Id, set<Id>>, before: map<Id, set<Id>>, order: seq<Id>, i: nat, n: Id, s: set<Id>)
    requires Sorted(g, order) && i < |order| && n in order[..i] && SolvedAt(g, writes, before, n)
    ensures SolvedAt(g, writes, before[order[i] := s], n)
  {
    var j :| 0 <= j < i && order[j] == n;
    forall e | e in g.edges && e.target == n ensures After(writes, before[order[i] := s], e.source) == After(writes, before, e.source) {
      var k := SourceBefore(g, order, j, e);
    }
  }

  lemma SolveNext(g: Schema, writes: map<Id, set<Id>>, before: map<Id, set<Id>>, order: seq<Id>, i: nat, s: set<Id>)
    requires Sorted(g, order) && i < |order| && order[i] in g.nodes && SolvedUpTo(g, writes, before, order, i)
    requires forall el :: el in s <==> Supplied(g, writes, before, order[i], el)
    ensures SolvedUpTo(g, writes, before[order[i] := s], order, i + 1)
  {
    var n := order[i];
    assert order[..i + 1] == order[..i] + [n];
    forall m | m in order[..i] ensures SolvedAt(g, writes, before[n := s], m) { SolvedStays(g, writes, before, order, i, m, s); }
    forall e | e in g.edges && e.target == n ensures After(writes, before[n := s], e.source) == After(writes, before, e.source) {
      var k := SourceBefore(g, order, i, e);
    }
    assert SolvedAt(g, writes, before[n := s], n);
  }

  lemma EntryIffIncoming(es: seq<Edge>, n: Id)
    ensures Incoming(es, n) != [] <==> HasEntry(es, n)
  {
    if Incoming(es, n) != [] {
      var e := Incoming(es, n)[0];
      assert e in Incoming(es, n);
    }
  }

  /** `_must_written_before`; None where the lookup of a node's type fails. `writes` are the mandatory writes. */
  method MustWrittenBefore(g: Schema, writes: map<Id, set<Id>>) returns (before: Option<map<Id, set<Id>>>)
    ensures before.None? <==> !Resolves(g)
    ensures before.Some? ==> before.value.Keys == g.nodes.Keys
    ensures before.Some? ==> forall n :: n in g.nodes && Comes(g, n) ==> SolvedAt(g, writes, before.value, n)
    ensures before.Some? ==> forall n :: n in g.nodes && !Comes(g, n) ==> before.value[n] == {}
  {
    var order := TopologicalOrder(g);
    var result: map<Id, set<Id>> := map n | n in g.nodes :: {};
    for i := 0 to |order|
      invariant SolvedUpTo(g, writes, result, order, i)
      invariant forall n :: n in order[..i] ==> n in g.nodes
    {
      var n := order[i];
      assert n in order && order[..i + 1] == order[..i] + [n];
      var incoming := Incoming(g.edges, n);
      EntryIffIncoming(g.edges, n);
      var guaranteed: set<Id> := {};
      if incoming != [] {
        if n !in g.nodes { return None; }
        guaranteed := if g.nodes[n].AND_JOIN? then SomeBrings(writes, result, incoming) else AllBring(writes, result, incoming);
      }
      SolveNext(g, writes, result, order, i, guaranteed);
      result := result[n := guaranteed];
    }
    assert order[..|order|] == order;
    return Some(result);
  }

  lemma {:induction false} RankedComes(g: Schema, rank: map<Id, nat>, n: Id)
    requires forall e :: e in g.edges ==> e.source in g.nodes && e.target in g.nodes && e.source in rank && e.target in rank && rank[e.source] < rank[e.target]
    requires n in g.nodes
    ensures ComesWithin(g, n, if n in rank then rank[n] else 0)
    decreases if n in rank then rank[n] else 0
  {
    forall e | e in g.edges && e.target == n ensures rank[n] > 0 && ComesWithin(g, e.source, rank[n] - 1) {
      RankedComes(g, rank, e.source);
      ComesLater(g, e.source, rank[e.source], rank[n] - 1);
    }
  }

  /** On a graph without cycle the equations have one solution only. */
  lemma {:induction false} OneSolution(g: Schema, rank: map<Id, nat>, writes: map<Id, set<Id>>, before: map<Id, set<Id>>, before': map<Id, set<Id>>, n: Id)
    requires forall e :: e in g.edges ==> e.source in g.nodes && e.target in g.nodes && e.source in rank && e.target in rank && rank[e.source] < rank[e.target]
    requires Solves(g, writes, before) && Solves(g, writes, before') && n in g.nodes
    ensures before[n] == before'[n]
    decreases if n in rank then rank[n] else 0
  {
    forall e | e in g.edges && e.target == n ensures After(writes, before, e.source) == After(writes, before', e.source) {
      OneSolution(g, rank, writes, before, before', e.source);
    }
    assert SolvedAt(g, writes, before, n) && SolvedAt(g, writes, before', n);
    forall el ensures el in before[n] <==> el in before'[n] {
      assert Supplied(g, writes, before, n, el) <==> Supplied(g, writes, before', n, el);
    }
  }
}

/**
 Organisation models: the unit hierarchy, deputy chains and the resolution of staff rules. Parent
 and deputy links are followed upwards with `Climb`; a hierarchy is acyclic if no unit climbs back
 to itself.
 */
module Org {
  import opened Model

  /** Where each id points: units to their parents, agents to their deputies. */
  type Links = map<Id, Option<Id>>

  datatype Unit = Unit(parent: Option<Id>, manager: Option<Id>)

  datatype Agent = Agent(roles: set<Id>, unit: Option<Id>, deputy: Option<Id>)

  datatype OrgModel = OrgModel(roles: set<Id>, units: map<Id, Unit>, agents: map<Id, Agent>)
  {
    function Parents(): Links { map u | u in units :: units[u].parent }

    function Deputies(): Links { map a | a in agents :: agents[a].deputy }
  }

  /** The link of an id; ids that are not there link to nothing. */
  function Up(links: Links, a: Id): Option<Id> {
    if a in links then links[a] else None
  }

  /** The id reached from `a` after `k` links. */
  function Climb(links: Links, a: Id, k: nat): Option<Id> {
    if k == 0 then Some(a)
    else
      var b := Climb(links, a, k - 1);
      if b.None? then None else Up(links, b.value)
  }

  /** A non-empty chain of links leads from `a` to `b`. */
  ghost predicate Above(links: Links, a: Id, b: Id) {
    exists k: nat :: k >= 1 && Climb(links, a, k) == Some(b)
  }

  ghost predicate Acyclic(links: Links) {
    forall a :: a in links ==> !Above(links, a, a)
  }

  lemma {:induction false} ClimbAdd(links: Links, a: Id, m: nat, n: nat)
    ensures Climb(links, a, m + n) == if Climb(links, a, m).Some? then Climb(links, Climb(links, a, m).value, n) else None
  {
    if n > 0 { ClimbAdd(links, a, m, n - 1); }
  }

  /** A climb that returns to its start never ends. */
  lemma {:induction false} NeverEnds(links: Links, a: Id, k: nat, m: nat)
    requires k >= 1 && Climb(links, a, k) == Some(a)
    ensures Climb(links, a, m).Some?
    decreases m
  {
    if m >= k {
      ClimbAdd(links, a, k, m - k);
      NeverEnds(links, a, k, m - k);
    } else {
      ClimbAdd(links, a, m, k - m);
    }
  }

  /** A repeated id on a climb lies on a cycle. */
  lemma RepeatMeansCycle(links: Links, a: Id, i: nat, j: nat)
    requires i < j && Climb(links, a, i).Some? && Climb(links, a, j) == Climb(links, a, i)
    ensures var b := Climb(links, a, i).value; b in links && Above(links, b, b)
  {
    var b := Climb(links, a, i).value;
    ClimbAdd(links, a, i, j - i);
    ClimbAdd(links, b, 1, j - i - 1);
    assert Climb(links, b, 1) == Up(links, b) by { assert Climb(links, b, 0) == Some(b); }
  }

  /** The ids on a climb, up to step `k`. */
  ghost predicate OnTheWayUp(links: Links, a: Id, k: nat, b: Id) {
    exists j: nat :: j < k && Climb(links, a, j) == Some(b)
  }

  /** The inner loop of `_check_hierarchy_acyclic`. */
  method ClimbFrom(links: Links, start: Id) returns (cycle: bool)
    requires start in links
    ensures cycle ==> !Acyclic(links)
    ensures !cycle ==> !Above(links, start, start)
  {
    var seen: set<Id> := {};
    var current := Some(start);
    ghost var k: nat := 0;
    ghost var room := links.Keys;
    while current.Some?
      invariant current == Climb(links, start, k)
      invariant forall b :: b in seen <==> OnTheWayUp(links, start, k, b)
      invariant room == links.Keys - seen
      decreases room, current.Some? && current.value in links, current.Some?
    {
      if current.value in seen {
        ghost var j: nat :| j < k && Climb(links, start, j) == Some(current.value);
        RepeatMeansCycle(links, start, j, k);
        return true;
      }
      WayGrows(links, start, k);
      seen := seen + {current.value};
      room := room - {current.value};
      current := Up(links, current.value);
      k := k + 1;
    }
    if Above(links, start, start) {
      var c: nat :| c >= 1 && Climb(links, start, c) == Some(start);
      NeverEnds(links, start, c, k);
    }
    return false;
  }

  lemma WayGrows(links: Links, a: Id, k: nat)
    requires Climb(links, a, k).Some?
    ensures forall b :: OnTheWayUp(links, a, k + 1, b) <==> OnTheWayUp(links, a, k, b) || b == Climb(links, a, k).value
  {
    forall b ensures OnTheWayUp(links, a, k + 1, b) <==> OnTheWayUp(links, a, k, b) || b == Climb(links, a, k).value {
      if OnTheWayUp(links, a, k + 1, b) {
        var j: nat :| j < k + 1 && Climb(links, a, j) == Some(b);
        assert j < k ==> OnTheWayUp(links, a, k, b);
      }
      if OnTheWayUp(links, a, k, b) {
        var j: nat :| j < k && Climb(links, a, j) == Some(b);
        assert j < k + 1;
      }
      if b == Climb(links, a, k).value { assert k < k + 1 && Climb(links, a, k) == Some(b); }
    }
  }

  /** `_check_hierarchy_acyclic`: the full scan finds a cycle exactly when there is one. */
  method CheckAcyclic(links: Links) returns (ok: bool)
    ensures ok <==> Acyclic(links)
  {
    var left := links.Keys;
    while left != {}
      invariant left <= links.Keys
      invariant forall a :: a in links && a !in left ==> !Above(links, a, a)
      decreases left
    {
      var start :| start in left;
      left := left - {start};
      var cycle := ClimbFrom(links, start);
      if cycle { return false; }
    }
    return true;
  }

  // --- moving a unit ---------------------------------------------------------------------------------

  /** Links that differ at `u` only lead the same way as long as `u` is not met. */
  lemma {:induction false} SameUntil(links: Links, links': Links, u: Id, a: Id, k: nat)
    requires forall b :: b != u ==> Up(links', b) == Up(links, b)
    requires forall j: nat :: j < k ==> Climb(links, a, j) != Some(u)
    ensures Climb(links', a, k) == Climb(links, a, k)
  {
    if k > 0 { SameUntil(links, links', u, a, k - 1); }
  }

  /** The first time a climb meets `u`. */
  lemma FirstMeeting(links: Links, a: Id, u: Id, k: nat) returns (m: nat)
    requires Climb(links, a, k) == Some(u)
    ensures m <= k && Climb(links, a, m) == Some(u) && forall j: nat :: j < m ==> Climb(links, a, j) != Some(u)
  {
    m := 0;
    while Climb(links, a, m) != Some(u)
      invariant m <= k && forall j: nat :: j < m ==> Climb(links, a, j) != Some(u)
      decreases k - m
    {
      m := m + 1;
    }
  }

  /** `p` is `u` or lies below it. */
  ghost predicate Within(links: Links, p: Id, u: Id) {
    exists k: nat :: Climb(links, p, k) == Some(u)
  }

  /** Hanging `u` under `p` keeps the hierarchy acyclic exactly when `p` is not within `u`. */
  lemma MoveIff(links: Links, u: Id, p: Id)
    requires Acyclic(links) && u in links
    ensures Acyclic(links[u := Some(p)]) <==> !Within(links, p, u)
  {
    var links' := links[u := Some(p)];
    if Within(links, p, u) {
      var k: nat :| Climb(links, p, k) == Some(u);
      var m := FirstMeeting(links, p, u, k);
      SameUntil(links, links', u, p, m);
      ClimbAdd(links', u, 1, m);
      assert Climb(links', u, 1) == Some(p) by { assert Climb(links', u, 0) == Some(u); }
      assert Climb(links', u, 1 + m) == Some(u);
      assert Above(links', u, u);
    } else {
      forall w | w in links' ensures !Above(links', w, w) {
        if Above(links', w, w) {
          var k: nat :| k >= 1 && Climb(links', w, k) == Some(w);
          CycleThrough(links, u, p, w, k);
        }
      }
    }
  }

  /** A new cycle must lead through the moved unit, hence from its new parent back to it. */
  lemma CycleThrough(links: Links, u: Id, p: Id, w: Id, k: nat)
    requires Acyclic(links) && u in links && k >= 1 && Climb(links[u := Some(p)], w, k) == Some(w)
    ensures Within(links, p, u)
  {
    var links' := links[u := Some(p)];
    if j: nat :| j < k && Climb(links', w, j) == Some(u) {
      ClimbAdd(links', w, k, j);
      ClimbAdd(links', w, j, k);
      assert Climb(links', u, k) == Some(u);
      ClimbAdd(links', u, 1, k - 1);
      assert Climb(links', u, 1) == Some(p) by { assert Climb(links', u, 0) == Some(u); }
      var m := FirstMeeting(links', p, u, k - 1);
      SameUntil(links', links, u, p, m);
    } else {
      SameUntil(links', links, u, w, k);
      assert Climb(links, w, k) == Some(w);
      assert Climb(links, w, 1).Some? by { ClimbAdd(links, w, 1, k - 1); }
      assert Climb(links, w, 1) == Up(links, w) by { assert Climb(links, w, 0) == Some(w); }
      assert w in links && Above(links, w, w);
    }
  }

  /** Cutting a link keeps a hierarchy acyclic. */
  lemma CutKeeps(links: Links, u: Id)
    requires Acyclic(links)
    ensures Acyclic(links[u := None])
  {
    var links' := links[u := None];
    forall w | w in links' ensures !Above(links', w, w) {
      if Above(links', w, w) {
        var k: nat :| k >= 1 && Climb(links', w, k) == Some(w);
        if j: nat :| j < k && Climb(links', w, j) == Some(u) {
          NeverEnds(links', w, k, j + 1);
        } else {
          SameUntil(links', links, u, w, k);
          assert Above(links, w, w);
        }
      }
    }
  }

  /** A new unit under an existing one closes no cycle: nothing points to it yet. */
  lemma NewKeeps(links: Links, u: Id, p: Option<Id>)
    requires Acyclic(links) && u !in links && (p.Some? ==> p.value in links)
    requires forall a :: a in links && links[a].Some? ==> links[a].value in links
    ensures Acyclic(links[u := p])
  {
    var links' := links[u := p];
    forall w | w in links' ensures !Above(links', w, w) {
      if Above(links', w, w) {
        var k: nat :| k >= 1 && Climb(links', w, k) == Some(w);
        NeverReached(links, u, p, w, k);
        if j: nat :| j < k && Climb(links', w, j) == Some(u) {
          NeverReached(links, u, p, w, j);
        }
        SameUntil(links', links, u, w, k);
        assert Above(links, w, w);
      }
    }
  }

  lemma {:induction false} NeverReached(links: Links, u: Id, p: Option<Id>, w: Id, k: nat)
    requires u !in links && (p.Some? ==> p.value in links)
    requires forall a :: a in links && links[a].Some? ==> links[a].value in links
    ensures k >= 1 ==> Climb(links[u := p], w, k) != Some(u)
  {
    if k > 1 { NeverReached(links, u, p, w, k - 1); }
  }

  // --- the operations -----------------------------------------------------------------------------------

  /** The references of rule Z1. */
  predicate Referenced(org: OrgModel) {
    && (forall a :: a in org.agents ==>
          && org.agents[a].roles <= org.roles
          && (org.agents[a].unit.Some? ==> org.agents[a].unit.value in org.units)
          && (org.agents[a].deputy.Some? ==> org.agents[a].deputy.value in org.agents && org.agents[a].deputy.value != a))
    && (forall u :: u in org.units ==>
          && (org.units[u].manager.Some? ==> org.units[u].manager.value in org.agents)
          && (org.units[u].parent.Some? ==> org.units[u].parent.value in org.units))
  }

  ghost predicate Z1(org: OrgModel) {
    Referenced(org) && Acyclic(org.Parents())
  }

  /** The agent's roles, unit and deputy exist, and nobody is one's own deputy. */
  predicate AgentRefers(org: OrgModel, a: Id)
    requires a in org.agents
  {
    var agent := org.agents[a];
    && (forall role :: role in agent.roles ==> role in org.roles)
    && (agent.unit != None ==> agent.unit.value in org.units)
    && (agent.deputy != None ==> agent.deputy != Some(a) && agent.deputy.value in org.agents)
  }

  /** The unit's manager and parent exist, and no climb leads back to it. */
  ghost predicate UnitRefers(org: OrgModel, u: Id)
    requires u in org.units
  {
    && (org.units[u].manager != None ==> org.units[u].manager.value in org.agents)
    && (org.units[u].parent != None ==> org.units[u].parent.value in org.units)
    && forall k: nat :: k >= 1 ==> Climb(org.Parents(), u, k) != Some(u)
  }

  /** Rule Z1: all references lead to what is there, and no hierarchy leads back to where it began. */
  lemma Z1Means(org: OrgModel)
    ensures Z1(org) <==> (forall a :: a in org.agents ==> AgentRefers(org, a)) && (forall u :: u in org.units ==> UnitRefers(org, u))
  {
    if Z1(org) {
      forall u | u in org.units ensures UnitRefers(org, u) { assert u in org.Parents() && !Above(org.Parents(), u, u); }
    }
    if (forall a :: a in org.agents ==> AgentRefers(org, a)) && (forall u :: u in org.units ==> UnitRefers(org, u)) {
      forall a | a in org.agents ensures org.agents[a].roles <= org.roles { assert AgentRefers(org, a); }
      forall u | u in org.Parents() ensures !Above(org.Parents(), u, u) { assert UnitRefers(org, u); }
    }
  }

  /** `raise_if_invalid_org` */
  method RaiseIfInvalid(org: OrgModel) returns (r: Result<OrgModel>)
    ensures r.Ok? <==> Z1(org)
    ensures r.Ok? ==> r.value == org
  {
    var acyclic := CheckAcyclic(org.Parents());
    if !Referenced(org) || !acyclic { return Err(Incorrect("Z1")); }
    return Ok(org);
  }

  /** The walk from `p` has taken `k` steps without meeting `u`. */
  ghost predicate Walked(links: Links, p: Id, u: Id, k: nat) {
    forall j: nat :: j < k ==> Climb(links, p, j).Some? && Climb(links, p, j) != Some(u)
  }

  lemma WalkGrows(links: Links, p: Id, u: Id, k: nat)
    requires Walked(links, p, u, k) && Climb(links, p, k).Some? && Climb(links, p, k) != Some(u)
    ensures Walked(links, p, u, k + 1)
  {
    forall j: nat | j < k + 1 ensures Climb(links, p, j).Some? && Climb(links, p, j) != Some(u) { assert j < k || j == k; }
  }

  lemma WalkMisses(links: Links, p: Id, u: Id, k: nat)
    requires Walked(links, p, u, k) && Climb(links, p, k).None?
    ensures !Within(links, p, u)
  {
    forall m: nat ensures Climb(links, p, m) != Some(u) {
      if m > k { ClimbAdd(links, p, k, m - k); }
    }
  }

  /** On an acyclic hierarchy a walk never comes to the same id twice. */
  lemma WalkIsNew(links: Links, p: Id, k: nat, a: Id)
    requires Acyclic(links) && Climb(links, p, k) == Some(a)
    ensures !OnTheWayUp(links, p, k, a)
  {
    if OnTheWayUp(links, p, k, a) {
      var j: nat :| j < k && Climb(links, p, j) == Some(a);
      RepeatMeansCycle(links, p, j, k);
    }
  }

  /** The unguarded walk of `org_set_parent`: on an acyclic hierarchy it ends, and tells whether `u` is met. */
  method WalkUp(links: Links, p: Id, u: Id) returns (met: bool)
    requires Acyclic(links) && p in links && forall a :: a in links && links[a].Some? ==> links[a].value in links
    ensures met <==> Within(links, p, u)
  {
    var walker := Some(p);
    ghost var k: nat := 0;
    ghost var room := links.Keys;
    while walker.Some?
      invariant walker == Climb(links, p, k) && (walker.Some? ==> walker.value in links)
      invariant Walked(links, p, u, k)
      invariant room <= links.Keys && forall a :: a in links && a !in room <==> OnTheWayUp(links, p, k, a)
      decreases room
    {
      if walker.value == u { return true; }
      WalkIsNew(links, p, k, walker.value);
      WalkGrows(links, p, u, k);
      WayGrows(links, p, k);
      room := room - {walker.value};
      walker := links[walker.value];
      k := k + 1;
    }
    WalkMisses(links, p, u, k);
    return false;
  }

  function WithParent(org: OrgModel, u: Id, p: Option<Id>): OrgModel
    requires u in org.units
  {
    org.(units := org.units[u := org.units[u].(parent := p)])
  }

  /**
   `org_set_parent`: a move to an existing parent is accepted exactly when the full scan finds no
   cycle afterwards.
   */
  method SetParent(org: OrgModel, u: Id, p: Option<Id>) returns (r: Result<OrgModel>)
    requires Z1(org)
    ensures r.Ok? <==> u in org.units && (p.Some? ==> p.value in org.units) && Acyclic(WithParent(org, u, p).Parents())
    ensures r.Ok? ==> r.value == WithParent(org, u, p) && Z1(r.value)
    ensures r.Ok? ==> r.value == org.(units := org.units[u := Unit(p, org.units[u].manager)])
  {
    if u !in org.units { return Err(Incorrect("OP")); }
    var candidate := WithParent(org, u, p);
    assert candidate.Parents() == org.Parents()[u := p];
    if p.Some? {
      if p.value !in org.units { return Err(Incorrect("OP")); }
      MoveIff(org.Parents(), u, p.value);
      var met := WalkUp(org.Parents(), p.value, u);
      if met { return Err(Incorrect("OP")); }
    } else {
      CutKeeps(org.Parents(), u);
    }
    r := RaiseIfInvalid(candidate);
  }

  /** `org_add_unit` */
  method AddUnit(org: OrgModel, u: Id, p: Option<Id>, manager: Option<Id>) returns (r: Result<OrgModel>)
    requires Z1(org)
    ensures r.Ok? <==> u !in org.units && (p.Some? ==> p.value in org.units) && (manager.Some? ==> manager.value in org.agents)
    ensures r.Ok? ==> r.value == org.(units := org.units[u := Unit(p, manager)]) && Z1(r.value)
  {
    if u in org.units { return Err(Incorrect("OP")); }
    if p.Some? && p.value !in org.units { return Err(Incorrect("OP")); }
    if manager.Some? && manager.value !in org.agents { return Err(Incorrect("OP")); }
    var candidate := org.(units := org.units[u := Unit(p, manager)]);
    assert candidate.Parents() == org.Parents()[u := p];
    NewKeeps(org.Parents(), u, p);
    r := RaiseIfInvalid(candidate);
  }

  /** `org_set_deputy`: deputy chains may be cyclic, only one's own deputy is refused. */
  method SetDeputy(org: OrgModel, a: Id, d: Option<Id>) returns (r: Result<OrgModel>)
    requires Z1(org)
    ensures r.Ok? <==> a in org.agents && (d.Some? ==> d.value in org.agents && d.value != a)
    ensures r.Ok? ==> r.value == org.(agents := org.agents[a := org.agents[a].(deputy := d)]) && Z1(r.value)
  {
    if a !in org.agents { return Err(Incorrect("OP")); }
    if d.Some? && (d.value == a || d.value !in org.agents) { return Err(Incorrect("OP")); }
    r := RaiseIfInvalid(org.(agents := org.agents[a := org.agents[a].(deputy := d)]));
  }

  // --- deputies and descendants -------------------------------------------------------------------------

  /** `d` is in the base or stands in for somebody in it, through any number of deputies. */
  ghost predicate StandsIn(links: Links, base: set<Id>, d: Id) {
    exists a, k: nat :: a in base && Climb(links, a, k) == Some(d)
  }

  predicate LinkIn(links: Links, a: Id, s: set<Id>) {
    Up(links, a).Some? ==> Up(links, a).value in s
  }

  ghost predicate DeputyClosed(links: Links, s: set<Id>) {
    forall a {:trigger LinkIn(links, a, s)} :: a in s ==> LinkIn(links, a, s)
  }

  lemma {:induction false} ClosedClimbs(links: Links, s: set<Id>, a: Id, k: nat)
    requires DeputyClosed(links, s) && a in s && Climb(links, a, k).Some?
    ensures Climb(links, a, k).value in s
  {
    if k > 0 {
      ClosedClimbs(links, s, a, k - 1);
      assert LinkIn(links, Climb(links, a, k - 1).value, s);
    }
  }

  lemma StandInGrows(links: Links, base: set<Id>, a: Id)
    requires StandsIn(links, base, a) && Up(links, a).Some?
    ensures StandsIn(links, base, Up(links, a).value)
  {
    var b, k: nat :| b in base && Climb(links, b, k) == Some(a);
    assert Climb(links, b, k + 1) == Up(links, a);
  }

  /** The state of the search: everybody found stands in, and all but the frontier have been followed up. */
  ghost predicate Searching(links: Links, base: set<Id>, result: set<Id>, frontier: set<Id>) {
    && base <= result && frontier <= result && result <= base + Targets(links)
    && (forall d :: d in result ==> StandsIn(links, base, d))
    && (forall a {:trigger LinkIn(links, a, result)} :: a in result && a !in frontier ==> LinkIn(links, a, result))
  }

  lemma SearchStarts(links: Links, base: set<Id>)
    ensures Searching(links, base, base, base)
  {
    forall a | a in base ensures StandsIn(links, base, a) { assert Climb(links, a, 0) == Some(a); }
  }

  lemma SearchSteps(links: Links, base: set<Id>, result: set<Id>, frontier: set<Id>, a: Id)
    requires Searching(links, base, result, frontier) && a in frontier
    ensures LinkIn(links, a, result) ==> Searching(links, base, result, frontier - {a})
    ensures !LinkIn(links, a, result) ==>
              var d := Up(links, a).value;
              a in links && d in Targets(links) && Searching(links, base, result + {d}, frontier - {a} + {d})
  {
    if !LinkIn(links, a, result) {
      var d := Up(links, a).value;
      StandInGrows(links, base, a);
      forall b | b in result + {d} && b !in frontier - {a} + {d} ensures LinkIn(links, b, result + {d}) {
        if b != a { assert LinkIn(links, b, result); }
      }
    }
  }

  /** `_with_deputies`: ends on cyclic chains too, whatever agent is taken from the frontier next. */
  method WithDeputies(links: Links, base: set<Id>) returns (result: set<Id>)
    ensures forall d :: d in result <==> StandsIn(links, base, d)
    ensures base <= result && DeputyClosed(links, result)
    ensures forall s :: base <= s && DeputyClosed(links, s) ==> result <= s
  {
    result := base;
    var frontier := base;
    SearchStarts(links, base);
    while frontier != {}
      invariant Searching(links, base, result, frontier)
      decreases base + Targets(links) - result, frontier
    {
      var a :| a in frontier;
      SearchSteps(links, base, result, frontier, a);
      frontier := frontier - {a};
      var d := Up(links, a);
      if d.Some? && d.value !in result {
        result := result + {d.value};
        frontier := frontier + {d.value};
      }
    }
    SearchDone(links, base, result);
    LeastStandIns(links, base, result);
  }

  lemma SearchDone(links: Links, base: set<Id>, result: set<Id>)
    requires Searching(links, base, result, {})
    ensures DeputyClosed(links, result)
    ensures forall d :: d in result <==> StandsIn(links, base, d)
  {
    forall d | StandsIn(links, base, d) ensures d in result {
      var a, k: nat :| a in base && Climb(links, a, k) == Some(d);
      ClosedClimbs(links, result, a, k);
    }
  }

  lemma LeastStandIns(links: Links, base: set<Id>, result: set<Id>)
    requires forall d :: d in result ==> StandsIn(links, base, d)
    ensures forall s :: base <= s && DeputyClosed(links, s) ==> result <= s
  {
    forall s | base <= s && DeputyClosed(links, s) ensures result <= s {
      forall d | d in result ensures d in s {
        var a, k: nat :| a in base && Climb(links, a, k) == Some(d);
        ClosedClimbs(links, s, a, k);
      }
    }
  }

  function Targets(links: Links): set<Id> {
    set a | a in links && links[a].Some? :: links[a].value
  }

  function Children(links: Links, p: Id): set<Id> {
    set u | u in links && links[u] == Some(p)
  }

  /** `_descendant_units`: exactly the units with a non-empty parent chain to `unit`. */
  method DescendantUnits(links: Links, unit: Option<Id>, recursive: bool) returns (descendants: set<Id>)
    ensures !recursive || unit.None? ==> descendants == {}
    ensures recursive && unit.Some? ==> forall u :: u in descendants <==> Above(links, u, unit.value)
  {
    if !recursive || unit.None? { return {}; }
    var root := unit.value;
    descendants := {};
    var frontier := {root};
    while frontier != {}
      invariant descendants <= links.Keys && frontier <= descendants + {root}
      invariant forall u :: u in descendants ==> Above(links, u, root)
      invariant forall p :: p in descendants + {root} && p !in frontier ==> Children(links, p) <= descendants
      decreases links.Keys - descendants, frontier
    {
      var current :| current in frontier;
      frontier := frontier - {current};
      var found := Children(links, current) - descendants;
      forall u | u in found ensures Above(links, u, root) { ChildAbove(links, u, current, root); }
      descendants := descendants + found;
      frontier := frontier + found;
    }
    forall u | Above(links, u, root) ensures u in descendants {
      var k: nat :| k >= 1 && Climb(links, u, k) == Some(root);
      AllFound(links, descendants, root, u, k);
    }
  }

  lemma ChildAbove(links: Links, u: Id, p: Id, root: Id)
    requires u in links && links[u] == Some(p) && (p == root || Above(links, p, root))
    ensures Above(links, u, root)
  {
    assert Climb(links, u, 1) == Some(p) by { assert Climb(links, u, 0) == Some(u); }
    if p != root {
      var k: nat :| k >= 1 && Climb(links, p, k) == Some(root);
      ClimbAdd(links, u, 1, k);
      assert Climb(links, u, 1 + k) == Some(root);
    }
  }

  lemma {:induction false} AllFound(links: Links, descendants: set<Id>, root: Id, u: Id, k: nat)
    requires forall p :: p in descendants + {root} ==> Children(links, p) <= descendants
    requires k >= 1 && Climb(links, u, k) == Some(root)
    ensures u in descendants
    decreases k
  {
    ClimbAdd(links, u, 1, k - 1);
    assert Climb(links, u, 1) == Up(links, u) by { assert Climb(links, u, 0) == Some(u); }
    var p := links[u].value;
    if k == 1 {
      assert u in Children(links, root);
    } else {
      AllFound(links, descendants, root, p, k - 1);
      assert u in Children(links, p);
    }
  }

  // --- staff rules -----------------------------------------------------------------------------------------

  datatype StaffRule =
    | ByRole(ref: Option<Id>)
    | ByUnit(ref: Option<Id>, recursive: bool)
    | ByPerformer(ref: Option<Id>)
    | And(operands: seq<StaffRule>)
    | Or(operands: seq<StaffRule>)
    | Except(operands: seq<StaffRule>)

  /** What a rule says about one agent; `performed` names who performed the finished nodes. */
  ghost predicate Matches(org: OrgModel, rule: StaffRule, performed: map<Id, Id>, a: Id) {
    match rule
    case ByRole(ref) => a in org.agents && ref.Some? && ref.value in org.agents[a].roles
    case ByUnit(ref, recursive) =>
      && a in org.agents
      && var unit := org.agents[a].unit;
         unit == ref || (recursive && ref.Some? && unit.Some? && Above(org.Parents(), unit.value, ref.value))
    case ByPerformer(ref) => ref.Some? && ref.value != "" && ref.value in performed && performed[ref.value] == a
    case And(ops) => ops != [] && forall i :: 0 <= i < |ops| ==> Matches(org, ops[i], performed, a)
    case Or(ops) => exists i :: 0 <= i < |ops| && Matches(org, ops[i], performed, a)
    case Except(ops) => ops != [] && Matches(org, ops[0], performed, a) && (|ops| >= 2 ==> !Matches(org, ops[1], performed, a))
  }

  ghost predicate IsMatchSet(org: OrgModel, rule: StaffRule, performed: map<Id, Id>, r: set<Id>) {
    forall a :: a in r <==> Matches(org, rule, performed, a)
  }

  /** The members of the unit and, if asked for, of the units below it. */
  method UnitMembers(org: OrgModel, ref: Option<Id>, recursive: bool) returns (r: set<Id>)
    ensures forall a :: a in r <==> Matches(org, ByUnit(ref, recursive), map[], a)
  {
    var below := DescendantUnits(org.Parents(), ref, recursive);
    r := set a | a in org.agents && (org.agents[a].unit == ref || (org.agents[a].unit.Some? && org.agents[a].unit.value in below));
  }

  /** The combinator part of `_resolve`, on the resolved operands. */
  method Combine(rule: StaffRule, sets: seq<set<Id>>) returns (r: set<Id>)
    requires rule.And? || rule.Or? || rule.Except?
    ensures rule.And? ==> forall a :: a in r <==> sets != [] && forall i :: 0 <= i < |sets| ==> a in sets[i]
    ensures rule.Or? ==> forall a :: a in r <==> exists i :: 0 <= i < |sets| && a in sets[i]
    ensures rule.Except? ==> forall a :: a in r <==> sets != [] && a in sets[0] && (|sets| >= 2 ==> a !in sets[1])
  {
    if sets == [] { return {}; }
    if rule.And? {
      r := sets[0];
      for k := 1 to |sets|
        invariant forall a :: a in r <==> forall i :: 0 <= i < k ==> a in sets[i]
      {
        r := r * sets[k];
      }
    } else if rule.Or? {
      r := {};
      for k := 0 to |sets|
        invariant forall a :: a in r <==> exists i :: 0 <= i < k && a in sets[i]
      {
        r := r + sets[k];
      }
    } else {
      r := if |sets| >= 2 then sets[0] - sets[1] else sets[0];
    }
  }

  /** `_resolve`: exactly the agents that match the rule. */
  method Resolve(org: OrgModel, rule: StaffRule, performed: map<Id, Id>) returns (r: set<Id>)
    ensures IsMatchSet(org, rule, performed, r)
    decreases rule
  {
    match rule
    case ByRole(ref) =>
      r := set a | a in org.agents && ref.Some? && ref.value in org.agents[a].roles;
    case ByUnit(ref, recursive) =>
      r := UnitMembers(org, ref, recursive);
    case ByPerformer(ref) =>
      r := if ref.Some? && ref.value != "" && ref.value in performed then {performed[ref.value]} else {};
    case _ =>
      var ops := rule.operands;
      var sets: seq<set<Id>> := [];
      for k := 0 to |ops|
        invariant |sets| == k && forall i :: 0 <= i < k ==> IsMatchSet(org, ops[i], performed, sets[i])
      {
        var s := Resolve(org, ops[k], performed);
        sets := sets + [s];
      }
      r := Combine(rule, sets);
  }

  /** The rules one by one: roles, units with or without the units below them, performers, and their combinations. */
  lemma RuleLaws(org: OrgModel, performed: map<Id, Id>, a: Id, id: Id, p: StaffRule, q: StaffRule)
    ensures Matches(org, ByRole(Some(id)), performed, a) <==> a in org.agents && id in org.agents[a].roles
    ensures Matches(org, ByUnit(Some(id), false), performed, a) <==> a in org.agents && org.agents[a].unit == Some(id)
    ensures Matches(org, ByUnit(Some(id), true), performed, a) <==>
              a in org.agents && org.agents[a].unit.Some? && Within(org.Parents(), org.agents[a].unit.value, id)
    ensures id != "" ==> (Matches(org, ByPerformer(Some(id)), performed, a) <==> id in performed && performed[id] == a)
    ensures Matches(org, And([p, q]), performed, a) <==> Matches(org, p, performed, a) && Matches(org, q, performed, a)
    ensures Matches(org, Or([p, q]), performed, a) <==> Matches(org, p, performed, a) || Matches(org, q, performed, a)
    ensures Matches(org, Except([p, q]), performed, a) <==> Matches(org, p, performed, a) && !Matches(org, q, performed, a)
  {
    if a in org.agents && org.agents[a].unit.Some? { WithinIff(org.Parents(), org.agents[a].unit.value, id); }
    PairLaws(org, performed, a, p, q);
  }

  lemma WithinIff(links: Links, u: Id, v: Id)
    ensures Within(links, u, v) <==> u == v || Above(links, u, v)
  {
    if Within(links, u, v) { var k: nat :| Climb(links, u, k) == Some(v); assert k >= 1 ==> Above(links, u, v); }
    if u == v { assert Climb(links, u, 0) == Some(v); }
  }

  lemma PairLaws(org: OrgModel, performed: map<Id, Id>, a: Id, p: StaffRule, q: StaffRule)
    ensures Matches(org, And([p, q]), performed, a) <==> Matches(org, p, performed, a) && Matches(org, q, performed, a)
    ensures Matches(org, Or([p, q]), performed, a) <==> Matches(org, p, performed, a) || Matches(org, q, performed, a)
    ensures Matches(org, Except([p, q]), performed, a) <==> Matches(org, p, performed, a) && !Matches(org, q, performed, a)
  {
    var ops := [p, q];
    assert ops[0] == p && ops[1] == q;
    assert And(ops).operands == ops && Or(ops).operands == ops && Except(ops).operands == ops;
  }

  /** `d` matches the rule or stands in, through any number of deputies, for somebody who does. */
  ghost predicate MayPerform(org: OrgModel, rule: StaffRule, performed: map<Id, Id>, d: Id) {
    exists a, k: nat :: Matches(org, rule, performed, a) && Climb(org.Deputies(), a, k) == Some(d)
  }

  /** `eligible_agents`: everybody who matches, and whoever stands in for them. */
  method EligibleAgents(org: OrgModel, rule: StaffRule, performed: map<Id, Id>) returns (r: set<Id>)
    ensures forall d :: d in r <==> MayPerform(org, rule, performed, d)
  {
    var base := Resolve(org, rule, performed);
    r := WithDeputies(org.Deputies(), base);
    forall d ensures d in r <==> MayPerform(org, rule, performed, d) {
      assert d in r <==> StandsIn(org.Deputies(), base, d);
      MatchersStandIn(org, rule, performed, base, d);
    }
  }

  lemma MatchersStandIn(org: OrgModel, rule: StaffRule, performed: map<Id, Id>, base: set<Id>, d: Id)
    requires IsMatchSet(org, rule, performed, base)
    ensures StandsIn(org.Deputies(), base, d) <==> MayPerform(org, rule, performed, d)
  {
    if StandsIn(org.Deputies(), base, d) {
      var a, k: nat :| a in base && Climb(org.Deputies(), a, k) == Some(d);
      assert Matches(org, rule, performed, a);
    }
    if MayPerform(org, rule, performed, d) {
      var a, k: nat :| Matches(org, rule, performed, a) && Climb(org.Deputies(), a, k) == Some(d);
      assert a in base;
    }
  }
}

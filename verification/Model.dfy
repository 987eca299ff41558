/**
 The meta-model: control-flow nodes, edges, branch decisions, process schemas and
 the ADEPT-style marking of a running instance.
 */
module Model {

  type Id = string

  datatype Option<+T> = None | Some(value: T)

  /** Why a request is refused; the payload names the rule family the code reports. */
  datatype Error =
    | NotExecutable(what: string)    // a runtime request that is not allowed in the current state
    | Incorrect(rule: string)        // a CorrectnessError with a finding of this rule
    | KeyMissing                     // an uncaught lookup failure of the validator
    | Unmappable                     // a document outside the interchange subset

  datatype Result<+T> = Ok(value: T) | Err(error: Error)
  {
    predicate IsFailure() { Err? }

    function PropagateFailure<U>(): Result<U>
      requires Err?
    {
      Err(error)
    }

    function Extract(): T
      requires Ok?
    {
      value
    }
  }

  datatype NodeType =
    | START | END | ACTIVITY | SUBPROCESS
    | AND_SPLIT | AND_JOIN | XOR_SPLIT | XOR_JOIN
  {
    predicate IsSplit() { AND_SPLIT? || XOR_SPLIT? }

    predicate IsJoin() { AND_JOIN? || XOR_JOIN? }

    /** An ACTIVITY or SUBPROCESS: a step with one way in and one way out. */
    predicate IsStep() { ACTIVITY? || SUBPROCESS? }
  }

  datatype Edge = Edge(source: Id, target: Id)

  /** A process variable value. `shown` is its rendering as text, as `str()` gives it. */
  datatype Value =
    | Number(num: real, shown: string)
    | Truth(flag: bool)
    | Text(text: string)
    | Other(truthy: bool, shown: string)

  datatype DecisionKind = THRESHOLD | BOOLEAN | ENUM

  datatype XorBranch = XorBranch(target: Id, upper: Option<real>, boolValue: Option<bool>,
                                 values: seq<string>, isElse: bool)

  datatype XorDecision = XorDecision(discriminator: Id, kind: DecisionKind, branches: seq<XorBranch>)

  datatype Lifecycle = ENTWURF | REVIEW | RELEASED | DEPRECATED | ARCHIVED

  /** The control-flow part of a versioned process schema. */
  datatype Schema = Schema(lifecycle: Lifecycle, version: nat, nodes: map<Id, NodeType>, edges: seq<Edge>,
                           decisions: map<Id, XorDecision>)

  /** `outgoing`: the edges leaving `n`, in the order of the edge list. */
  function Outgoing(edges: seq<Edge>, n: Id): (r: seq<Edge>)
    ensures forall e :: e in r <==> e in edges && e.source == n
  {
    if edges == [] then []
    else (if edges[0].source == n then [edges[0]] else []) + Outgoing(edges[1..], n)
  }

  /** `incoming`: the edges entering `n`, in the order of the edge list. */
  function Incoming(edges: seq<Edge>, n: Id): (r: seq<Edge>)
    ensures forall e :: e in r <==> e in edges && e.target == n
  {
    if edges == [] then []
    else (if edges[0].target == n then [edges[0]] else []) + Incoming(edges[1..], n)
  }

  // --- resolving an XOR split from its structured decision -------------------

  function Render(v: Value): string {
    match v
    case Number(_, shown) => shown
    case Truth(flag) => if flag then "True" else "False"
    case Text(text) => text
    case Other(_, shown) => shown
  }

  predicate Truthy(v: Value) {
    match v
    case Number(num, _) => num != 0.0
    case Truth(flag) => flag
    case Text(text) => text != ""
    case Other(truthy, _) => truthy
  }

  /** First branch, in order, whose upper bound is missing or above `x`. */
  function FirstAbove(branches: seq<XorBranch>, x: real): Option<Id> {
    if branches == [] then None
    else if branches[0].upper.None? || x < branches[0].upper.value then Some(branches[0].target)
    else FirstAbove(branches[1..], x)
  }

  function FirstTruth(branches: seq<XorBranch>, flag: bool): Option<Id> {
    if branches == [] then None
    else if branches[0].boolValue == Some(flag) then Some(branches[0].target)
    else FirstTruth(branches[1..], flag)
  }

  /** First branch listing `text`; the last catch-all seen on the way is the fallback. */
  function FirstListing(branches: seq<XorBranch>, text: string, fallback: Option<Id>): Option<Id> {
    if branches == [] then fallback
    else if branches[0].isElse then FirstListing(branches[1..], text, Some(branches[0].target))
    else if text in branches[0].values then Some(branches[0].target)
    else FirstListing(branches[1..], text, fallback)
  }

  /** `resolve_xor_target` */
  function ResolveTarget(d: XorDecision, v: Value): Option<Id> {
    match d.kind
    case THRESHOLD => if v.Number? then FirstAbove(d.branches, v.num) else None
    case BOOLEAN => FirstTruth(d.branches, Truthy(v))
    case ENUM => FirstListing(d.branches, Render(v), None)
  }

  // --- markings --------------------------------------------------------------

  datatype NodeState = NOT_ACTIVATED | ACTIVATED | RUNNING | COMPLETED | SKIPPED
  {
    /** Finished nodes are the ones that have signaled their outgoing edges. */
    predicate Finished() { COMPLETED? || SKIPPED? }
  }

  datatype Signal = NOT_SIGNALED | TRUE_SIGNALED | FALSE_SIGNALED

  /** A snapshot of a process instance; `done` is the instance state COMPLETED. */
  datatype Instance = Instance(done: bool, nodeStates: map<Id, NodeState>, edgeStates: map<Edge, Signal>,
                               decisions: map<Id, Id>, data: map<Id, Value>)
}

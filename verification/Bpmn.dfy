/**
 BPMN interchange: export of a schema to an element tree and import of such a tree. An exported
 gateway does not say whether it splits or joins; the import infers it from the degrees. The round
 trip is exact precisely for the diagrams whose gateways, ids and conditions allow it.
 */
module Bpmn {
  import opened Model
  import opened Structure
  import opened Validator

  // --- element trees -----------------------------------------------------------------------

  datatype Tag =
    | Definitions | Process | StartEvent | EndEvent
    | Task | UserTask | ServiceTask | ManualTask | ScriptTask | BusinessRuleTask | SendTask | ReceiveTask
    | ParallelGateway | ExclusiveGateway | CallActivity | SequenceFlow | ConditionExpression
    | Documentation | ExtensionElements | LaneSet | IoSpecification | Property | DataObject | DataObjectReference
    | TextAnnotation | Association | Group
    | ModelPayload | Other(name: string)
  {
    /** `_ACTIVITY_TAGS` */
    predicate IsActivity() {
      Task? || UserTask? || ServiceTask? || ManualTask? || ScriptTask? || BusinessRuleTask? || SendTask? || ReceiveTask?
    }

    predicate IsGateway() { ParallelGateway? || ExclusiveGateway? }

    predicate IsFlowNode() { IsActivity() || IsGateway() || StartEvent? || EndEvent? }

    /** `_IGNORED_TAGS` */
    predicate IsIgnored() {
      Documentation? || ExtensionElements? || LaneSet? || IoSpecification? || Property? || DataObject? || DataObjectReference?
      || TextAnnotation? || Association? || Group?
    }
  }

  datatype Attribute = IdAttr | NameAttr | SourceRef | TargetRef | CalledElement | IsExecutable

  /** The text of an element; `Json` stands for a well-formed payload with these branch decisions. */
  datatype Content = NoText | Chars(text: string) | Json(decisions: map<Id, XorDecision>)

  datatype Element = Element(tag: Tag, attributes: map<Attribute, string>, content: Content, children: seq<Element>)

  // --- diagrams ------------------------------------------------------------------------------

  datatype Node = Node(id: Id, kind: NodeType, title: string)

  datatype Flow = Flow(source: Id, target: Id, condition: Option<string>)

  /** The part of a schema that is exchanged. Nodes and flows are kept in order. */
  datatype Diagram = Diagram(id: string, name: string, nodes: seq<Node>, flows: seq<Flow>, decisions: map<Id, XorDecision>)

  /** Node ids are the keys of a dictionary. */
  ghost predicate DistinctIds(nodes: seq<Node>) {
    forall i, j :: 0 <= i < j < |nodes| ==> nodes[i].id != nodes[j].id
  }

  // --- export ----------------------------------------------------------------------------------

  /** `_EXPORT_TAG` */
  function TagOf(t: NodeType): Tag {
    match t
    case START => StartEvent
    case END => EndEvent
    case ACTIVITY => Task
    case SUBPROCESS => CallActivity
    case AND_SPLIT => ParallelGateway
    case AND_JOIN => ParallelGateway
    case XOR_SPLIT => ExclusiveGateway
    case XOR_JOIN => ExclusiveGateway
  }

  function NodeElement(n: Node): Element {
    Element(TagOf(n.kind), if n.title != "" then map[IdAttr := n.id, NameAttr := n.title] else map[IdAttr := n.id], NoText, [])
  }

  function Digits(n: nat): string {
    if n < 10 then ["0123456789"[n]] else Digits(n / 10) + ["0123456789"[n % 10]]
  }

  function FlowElement(f: Flow, index: nat): Element {
    Element(SequenceFlow, map[IdAttr := "flow_" + Digits(index), SourceRef := f.source, TargetRef := f.target], NoText,
            if f.condition.Some? && f.condition.value != "" then [Element(ConditionExpression, map[], Chars(f.condition.value), [])] else [])
  }

  function NodeElements(nodes: seq<Node>): (r: seq<Element>)
    ensures |r| == |nodes|
  {
    if nodes == [] then [] else NodeElements(nodes[..|nodes| - 1]) + [NodeElement(nodes[|nodes| - 1])]
  }

  /** Flows are numbered from 1. */
  function FlowElements(flows: seq<Flow>): (r: seq<Element>)
    ensures |r| == |flows|
  {
    if flows == [] then [] else FlowElements(flows[..|flows| - 1]) + [FlowElement(flows[|flows| - 1], |flows|)]
  }

  function Extension(decisions: map<Id, XorDecision>): seq<Element> {
    if decisions == map[] then []
    else [Element(ExtensionElements, map[], NoText, [Element(ModelPayload, map[], Json(decisions), [])])]
  }

  function ProcessElement(d: Diagram): Element {
    Element(Process, map[IdAttr := d.id, NameAttr := d.name, IsExecutable := "true"], NoText,
            NodeElements(d.nodes) + FlowElements(d.flows) + Extension(d.decisions))
  }

  function Exported(d: Diagram): Element {
    Element(Definitions, map[], NoText, [ProcessElement(d)])
  }

  /** The element of a node: its tag by type, its id, and its title if it has one. */
  predicate NodeDrawn(n: Node, e: Element) {
    && e.content == NoText && e.children == []
    && e.attributes == (if n.title == "" then map[IdAttr := n.id] else map[IdAttr := n.id, NameAttr := n.title])
    && match n.kind
       case START => e.tag == StartEvent
       case END => e.tag == EndEvent
       case ACTIVITY => e.tag == Task
       case SUBPROCESS => e.tag == CallActivity
       case AND_SPLIT => e.tag == ParallelGateway
       case AND_JOIN => e.tag == ParallelGateway
       case XOR_SPLIT => e.tag == ExclusiveGateway
       case XOR_JOIN => e.tag == ExclusiveGateway
  }

  /** The element of a flow: its ends, and its condition as a child if there is one. */
  predicate FlowDrawn(f: Flow, e: Element) {
    && e.tag == SequenceFlow && e.content == NoText
    && SourceRef in e.attributes && e.attributes[SourceRef] == f.source && TargetRef in e.attributes && e.attributes[TargetRef] == f.target
    && e.children == if f.condition.None? || f.condition.value == "" then [] else [Element(ConditionExpression, map[], Chars(f.condition.value), [])]
  }

  /** The document of a diagram: its nodes, its flows and its decisions, in this order. */
  predicate Drawn(d: Diagram, root: Element) {
    && root.tag == Definitions && |root.children| == 1 && root.children[0].tag == Process
    && var process := root.children[0];
       && process.attributes == map[IdAttr := d.id, NameAttr := d.name, IsExecutable := "true"]
       && |process.children| == |d.nodes| + |d.flows| + (if d.decisions == map[] then 0 else 1)
       && (forall i :: 0 <= i < |d.nodes| ==> NodeDrawn(d.nodes[i], process.children[i]))
       && (forall i :: 0 <= i < |d.flows| ==> FlowDrawn(d.flows[i], process.children[|d.nodes| + i]))
       && (d.decisions != map[] ==>
             process.children[|d.nodes| + |d.flows|] == Element(ExtensionElements, map[], NoText, [Element(ModelPayload, map[], Json(d.decisions), [])]))
  }

  lemma ExportedIsDrawn(d: Diagram)
    ensures Drawn(d, Exported(d))
  {
    var children := ProcessElement(d).children;
    forall i | 0 <= i < |d.nodes| ensures NodeDrawn(d.nodes[i], children[i]) { NodeElementAt(d.nodes, i); }
    forall i | 0 <= i < |d.flows| ensures FlowDrawn(d.flows[i], children[|d.nodes| + i]) { FlowElementAt(d.flows, i); }
  }

  /** `export_bpmn` */
  method Export(d: Diagram) returns (root: Element)
    ensures root == Exported(d) && Drawn(d, root)
  {
    var children: seq<Element> := [];
    for i := 0 to |d.nodes|
      invariant children == NodeElements(d.nodes[..i])
    {
      assert d.nodes[..i + 1][..i] == d.nodes[..i];
      var attributes := map[IdAttr := d.nodes[i].id];
      if d.nodes[i].title != "" { attributes := attributes[NameAttr := d.nodes[i].title]; }
      children := children + [Element(TagOf(d.nodes[i].kind), attributes, NoText, [])];
    }
    assert d.nodes[..|d.nodes|] == d.nodes;
    for i := 0 to |d.flows|
      invariant children == NodeElements(d.nodes) + FlowElements(d.flows[..i])
    {
      assert d.flows[..i + 1][..i] == d.flows[..i];
      children := children + [FlowElement(d.flows[i], i + 1)];
    }
    assert d.flows[..|d.flows|] == d.flows;
    children := children + Extension(d.decisions);
    ExportedIsDrawn(d);
    root := Element(Definitions, map[], NoText,
                    [Element(Process, map[IdAttr := d.id, NameAttr := d.name, IsExecutable := "true"], NoText, children)]);
  }

  // --- import: reading the tree --------------------------------------------------------------------

  /** The first element with the tag, in document order, the element itself included. */
  function FirstTagged(e: Element, tag: Tag): Option<Element>
    decreases e, 1
  {
    if e.tag == tag then Some(e) else FirstAmong(e, tag, 0)
  }

  function FirstAmong(e: Element, tag: Tag, i: nat): Option<Element>
    requires i <= |e.children|
    decreases e, 0, |e.children| - i
  {
    if i == |e.children| then None
    else
      var first := FirstTagged(e.children[i], tag);
      if first.Some? then first else FirstAmong(e, tag, i + 1)
  }

  predicate IsSpace(c: char) {
    var k := c as int;
    || 9 <= k <= 13 || 28 <= k <= 32 || k == 0x85 || k == 0xa0 || k == 0x1680 || 0x2000 <= k <= 0x200a
    || k == 0x2028 || k == 0x2029 || k == 0x202f || k == 0x205f || k == 0x3000
  }

  /** `str.strip` */
  function Strip(s: string): string {
    if s == "" then ""
    else if IsSpace(s[0]) then Strip(s[1..])
    else if IsSpace(s[|s| - 1]) then Strip(s[..|s| - 1])
    else s
  }

  lemma OneInFront(s: string, before: string, mid: string, after: string)
    requires s != "" && s[1..] == before + mid + after
    ensures s == [s[0]] + before + mid + after
  {}

  lemma OneBehind(s: string, before: string, mid: string, after: string)
    requires s != "" && s[..|s| - 1] == before + mid + after
    ensures s == before + mid + (after + [s[|s| - 1]])
  {}

  /** What is left neither begins nor ends with white space, and what goes around it is white space. */
  lemma {:induction false} StripMeans(s: string) returns (before: string, after: string)
    ensures s == before + Strip(s) + after
    ensures (forall c :: c in before ==> IsSpace(c)) && (forall c :: c in after ==> IsSpace(c))
    ensures Strip(s) != "" ==> !IsSpace(Strip(s)[0]) && !IsSpace(Strip(s)[|Strip(s)| - 1])
    decreases |s|
  {
    before, after := "", "";
    if s != "" && IsSpace(s[0]) {
      before, after := StripMeans(s[1..]);
      OneInFront(s, before, Strip(s), after);
      before := [s[0]] + before;
    } else if s != "" && IsSpace(s[|s| - 1]) {
      before, after := StripMeans(s[..|s| - 1]);
      OneBehind(s, before, Strip(s), after);
      after := after + [s[|s| - 1]];
    }
  }

  function Attr(e: Element, a: Attribute): string {
    if a in e.attributes then e.attributes[a] else ""
  }

  /** `_condition_of`: the first condition expression, without surrounding white space. */
  function ConditionOf(children: seq<Element>): Option<string> {
    if children == [] then None
    else if children[0].tag.ConditionExpression? then
      var text := if children[0].content.Chars? then Strip(children[0].content.text) else "";
      if text == "" then None else Some(text)
    else ConditionOf(children[1..])
  }

  /** What the scan of the process element has read: flow nodes by id, in order, and flows. */
  datatype Raw = Raw(order: seq<Id>, nodes: map<Id, (Tag, string)>, flows: seq<Flow>)

  /** One child of the process element. */
  function ReadChild(raw: Raw, e: Element): Result<Raw> {
    if e.tag.SequenceFlow? then
      if Attr(e, SourceRef) == "" || Attr(e, TargetRef) == "" then Err(Unmappable)
      else Ok(raw.(flows := raw.flows + [Flow(Attr(e, SourceRef), Attr(e, TargetRef), ConditionOf(e.children))]))
    else if e.tag.IsFlowNode() then
      if Attr(e, IdAttr) == "" then Err(Unmappable)
      else Ok(raw.(order := if Attr(e, IdAttr) in raw.nodes then raw.order else raw.order + [Attr(e, IdAttr)],
                   nodes := raw.nodes[Attr(e, IdAttr) := (e.tag, Attr(e, NameAttr))]))
    else if e.tag.IsIgnored() then Ok(raw)
    else Err(Unmappable)
  }

  function Read(children: seq<Element>): Result<Raw> {
    if children == [] then Ok(Raw([], map[], []))
    else
      var before := Read(children[..|children| - 1]);
      if before.Err? then before else ReadChild(before.value, children[|children| - 1])
  }

  // --- import: building the diagram -------------------------------------------------------------------

  function Ins(flows: seq<Flow>, n: Id): nat {
    if flows == [] then 0 else Ins(flows[..|flows| - 1], n) + if flows[|flows| - 1].target == n then 1 else 0
  }

  function Outs(flows: seq<Flow>, n: Id): nat {
    if flows == [] then 0 else Outs(flows[..|flows| - 1], n) + if flows[|flows| - 1].source == n then 1 else 0
  }

  /** `_resolve_node_type` */
  function ResolveType(tag: Tag, ins: nat, outs: nat): Result<NodeType> {
    if tag.StartEvent? then Ok(START)
    else if tag.EndEvent? then Ok(END)
    else if tag.IsActivity() then Ok(ACTIVITY)
    else if outs >= 2 && ins <= 1 then Ok(if tag.ParallelGateway? then AND_SPLIT else XOR_SPLIT)
    else if ins >= 2 && outs <= 1 then Ok(if tag.ParallelGateway? then AND_JOIN else XOR_JOIN)
    else Err(Unmappable)
  }

  predicate FlowsKnown(raw: Raw) {
    forall f :: f in raw.flows ==> f.source in raw.nodes && f.target in raw.nodes
  }

  function BuildNodes(raw: Raw, order: seq<Id>): Result<seq<Node>>
    requires forall n :: n in order ==> n in raw.nodes
  {
    if order == [] then Ok([])
    else
      var before, n := BuildNodes(raw, order[..|order| - 1]), order[|order| - 1];
      var t := ResolveType(raw.nodes[n].0, Ins(raw.flows, n), Outs(raw.flows, n));
      if before.Err? then before else if t.Err? then Err(t.error) else Ok(before.value + [Node(n, t.value, raw.nodes[n].1)])
  }

  /** `_procworks_model_of`, as far as the branch decisions go. */
  function DecisionsOf(process: Element): Result<map<Id, XorDecision>> {
    var model := FirstTagged(process, ModelPayload);
    if model.None? then Ok(map[])
    else match model.value.content
      case NoText => Ok(map[])
      case Chars(text) => if Strip(text) == "" then Ok(map[]) else Err(Unmappable)
      case Json(decisions) => Ok(decisions)
  }

  lemma {:induction false} ReadNodesKnown(children: seq<Element>)
    requires Read(children).Ok?
    ensures forall n :: n in Read(children).value.order <==> n in Read(children).value.nodes
  {
    if children != [] { ReadNodesKnown(children[..|children| - 1]); }
  }

  function OrElse(a: string, b: string): string {
    if a != "" then a else b
  }

  /** The mapping of a document onto a diagram, before it is validated. */
  function Imported(root: Element): Result<Diagram> {
    var process := FirstTagged(root, Process);
    if process.None? then Err(Unmappable)
    else
      var raw := Read(process.value.children);
      if raw.Err? then Err(raw.error)
      else if !FlowsKnown(raw.value) then Err(Unmappable)
      else
        ReadNodesKnown(process.value.children);
        var nodes := BuildNodes(raw.value, raw.value.order);
        var decisions := DecisionsOf(process.value);
        if nodes.Err? then Err(nodes.error)
        else if decisions.Err? then Err(decisions.error)
        else Ok(Diagram(OrElse(Attr(process.value, IdAttr), "imported"), OrElse(Attr(process.value, NameAttr), "Imported"),
                        nodes.value, raw.value.flows, decisions.value))
  }

  // --- what a document of any origin maps to ---------------------------------------------------------------

  /** A flow node of the subset: an event, a gateway or one of the eight kinds of tasks. */
  predicate NodeTag(tag: Tag) {
    || tag in {StartEvent, EndEvent, ParallelGateway, ExclusiveGateway}
    || tag in {Task, UserTask, ServiceTask, ManualTask, ScriptTask, BusinessRuleTask, SendTask, ReceiveTask}
  }

  predicate SkippedTag(tag: Tag) {
    tag in {Documentation, ExtensionElements, LaneSet, IoSpecification, Property, DataObject, DataObjectReference, TextAnnotation, Association, Group}
  }

  /** A child the import can read: a flow with both ends, a flow node with an id, or something to skip. */
  predicate Readable(e: Element) {
    if e.tag == SequenceFlow then Attr(e, SourceRef) != "" && Attr(e, TargetRef) != ""
    else if NodeTag(e.tag) then Attr(e, IdAttr) != ""
    else SkippedTag(e.tag)
  }

  lemma ReadableIff(raw: Raw, e: Element)
    ensures ReadChild(raw, e).Ok? <==> Readable(e)
    ensures ReadChild(raw, e).Err? ==> ReadChild(raw, e) == Err(Unmappable)
  {}

  /** Reading succeeds exactly if every child can be read. */
  lemma {:induction false} ReadIff(children: seq<Element>)
    ensures Read(children).Ok? <==> forall e :: e in children ==> Readable(e)
  {
    if children != [] {
      var init, last := children[..|children| - 1], children[|children| - 1];
      assert children == init + [last];
      ReadIff(init);
      if Read(init).Ok? { ReadableIff(Read(init).value, last); }
    }
  }

  /** The last child that defines the node `n`. */
  predicate Defines(children: seq<Element>, i: nat, n: Id) {
    && i < |children| && NodeTag(children[i].tag) && Attr(children[i], IdAttr) == n
    && forall k :: i < k < |children| && NodeTag(children[k].tag) ==> Attr(children[k], IdAttr) != n
  }

  lemma DefinesMore(children: seq<Element>, i: nat, n: Id)
    requires children != [] && Defines(children[..|children| - 1], i, n)
    requires var last := children[|children| - 1]; NodeTag(last.tag) ==> Attr(last, IdAttr) != n
    ensures Defines(children, i, n)
  {}

  /** What was read about a node is what the last child with its id says. */
  lemma {:induction false} ReadNodeFrom(children: seq<Element>, n: Id) returns (i: nat)
    requires Read(children).Ok? && n in Read(children).value.nodes
    ensures Defines(children, i, n) && Read(children).value.nodes[n] == (children[i].tag, Attr(children[i], NameAttr))
  {
    var last := children[|children| - 1];
    if NodeTag(last.tag) && Attr(last, IdAttr) == n {
      i := |children| - 1;
    } else {
      i := ReadNodeFrom(children[..|children| - 1], n);
      DefinesMore(children, i, n);
    }
  }

  /** Every child that defines a node has been read. */
  lemma {:induction false} NodeIsRead(children: seq<Element>, e: Element)
    requires Read(children).Ok? && e in children && NodeTag(e.tag)
    ensures Attr(e, IdAttr) in Read(children).value.nodes
  {
    var init, last := children[..|children| - 1], children[|children| - 1];
    assert children == init + [last];
    if e in init { NodeIsRead(init, e); }
  }

  /** The children that are flows, in order. */
  function FlowsAmong(children: seq<Element>): seq<Element> {
    if children == [] then []
    else FlowsAmong(children[..|children| - 1]) + if children[|children| - 1].tag == SequenceFlow then [children[|children| - 1]] else []
  }

  lemma {:induction false} FlowsInOrder(children: seq<Element>)
    requires Read(children).Ok?
    ensures var flows := Read(children).value.flows;
            && |flows| == |FlowsAmong(children)|
            && forall i :: 0 <= i < |flows| ==>
                 var e := FlowsAmong(children)[i];
                 flows[i].source == Attr(e, SourceRef) && flows[i].target == Attr(e, TargetRef)
  {
    if children != [] { FlowsInOrder(children[..|children| - 1]); }
  }

  /** The type a flow node gets: by its tag, and for a gateway by the flows into it and out of it. */
  predicate TypedByTag(tag: Tag, ins: nat, outs: nat, kind: NodeType) {
    match kind
    case START => tag == StartEvent
    case END => tag == EndEvent
    case ACTIVITY => tag in {Task, UserTask, ServiceTask, ManualTask, ScriptTask, BusinessRuleTask, SendTask, ReceiveTask}
    case SUBPROCESS => false
    case AND_SPLIT => tag == ParallelGateway && outs >= 2 && ins <= 1
    case XOR_SPLIT => tag == ExclusiveGateway && outs >= 2 && ins <= 1
    case AND_JOIN => tag == ParallelGateway && ins >= 2 && outs <= 1
    case XOR_JOIN => tag == ExclusiveGateway && ins >= 2 && outs <= 1
  }

  lemma TypedIff(tag: Tag, ins: nat, outs: nat)
    requires NodeTag(tag)
    ensures ResolveType(tag, ins, outs).Ok? ==> TypedByTag(tag, ins, outs, ResolveType(tag, ins, outs).value)
    ensures ResolveType(tag, ins, outs).Err? ==> forall kind :: !TypedByTag(tag, ins, outs, kind)
  {}

  lemma {:induction false} BuiltAt(raw: Raw, order: seq<Id>, k: nat)
    requires (forall n :: n in order ==> n in raw.nodes) && BuildNodes(raw, order).Ok? && k < |order|
    ensures |BuildNodes(raw, order).value| == |order|
    ensures var n := BuildNodes(raw, order).value[k];
            && n.id == order[k] && n.title == raw.nodes[n.id].1
            && ResolveType(raw.nodes[n.id].0, Ins(raw.flows, n.id), Outs(raw.flows, n.id)) == Ok(n.kind)
  {
    BuiltLength(raw, order);
    if k < |order| - 1 { BuiltAt(raw, order[..|order| - 1], k); }
  }

  lemma {:induction false} BuiltLength(raw: Raw, order: seq<Id>)
    requires (forall n :: n in order ==> n in raw.nodes) && BuildNodes(raw, order).Ok?
    ensures |BuildNodes(raw, order).value| == |order|
  {
    if order != [] { BuiltLength(raw, order[..|order| - 1]); }
  }

  /** What a mapped document says about the node `n` of the diagram. */
  ghost predicate NodeStems(children: seq<Element>, flows: seq<Flow>, n: Node) {
    exists i: nat :: && Defines(children, i, n.id) && n.title == Attr(children[i], NameAttr)
                && TypedByTag(children[i].tag, Ins(flows, n.id), Outs(flows, n.id), n.kind)
  }

  /**
   The mapping of any document: its first process has readable children only; every node of the diagram
   stems from the last child with its id and every such child is a node; the flows are its flows, in order.
   */
  lemma ImportedMeans(root: Element, d: Diagram)
    requires Imported(root) == Ok(d)
    ensures FirstTagged(root, Process).Some?
    ensures var children := FirstTagged(root, Process).value.children;
            && (forall e :: e in children ==> Readable(e))
            && (forall n :: n in d.nodes ==> NodeStems(children, d.flows, n))
            && (forall e :: e in children && NodeTag(e.tag) ==> exists n :: n in d.nodes && n.id == Attr(e, IdAttr))
            && |d.flows| == |FlowsAmong(children)|
            && (forall i :: 0 <= i < |d.flows| ==>
                  d.flows[i].source == Attr(FlowsAmong(children)[i], SourceRef) && d.flows[i].target == Attr(FlowsAmong(children)[i], TargetRef))
  {
    var children := FirstTagged(root, Process).value.children;
    var raw := Read(children).value;
    ReadIff(children);
    ReadNodesKnown(children);
    FlowsInOrder(children);
    BuiltLength(raw, raw.order);
    forall n | n in d.nodes ensures NodeStems(children, d.flows, n) {
      var k :| 0 <= k < |d.nodes| && d.nodes[k] == n;
      NodeStemsAt(children, raw, d.nodes, k);
    }
    forall e | e in children && NodeTag(e.tag) ensures exists n :: n in d.nodes && n.id == Attr(e, IdAttr) {
      NodeIsRead(children, e);
      var k :| 0 <= k < |raw.order| && raw.order[k] == Attr(e, IdAttr);
      BuiltAt(raw, raw.order, k);
      assert d.nodes[k] in d.nodes;
    }
  }

  lemma NodeStemsAt(children: seq<Element>, raw: Raw, nodes: seq<Node>, k: nat)
    requires Read(children) == Ok(raw) && (forall n :: n in raw.order <==> n in raw.nodes) && BuildNodes(raw, raw.order) == Ok(nodes)
    requires k < |raw.order|
    ensures |nodes| == |raw.order| && NodeStems(children, raw.flows, nodes[k])
  {
    BuiltAt(raw, raw.order, k);
    var n := nodes[k];
    var i := ReadNodeFrom(children, n.id);
    TypedIff(children[i].tag, Ins(raw.flows, n.id), Outs(raw.flows, n.id));
  }

  /** A document with anything else in its process is refused. */
  lemma UnsupportedRefused(root: Element, e: Element)
    requires FirstTagged(root, Process).Some? && e in FirstTagged(root, Process).value.children && !Readable(e)
    ensures Imported(root).Err?
  {
    ReadIff(FirstTagged(root, Process).value.children);
  }

  // --- what comes back from an exported diagram -----------------------------------------------------------

  function IdsOf(nodes: seq<Node>): seq<Id> {
    if nodes == [] then [] else IdsOf(nodes[..|nodes| - 1]) + [nodes[|nodes| - 1].id]
  }

  function RawNodes(nodes: seq<Node>): map<Id, (Tag, string)> {
    if nodes == [] then map[] else RawNodes(nodes[..|nodes| - 1])[nodes[|nodes| - 1].id := (TagOf(nodes[|nodes| - 1].kind), nodes[|nodes| - 1].title)]
  }

  /** The condition a flow has after the round trip. */
  function Restored(condition: Option<string>): Option<string> {
    if condition.None? || Strip(condition.value) == "" then None else Some(Strip(condition.value))
  }

  function RestoredFlows(flows: seq<Flow>): (r: seq<Flow>)
    ensures |r| == |flows|
    ensures forall i :: 0 <= i < |flows| ==> r[i] == flows[i].(condition := Restored(flows[i].condition))
  {
    if flows == [] then []
    else RestoredFlows(flows[..|flows| - 1]) + [flows[|flows| - 1].(condition := Restored(flows[|flows| - 1].condition))]
  }

  predicate NodeReadable(n: Node) { n.kind != SUBPROCESS && n.id != "" }

  predicate FlowReadable(f: Flow) { f.source != "" && f.target != "" }

  lemma ReadAppend(children: seq<Element>, e: Element)
    ensures Read(children + [e]) == if Read(children).Err? then Read(children) else ReadChild(Read(children).value, e)
  {
    assert (children + [e])[..|children|] == children;
  }

  lemma ReadNode(raw: Raw, n: Node)
    ensures ReadChild(raw, NodeElement(n)).Ok? <==> NodeReadable(n)
    ensures NodeReadable(n) && n.id !in raw.nodes ==>
              ReadChild(raw, NodeElement(n)) == Ok(Raw(raw.order + [n.id], raw.nodes[n.id := (TagOf(n.kind), n.title)], raw.flows))
    ensures !NodeReadable(n) ==> ReadChild(raw, NodeElement(n)) == Err(Unmappable)
  {
    var e := NodeElement(n);
    assert Attr(e, IdAttr) == n.id && Attr(e, NameAttr) == n.title;
  }

  lemma ReadFlow(raw: Raw, f: Flow, k: nat)
    ensures ReadChild(raw, FlowElement(f, k))
         == if FlowReadable(f) then Ok(raw.(flows := raw.flows + [f.(condition := Restored(f.condition))])) else Err(Unmappable)
  {
    var e := FlowElement(f, k);
    assert Attr(e, SourceRef) == f.source && Attr(e, TargetRef) == f.target;
    assert ConditionOf(e.children) == Restored(f.condition);
  }

  lemma {:induction false} RawKeys(nodes: seq<Node>, n: Id)
    ensures n in RawNodes(nodes) <==> n in IdsOf(nodes)
    ensures n in RawNodes(nodes) <==> exists i :: 0 <= i < |nodes| && nodes[i].id == n
  {
    if nodes != [] { RawKeys(nodes[..|nodes| - 1], n); }
  }

  lemma {:induction false} RawAt(nodes: seq<Node>, i: nat)
    requires DistinctIds(nodes) && i < |nodes|
    ensures nodes[i].id in RawNodes(nodes) && RawNodes(nodes)[nodes[i].id] == (TagOf(nodes[i].kind), nodes[i].title)
  {
    if i < |nodes| - 1 { RawAt(nodes[..|nodes| - 1], i); }
  }

  lemma RawNodesAre(nodes: seq<Node>)
    requires DistinctIds(nodes)
    ensures forall n :: n in RawNodes(nodes) <==> n in IdsOf(nodes)
    ensures forall n :: n in RawNodes(nodes) <==> exists i :: 0 <= i < |nodes| && nodes[i].id == n
    ensures forall i :: 0 <= i < |nodes| ==> nodes[i].id in RawNodes(nodes) && RawNodes(nodes)[nodes[i].id] == (TagOf(nodes[i].kind), nodes[i].title)
  {
    forall n { RawKeys(nodes, n); }
    forall i | 0 <= i < |nodes| ensures nodes[i].id in RawNodes(nodes) && RawNodes(nodes)[nodes[i].id] == (TagOf(nodes[i].kind), nodes[i].title) {
      RawAt(nodes, i);
    }
  }

  predicate NodesReadable(nodes: seq<Node>) {
    nodes != [] ==> NodesReadable(nodes[..|nodes| - 1]) && NodeReadable(nodes[|nodes| - 1])
  }

  predicate FlowsReadable(flows: seq<Flow>) {
    flows != [] ==> FlowsReadable(flows[..|flows| - 1]) && FlowReadable(flows[|flows| - 1])
  }

  lemma {:induction false} NodesReadableIff(nodes: seq<Node>)
    ensures NodesReadable(nodes) <==> forall n :: n in nodes ==> NodeReadable(n)
  {
    if nodes != [] {
      NodesReadableIff(nodes[..|nodes| - 1]);
      assert nodes == nodes[..|nodes| - 1] + [nodes[|nodes| - 1]];
    }
  }

  lemma {:induction false} FlowsReadableIff(flows: seq<Flow>)
    ensures FlowsReadable(flows) <==> forall f :: f in flows ==> FlowReadable(f)
  {
    if flows != [] {
      FlowsReadableIff(flows[..|flows| - 1]);
      assert flows == flows[..|flows| - 1] + [flows[|flows| - 1]];
    }
  }

  function NodesRead(nodes: seq<Node>): Result<Raw> {
    if NodesReadable(nodes) then Ok(Raw(IdsOf(nodes), RawNodes(nodes), [])) else Err(Unmappable)
  }

  /** Reading the exported flow nodes. */
  lemma {:induction false} ReadNodes(nodes: seq<Node>)
    requires DistinctIds(nodes)
    ensures Read(NodeElements(nodes)) == NodesRead(nodes)
  {
    if nodes != [] {
      var init, last := nodes[..|nodes| - 1], nodes[|nodes| - 1];
      ReadNodes(init);
      ReadAppend(NodeElements(init), NodeElement(last));
      RawNodesAre(init);
      assert last.id !in RawNodes(init);
      ReadNode(Raw(IdsOf(init), RawNodes(init), []), last);
    }
  }

  function FlowsRead(raw: Raw, flows: seq<Flow>): Result<Raw> {
    if FlowsReadable(flows) then Ok(raw.(flows := RestoredFlows(flows))) else Err(Unmappable)
  }

  /** Reading the exported flows behind them. */
  lemma {:induction false} ReadFlows(before: seq<Element>, raw: Raw, flows: seq<Flow>)
    requires Read(before) == Ok(raw) && raw.flows == []
    ensures Read(before + FlowElements(flows)) == FlowsRead(raw, flows)
  {
    if flows == [] {
      assert before + FlowElements(flows) == before;
    } else {
      var init, last := flows[..|flows| - 1], flows[|flows| - 1];
      ReadFlows(before, raw, init);
      MoreElements(before, FlowElements(init), FlowElement(last, |flows|), FlowElements(flows));
      ReadAppend(before + FlowElements(init), FlowElement(last, |flows|));
      ReadFlow(raw.(flows := RestoredFlows(init)), last, |flows|);
    }
  }

  lemma MoreElements(before: seq<Element>, init: seq<Element>, last: Element, all: seq<Element>)
    requires all == init + [last]
    ensures before + all == (before + init) + [last]
  {}

  lemma {:induction false} ReadErr(a: seq<Element>, b: seq<Element>)
    requires Read(a).Err?
    ensures Read(a + b) == Read(a)
  {
    if b == [] {
      assert a + b == a;
    } else {
      ReadErr(a, b[..|b| - 1]);
      assert a + b == (a + b[..|b| - 1]) + [b[|b| - 1]];
      ReadAppend(a + b[..|b| - 1], b[|b| - 1]);
    }
  }

  /** What reading the exported process element gives. */
  function AllRead(d: Diagram): Result<Raw> {
    if NodesReadable(d.nodes) && FlowsReadable(d.flows) then Ok(Raw(IdsOf(d.nodes), RawNodes(d.nodes), RestoredFlows(d.flows)))
    else Err(Unmappable)
  }

  lemma ReadExported(d: Diagram)
    requires DistinctIds(d.nodes)
    ensures Read(ProcessElement(d).children) == AllRead(d)
  {
    var nodes, flows, extension := NodeElements(d.nodes), FlowElements(d.flows), Extension(d.decisions);
    ReadNodes(d.nodes);
    if NodesReadable(d.nodes) {
      ReadFlows(nodes, Raw(IdsOf(d.nodes), RawNodes(d.nodes), []), d.flows);
      ReadExtension(nodes + flows, d.decisions);
    } else {
      Associates(nodes, flows, extension);
      ReadErr(nodes, flows + extension);
    }
  }

  lemma Associates(a: seq<Element>, b: seq<Element>, c: seq<Element>)
    ensures a + b + c == a + (b + c)
  {}

  /** The extension element is skipped. */
  lemma ReadExtension(before: seq<Element>, decisions: map<Id, XorDecision>)
    ensures Read(before + Extension(decisions)) == Read(before)
  {
    if decisions == map[] {
      assert before + [] == before;
    } else {
      var e := Element(ExtensionElements, map[], NoText, [Element(ModelPayload, map[], Json(decisions), [])]);
      ReadAppend(before, e);
      if Read(before).Ok? { ReadIgnored(Read(before).value, e); }
    }
  }

  lemma ReadIgnored(raw: Raw, e: Element)
    requires e.tag.IsIgnored()
    ensures ReadChild(raw, e) == Ok(raw)
  {}

  // --- the round trip ------------------------------------------------------------------------------------

  /** The degrees tell the import the right role of a gateway; every other node has its own tag. */
  predicate Fits(flows: seq<Flow>, n: Node) {
    var ins, outs := Ins(flows, n.id), Outs(flows, n.id);
    match n.kind
    case SUBPROCESS => false
    case AND_SPLIT => outs >= 2 && ins <= 1
    case XOR_SPLIT => outs >= 2 && ins <= 1
    case AND_JOIN => ins >= 2 && outs <= 1
    case XOR_JOIN => ins >= 2 && outs <= 1
    case _ => true
  }

  lemma FitsIff(flows: seq<Flow>, n: Node)
    requires n.kind != SUBPROCESS
    ensures Fits(flows, n) <==> ResolveType(TagOf(n.kind), Ins(flows, n.id), Outs(flows, n.id)) == Ok(n.kind)
  {}

  /** A condition without surrounding white space; an empty one is as good as none and not written. */
  predicate ConditionKept(condition: Option<string>) {
    condition.Some? ==> condition.value != "" && Strip(condition.value) == condition.value
  }

  /** What a diagram needs to survive the round trip. */
  ghost predicate Exchangeable(d: Diagram) {
    && d.id != "" && d.name != ""
    && (forall n :: n in d.nodes ==> NodeReadable(n) && Fits(d.flows, n))
    && (forall f :: f in d.flows ==> f.source in IdsOf(d.nodes) && f.target in IdsOf(d.nodes) && ConditionKept(f.condition))
  }

  lemma {:induction false} SameDegrees(flows: seq<Flow>, n: Id)
    ensures Ins(RestoredFlows(flows), n) == Ins(flows, n) && Outs(RestoredFlows(flows), n) == Outs(flows, n)
  {
    if flows != [] {
      SameDegrees(flows[..|flows| - 1], n);
      var restored := RestoredFlows(flows);
      assert restored[..|flows| - 1] == RestoredFlows(flows[..|flows| - 1]);
    }
  }

  lemma RestoredIff(flows: seq<Flow>)
    ensures RestoredFlows(flows) == flows <==> forall f :: f in flows ==> ConditionKept(f.condition)
  {
    var restored := RestoredFlows(flows);
    forall i | 0 <= i < |flows| ensures restored[i] == flows[i] <==> ConditionKept(flows[i].condition) { KeptIff(flows[i].condition); }
    if restored == flows {
      forall f | f in flows ensures ConditionKept(f.condition) { var i :| 0 <= i < |flows| && flows[i] == f; assert restored[i] == flows[i]; }
    }
  }

  lemma KeptIff(condition: Option<string>)
    ensures Restored(condition) == condition <==> ConditionKept(condition)
  {}

  predicate TypesFit(flows: seq<Flow>, nodes: seq<Node>) {
    nodes != [] ==> TypesFit(flows, nodes[..|nodes| - 1]) && Fits(flows, nodes[|nodes| - 1])
  }

  lemma {:induction false} TypesFitIff(flows: seq<Flow>, nodes: seq<Node>)
    ensures TypesFit(flows, nodes) <==> forall n :: n in nodes ==> Fits(flows, n)
  {
    if nodes != [] {
      TypesFitIff(flows, nodes[..|nodes| - 1]);
      assert nodes == nodes[..|nodes| - 1] + [nodes[|nodes| - 1]];
    }
  }

  /** The raw data of a list of nodes. */
  ghost predicate Holds(raw: Raw, nodes: seq<Node>) {
    forall n :: n in nodes ==> n.id in raw.nodes && raw.nodes[n.id] == (TagOf(n.kind), n.title) && n.kind != SUBPROCESS
  }

  lemma {:induction false} IdIn(nodes: seq<Node>, id: Id)
    ensures id in IdsOf(nodes) <==> exists i :: 0 <= i < |nodes| && nodes[i].id == id
  {
    if nodes != [] { IdIn(nodes[..|nodes| - 1], id); }
  }

  lemma HeldIds(raw: Raw, nodes: seq<Node>)
    requires Holds(raw, nodes)
    ensures forall id :: id in IdsOf(nodes) ==> id in raw.nodes
  {
    forall id | id in IdsOf(nodes) ensures id in raw.nodes {
      IdIn(nodes, id);
      var i :| 0 <= i < |nodes| && nodes[i].id == id;
      assert nodes[i] in nodes;
    }
  }

  /** The nodes come back exactly if all their types fit. */
  lemma {:induction false} BuildIff(raw: Raw, nodes: seq<Node>)
    requires Holds(raw, nodes)
    ensures forall id :: id in IdsOf(nodes) ==> id in raw.nodes
    ensures BuildNodes(raw, IdsOf(nodes)) == Ok(nodes) <==> TypesFit(raw.flows, nodes)
  {
    HeldIds(raw, nodes);
    if nodes != [] {
      var init, last := nodes[..|nodes| - 1], nodes[|nodes| - 1];
      assert nodes == init + [last] && last in nodes;
      BuildIff(raw, init);
      FitsIff(raw.flows, last);
      BuildLast(raw, init, last);
    }
  }

  lemma BuildLast(raw: Raw, init: seq<Node>, last: Node)
    requires last.id in raw.nodes && raw.nodes[last.id] == (TagOf(last.kind), last.title)
    requires forall id :: id in IdsOf(init) ==> id in raw.nodes
    ensures var t := ResolveType(TagOf(last.kind), Ins(raw.flows, last.id), Outs(raw.flows, last.id));
            BuildNodes(raw, IdsOf(init) + [last.id]) == Ok(init + [last]) <==>
            BuildNodes(raw, IdsOf(init)) == Ok(init) && t == Ok(last.kind)
  {
    var order := IdsOf(init) + [last.id];
    assert order[..|order| - 1] == IdsOf(init);
    var before := BuildNodes(raw, IdsOf(init));
    var t := ResolveType(TagOf(last.kind), Ins(raw.flows, last.id), Outs(raw.flows, last.id));
    if before.Ok? && t.Ok? {
      var x := Node(last.id, t.value, last.title);
      assert BuildNodes(raw, order) == Ok(before.value + [x]);
      if before.value + [x] == init + [last] { LastsEqual(before.value, x, init, last); }
    }
  }

  lemma LastsEqual(a: seq<Node>, x: Node, b: seq<Node>, y: Node)
    requires a + [x] == b + [y]
    ensures a == b && x == y
  {
    assert |a| == |b|;
    assert (a + [x])[..|a|] == a && (b + [y])[..|b|] == b;
    assert (a + [x])[|a|] == x && (b + [y])[|b|] == y;
  }

  // --- finding elements ---------------------------------------------------------------------------------------

  lemma {:induction false} Skips(e: Element, tag: Tag, i: nat, k: nat)
    requires i <= k <= |e.children| && forall m :: i <= m < k ==> FirstTagged(e.children[m], tag).None?
    ensures FirstAmong(e, tag, i) == FirstAmong(e, tag, k)
    decreases k - i
  {
    if i < k { Skips(e, tag, i + 1, k); }
  }

  lemma ProcessFound(d: Diagram)
    ensures FirstTagged(Exported(d), Process) == Some(ProcessElement(d))
  {
    var root := Exported(d);
    assert FirstTagged(root.children[0], Process) == Some(ProcessElement(d));
    assert FirstAmong(root, Process, 0) == Some(ProcessElement(d));
  }

  lemma {:induction false} NodeElementAt(nodes: seq<Node>, i: nat)
    requires i < |nodes|
    ensures NodeElements(nodes)[i] == NodeElement(nodes[i])
  {
    if i < |nodes| - 1 { NodeElementAt(nodes[..|nodes| - 1], i); }
  }

  lemma {:induction false} FlowElementAt(flows: seq<Flow>, i: nat)
    requires i < |flows|
    ensures FlowElements(flows)[i] == FlowElement(flows[i], i + 1)
  {
    if i < |flows| - 1 { FlowElementAt(flows[..|flows| - 1], i); }
  }

  lemma NoPayload(e: Element)
    requires (exists n :: e == NodeElement(n)) || (exists f, k :: e == FlowElement(f, k))
    ensures FirstTagged(e, ModelPayload).None?
  {
    if |e.children| == 1 {
      var c := e.children[0];
      assert c.tag.ConditionExpression? && c.children == [];
      assert FirstAmong(c, ModelPayload, 0) == None;
      assert FirstTagged(c, ModelPayload) == None;
      assert FirstAmong(e, ModelPayload, 1) == None;
    }
    assert FirstAmong(e, ModelPayload, 0) == None;
  }

  lemma DecisionsFound(d: Diagram)
    ensures DecisionsOf(ProcessElement(d)) == Ok(d.decisions)
  {
    var process := ProcessElement(d);
    var k := |d.nodes| + |d.flows|;
    forall m | 0 <= m < k ensures FirstTagged(process.children[m], ModelPayload).None? {
      if m < |d.nodes| {
        NodeElementAt(d.nodes, m);
        assert process.children[m] == NodeElement(d.nodes[m]);
      } else {
        FlowElementAt(d.flows, m - |d.nodes|);
        assert process.children[m] == FlowElement(d.flows[m - |d.nodes|], m - |d.nodes| + 1);
      }
      NoPayload(process.children[m]);
    }
    Skips(process, ModelPayload, 0, k);
    PayloadFound(process, d.decisions, k);
  }

  lemma PayloadFound(process: Element, decisions: map<Id, XorDecision>, k: nat)
    requires process.tag.Process? && k <= |process.children| && process.children[k..] == Extension(decisions)
    requires FirstAmong(process, ModelPayload, 0) == FirstAmong(process, ModelPayload, k)
    ensures DecisionsOf(process) == Ok(decisions)
  {
    if decisions != map[] {
      var extension, payload := process.children[k..][0], Element(ModelPayload, map[], Json(decisions), []);
      assert process.children[k] == extension && extension.children == [payload];
      assert FirstTagged(payload, ModelPayload) == Some(payload);
      assert FirstAmong(extension, ModelPayload, 0) == Some(payload);
      assert FirstTagged(extension, ModelPayload) == Some(payload);
      assert FirstAmong(process, ModelPayload, k) == Some(payload);
    }
  }

  // --- the theorem ----------------------------------------------------------------------------------------------

  function RawOf(d: Diagram): Raw {
    Raw(IdsOf(d.nodes), RawNodes(d.nodes), RestoredFlows(d.flows))
  }

  ghost predicate EndsAreNodes(d: Diagram) {
    forall f :: f in d.flows ==> f.source in IdsOf(d.nodes) && f.target in IdsOf(d.nodes)
  }

  lemma KnownIff(d: Diagram)
    requires DistinctIds(d.nodes)
    ensures FlowsKnown(RawOf(d)) <==> EndsAreNodes(d)
  {
    RawNodesAre(d.nodes);
    var restored := RestoredFlows(d.flows);
    if FlowsKnown(RawOf(d)) {
      forall f | f in d.flows ensures f.source in IdsOf(d.nodes) && f.target in IdsOf(d.nodes) {
        var i :| 0 <= i < |d.flows| && d.flows[i] == f;
        assert restored[i] in restored;
      }
    }
  }

  lemma RawHolds(d: Diagram)
    requires DistinctIds(d.nodes) && NodesReadable(d.nodes)
    ensures Holds(RawOf(d), d.nodes)
  {
    RawNodesAre(d.nodes);
    NodesReadableIff(d.nodes);
  }

  /** The nodes come back exactly if the original degrees fit. */
  lemma NodesBackIff(d: Diagram)
    requires DistinctIds(d.nodes) && NodesReadable(d.nodes)
    ensures forall id :: id in IdsOf(d.nodes) ==> id in RawOf(d).nodes
    ensures BuildNodes(RawOf(d), IdsOf(d.nodes)) == Ok(d.nodes) <==> forall n :: n in d.nodes ==> Fits(d.flows, n)
  {
    RawHolds(d);
    BuildIff(RawOf(d), d.nodes);
    TypesFitIff(RestoredFlows(d.flows), d.nodes);
    forall n | n in d.nodes ensures Fits(RestoredFlows(d.flows), n) <==> Fits(d.flows, n) { SameDegrees(d.flows, n.id); }
  }

  lemma EndsReadable(d: Diagram)
    requires NodesReadable(d.nodes) && EndsAreNodes(d)
    ensures FlowsReadable(d.flows)
  {
    NodesReadableIff(d.nodes);
    FlowsReadableIff(d.flows);
    forall f | f in d.flows ensures FlowReadable(f) {
      IdIn(d.nodes, f.source);
      IdIn(d.nodes, f.target);
      var i :| 0 <= i < |d.nodes| && d.nodes[i].id == f.source;
      var j :| 0 <= j < |d.nodes| && d.nodes[j].id == f.target;
      assert d.nodes[i] in d.nodes && d.nodes[j] in d.nodes;
    }
  }

  /** A diagram that came back with the given nodes. */
  function WithNodes(d: Diagram, nodes: seq<Node>): Diagram {
    Diagram(OrElse(d.id, "imported"), OrElse(d.name, "Imported"), nodes, RestoredFlows(d.flows), d.decisions)
  }

  /** The import of an exported diagram, in closed form. */
  lemma ImportedOf(d: Diagram)
    requires DistinctIds(d.nodes)
    ensures forall id :: id in IdsOf(d.nodes) ==> id in RawOf(d).nodes
    ensures !NodesReadable(d.nodes) || !EndsAreNodes(d) ==> Imported(Exported(d)).Err?
    ensures NodesReadable(d.nodes) && EndsAreNodes(d) ==>
              var back := BuildNodes(RawOf(d), IdsOf(d.nodes));
              if back.Err? then Imported(Exported(d)).Err? else Imported(Exported(d)) == Ok(WithNodes(d, back.value))
  {
    RawNodesAre(d.nodes);
    ProcessFound(d);
    ReadExported(d);
    KnownIff(d);
    DecisionsFound(d);
    assert Attr(ProcessElement(d), IdAttr) == d.id && Attr(ProcessElement(d), NameAttr) == d.name;
    if NodesReadable(d.nodes) && EndsAreNodes(d) { EndsReadable(d); }
  }

  /**
   Importing an exported diagram gives back every node with its id, type and title and every flow
   with its condition, in order, exactly if there is no SUBPROCESS, ids and conditions are not
   empty, conditions have no outer white space, and every gateway's degrees show its role.
   */
  lemma RoundTripIff(d: Diagram)
    requires DistinctIds(d.nodes)
    ensures Imported(Exported(d)) == Ok(d) <==> Exchangeable(d)
  {
    ImportedOf(d);
    ExchangeableIff(d);
    if NodesReadable(d.nodes) && EndsAreNodes(d) {
      var back := BuildNodes(RawOf(d), IdsOf(d.nodes));
      NodesBackIff(d);
      if back.Ok? { WithNodesIff(d, back.value); }
    }
  }

  lemma ExchangeableIff(d: Diagram)
    ensures Exchangeable(d) <==>
            && NodesReadable(d.nodes) && EndsAreNodes(d) && (forall n :: n in d.nodes ==> Fits(d.flows, n))
            && d.id != "" && d.name != "" && (forall f :: f in d.flows ==> ConditionKept(f.condition))
  {
    NodesReadableIff(d.nodes);
  }

  lemma WithNodesIff(d: Diagram, nodes: seq<Node>)
    ensures WithNodes(d, nodes) == d <==>
            nodes == d.nodes && d.id != "" && d.name != "" && (forall f :: f in d.flows ==> ConditionKept(f.condition))
  {
    RestoredIff(d.flows);
    assert OrElse(d.id, "imported") == d.id <==> d.id != "" by { assert |"imported"| == 8; }
    assert OrElse(d.name, "Imported") == d.name <==> d.name != "" by { assert |"Imported"| == 8; }
  }

  /** A document with a call activity is refused, so a schema with a SUBPROCESS does not come back. */
  lemma SubprocessRefused(d: Diagram, n: Node)
    requires DistinctIds(d.nodes) && n in d.nodes && n.kind.SUBPROCESS?
    ensures Imported(Exported(d)).Err?
  {
    ImportedOf(d);
    NodesReadableIff(d.nodes);
  }

  // --- validated imports -------------------------------------------------------------------------------------------

  function EdgesOf(flows: seq<Flow>): seq<Edge> {
    if flows == [] then [] else EdgesOf(flows[..|flows| - 1]) + [Edge(flows[|flows| - 1].source, flows[|flows| - 1].target)]
  }

  function TypesOf(nodes: seq<Node>): map<Id, NodeType> {
    if nodes == [] then map[] else TypesOf(nodes[..|nodes| - 1])[nodes[|nodes| - 1].id := nodes[|nodes| - 1].kind]
  }

  /** The schema of a diagram; imported schemas start as drafts. */
  function SchemaOf(d: Diagram): Schema {
    Schema(ENTWURF, 1, TypesOf(d.nodes), EdgesOf(d.flows), d.decisions)
  }

  /** The schema has the nodes of the diagram with their types, and its flows as edges, in order. */
  lemma SchemaMeans(d: Diagram)
    requires DistinctIds(d.nodes)
    ensures forall n :: n in SchemaOf(d).nodes <==> exists i :: 0 <= i < |d.nodes| && d.nodes[i].id == n
    ensures forall i :: 0 <= i < |d.nodes| ==> d.nodes[i].id in SchemaOf(d).nodes && SchemaOf(d).nodes[d.nodes[i].id] == d.nodes[i].kind
    ensures |SchemaOf(d).edges| == |d.flows|
    ensures forall i :: 0 <= i < |d.flows| ==> SchemaOf(d).edges[i] == Edge(d.flows[i].source, d.flows[i].target)
    ensures SchemaOf(d).decisions == d.decisions && SchemaOf(d).lifecycle == ENTWURF && SchemaOf(d).version == 1
  {
    forall n ensures n in SchemaOf(d).nodes <==> exists i :: 0 <= i < |d.nodes| && d.nodes[i].id == n { TypedIds(d.nodes, n); }
    forall i | 0 <= i < |d.nodes| ensures d.nodes[i].id in TypesOf(d.nodes) && TypesOf(d.nodes)[d.nodes[i].id] == d.nodes[i].kind { TypeIn(d.nodes, i); }
    EdgesInOrder(d.flows);
  }

  lemma {:induction false} TypedIds(nodes: seq<Node>, n: Id)
    ensures n in TypesOf(nodes) <==> exists i :: 0 <= i < |nodes| && nodes[i].id == n
  {
    if nodes != [] { TypedIds(nodes[..|nodes| - 1], n); }
  }

  lemma {:induction false} EdgesInOrder(flows: seq<Flow>)
    ensures |EdgesOf(flows)| == |flows| && forall i :: 0 <= i < |flows| ==> EdgesOf(flows)[i] == Edge(flows[i].source, flows[i].target)
  {
    if flows != [] { EdgesInOrder(flows[..|flows| - 1]); }
  }

  lemma {:induction false} DegreesAre(flows: seq<Flow>, n: Id)
    ensures |Incoming(EdgesOf(flows), n)| == Ins(flows, n) && |Outgoing(EdgesOf(flows), n)| == Outs(flows, n)
  {
    if flows != [] {
      var init, last := EdgesOf(flows[..|flows| - 1]), Edge(flows[|flows| - 1].source, flows[|flows| - 1].target);
      DegreesAre(flows[..|flows| - 1], n);
      IncomingConcat(init, [last], n);
      OutgoingConcat(init, [last], n);
      assert Incoming([last], n) == if last.target == n then [last] else [];
      assert Outgoing([last], n) == if last.source == n then [last] else [];
    }
  }

  lemma {:induction false} TypeIn(nodes: seq<Node>, i: nat)
    requires DistinctIds(nodes) && i < |nodes|
    ensures nodes[i].id in TypesOf(nodes) && TypesOf(nodes)[nodes[i].id] == nodes[i].kind
  {
    if i < |nodes| - 1 { TypeIn(nodes[..|nodes| - 1], i); }
  }

  /** The degree rule K2 makes the import infer every role correctly. */
  lemma K2Fits(d: Diagram, n: Node)
    requires DistinctIds(d.nodes) && K2(SchemaOf(d)) && n in d.nodes && n.kind != SUBPROCESS
    ensures Fits(d.flows, n)
  {
    var i :| 0 <= i < |d.nodes| && d.nodes[i] == n;
    TypeIn(d.nodes, i);
    DegreesAre(d.flows, n.id);
    assert DegreesOk(SchemaOf(d).nodes[n.id], |Incoming(SchemaOf(d).edges, n.id)|, |Outgoing(SchemaOf(d).edges, n.id)|);
  }

  /** `import_bpmn`: the mapped diagram, if the validator accepts it. */
  ghost function ImportOf(root: Element, rest: Schema -> bool): Result<Diagram> {
    var mapped := Imported(root);
    if mapped.Err? then mapped
    else if Valid(SchemaOf(mapped.value), rest) then mapped
    else Err(Refusal(SchemaOf(mapped.value)))
  }

  /** Names and captions that survive the round trip. */
  ghost predicate WellNamed(d: Diagram) {
    && d.id != "" && d.name != "" && (forall n :: n in d.nodes ==> n.id != "")
    && (forall f :: f in d.flows ==> ConditionKept(f.condition))
  }

  /** Every valid schema without a SUBPROCESS survives export and import. */
  lemma ValidRoundTrip(d: Diagram, rest: Schema -> bool)
    requires DistinctIds(d.nodes) && Valid(SchemaOf(d), rest) && WellNamed(d) && EndsAreNodes(d)
    requires forall n :: n in d.nodes ==> n.kind != SUBPROCESS
    ensures ImportOf(Exported(d), rest) == Ok(d)
  {
    forall n | n in d.nodes ensures NodeReadable(n) && Fits(d.flows, n) { K2Fits(d, n); }
    assert Exchangeable(d);
    RoundTripIff(d);
  }

  // --- the import as it is run ------------------------------------------------------------------------------------------

  lemma ReadStops(children: seq<Element>, i: nat)
    requires i < |children| && Read(children[..i]).Ok? && ReadChild(Read(children[..i]).value, children[i]).Err?
    ensures Read(children) == ReadChild(Read(children[..i]).value, children[i])
  {
    ReadAppend(children[..i], children[i]);
    SplitAt(children, i);
    ReadErr(children[..i] + [children[i]], children[i + 1..]);
  }

  lemma SplitAt(children: seq<Element>, i: nat)
    requires i < |children|
    ensures children == (children[..i] + [children[i]]) + children[i + 1..]
  {}

  /** The loop over the children of the process element. */
  method ReadChildren(children: seq<Element>) returns (r: Result<Raw>)
    ensures r == Read(children)
  {
    var raw := Raw([], map[], []);
    for i := 0 to |children|
      invariant Read(children[..i]) == Ok(raw)
    {
      assert children[..i + 1] == children[..i] + [children[i]];
      ReadAppend(children[..i], children[i]);
      var next := ReadChild(raw, children[i]);
      if next.Err? {
        ReadStops(children, i);
        return next;
      }
      raw := next.value;
    }
    assert children[..|children|] == children;
    return Ok(raw);
  }

  lemma MoreDegrees(flows: seq<Flow>, i: nat, n: Id)
    requires i < |flows|
    ensures Ins(flows[..i + 1], n) == Ins(flows[..i], n) + (if flows[i].target == n then 1 else 0)
    ensures Outs(flows[..i + 1], n) == Outs(flows[..i], n) + (if flows[i].source == n then 1 else 0)
  {
    assert flows[..i + 1][..i] == flows[..i];
  }

  ghost predicate Counted(nodes: set<Id>, flows: seq<Flow>, indegree: map<Id, nat>, outdegree: map<Id, nat>) {
    && indegree.Keys == nodes == outdegree.Keys
    && forall n :: n in nodes ==> indegree[n] == Ins(flows, n) && outdegree[n] == Outs(flows, n)
  }

  lemma CountOne(nodes: set<Id>, flows: seq<Flow>, i: nat, indegree: map<Id, nat>, outdegree: map<Id, nat>)
    requires i < |flows| && Counted(nodes, flows[..i], indegree, outdegree) && flows[i].source in nodes && flows[i].target in nodes
    ensures Counted(nodes, flows[..i + 1], indegree[flows[i].target := indegree[flows[i].target] + 1],
                    outdegree[flows[i].source := outdegree[flows[i].source] + 1])
  {
    forall n { MoreDegrees(flows, i, n); }
  }

  /** The degree loop; it stops at a flow whose ends are unknown. */
  method CountDegrees(raw: Raw) returns (known: bool, indegree: map<Id, nat>, outdegree: map<Id, nat>)
    ensures known <==> FlowsKnown(raw)
    ensures known ==> Counted(raw.nodes.Keys, raw.flows, indegree, outdegree)
  {
    indegree := map n | n in raw.nodes :: 0;
    outdegree := map n | n in raw.nodes :: 0;
    for i := 0 to |raw.flows|
      invariant Counted(raw.nodes.Keys, raw.flows[..i], indegree, outdegree)
      invariant forall f :: f in raw.flows[..i] ==> f.source in raw.nodes && f.target in raw.nodes
    {
      var f := raw.flows[i];
      if f.source !in raw.nodes || f.target !in raw.nodes { return false, indegree, outdegree; }
      CountOne(raw.nodes.Keys, raw.flows, i, indegree, outdegree);
      assert raw.flows[..i + 1] == raw.flows[..i] + [f];
      outdegree := outdegree[f.source := outdegree[f.source] + 1];
      indegree := indegree[f.target := indegree[f.target] + 1];
    }
    assert raw.flows[..|raw.flows|] == raw.flows;
    return true, indegree, outdegree;
  }

  lemma {:induction false} BuildStops(raw: Raw, order: seq<Id>, i: nat)
    requires i <= |order| && (forall n :: n in order ==> n in raw.nodes) && BuildNodes(raw, order[..i]).Err?
    ensures BuildNodes(raw, order) == BuildNodes(raw, order[..i])
    decreases |order| - i
  {
    if i < |order| {
      assert order[..i + 1][..i] == order[..i];
      BuildStops(raw, order, i + 1);
    } else {
      assert order[..i] == order;
    }
  }

  /** The loop that gives every flow node its type. */
  method ResolveNodes(raw: Raw, indegree: map<Id, nat>, outdegree: map<Id, nat>) returns (r: Result<seq<Node>>)
    requires forall n :: n in raw.order ==> n in raw.nodes
    requires Counted(raw.nodes.Keys, raw.flows, indegree, outdegree)
    ensures r == BuildNodes(raw, raw.order)
  {
    var nodes: seq<Node> := [];
    for i := 0 to |raw.order|
      invariant BuildNodes(raw, raw.order[..i]) == Ok(nodes)
    {
      var n := raw.order[i];
      assert raw.order[..i + 1][..i] == raw.order[..i];
      var t := ResolveType(raw.nodes[n].0, indegree[n], outdegree[n]);
      if t.Err? {
        BuildStops(raw, raw.order, i + 1);
        return Err(t.error);
      }
      nodes := nodes + [Node(n, t.value, raw.nodes[n].1)];
    }
    assert raw.order[..|raw.order|] == raw.order;
    return Ok(nodes);
  }

  /** The mapping part of `import_bpmn`. */
  method MapDocument(root: Element) returns (r: Result<Diagram>)
    ensures r == Imported(root)
  {
    var process := FirstTagged(root, Process);
    if process.None? { return Err(Unmappable); }
    var raw := ReadChildren(process.value.children);
    if raw.Err? { return Err(raw.error); }
    ReadNodesKnown(process.value.children);
    var known, indegree, outdegree := CountDegrees(raw.value);
    if !known { return Err(Unmappable); }
    var nodes := ResolveNodes(raw.value, indegree, outdegree);
    if nodes.Err? { return Err(nodes.error); }
    var decisions := DecisionsOf(process.value);
    if decisions.Err? { return Err(decisions.error); }
    return Ok(Diagram(OrElse(Attr(process.value, IdAttr), "imported"), OrElse(Attr(process.value, NameAttr), "Imported"),
                      nodes.value, raw.value.flows, decisions.value));
  }

  /** `import_bpmn` */
  method Import(root: Element, rest: Schema -> bool) returns (r: Result<Diagram>)
    ensures r == ImportOf(root, rest)
  {
    var mapped := MapDocument(root);
    if mapped.Err? { return mapped; }
    var committed := RaiseIfInvalid(SchemaOf(mapped.value), rest);
    return if committed.Ok? then mapped else Err(committed.error);
  }
}

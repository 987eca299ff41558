/**
 The outbound work queue: external tasks of automatic steps, their locks, retries and incidents.
 The store of the runtime is described by a `Board`; its events may interleave in any order, with
 the engine requests that reach the same instances directly. Every history keeps at most one open
 task per step and completes every step at most once.
 */
module ExternalTasks {
  import opened Model
  import opened Partition
  import L = Lifetime

  datatype Automation = MANUAL | EXTERNAL_TASK | HTTP_PUSH

  /** The service binding of an activity; `endpoint` says that an endpoint is configured. */
  datatype Binding = Binding(automation: Automation, topic: string, endpoint: bool, retryMax: int, priority: nat)

  /** `DONE` is the task state COMPLETED. */
  datatype TaskState = CREATED | LOCKED | DONE | INCIDENT | BPMN_ERROR

  datatype ExternalTask = ExternalTask(instance: Id, node: Id, topic: string, state: TaskState, worker: Option<Id>,
                                       lockUntil: Option<real>, availableAt: Option<real>, retriesLeft: int, priority: nat)
  {
    function Step(): (Id, Id) { (instance, node) }

    /** `_OPEN_STATES`: the task still occupies its step. */
    predicate Open() { !state.DONE? }

    /** `_require_locked`: the lock is held by `w` and has not expired. */
    predicate HeldBy(w: Id, now: real) {
      state.LOCKED? && worker == Some(w) && !Expired(now)
    }

    predicate Expired(now: real) {
      lockUntil.Some? && lockUntil.value <= now
    }

    predicate Due(now: real) {
      availableAt.None? || availableAt.value <= now
    }
  }

  datatype Incident = Incident(task: nat, resolved: bool)

  /** The stores behind the runtime. `log` lists the steps the engine has completed, in order. */
  datatype Board = Board(cases: map<Id, L.Case>, bindings: map<(Id, Id), Binding>, tasks: map<nat, ExternalTask>,
                         incidents: map<nat, Incident>, now: real, log: seq<(Id, Id)>)

  // --- retries -----------------------------------------------------------------------------

  function Pow2(n: nat): nat {
    if n == 0 then 1 else 2 * Pow2(n - 1)
  }

  /** `_backoff_ms` */
  function BackoffMs(retriesLeft: int): int {
    var attempt := if 5 - retriesLeft > 0 then 5 - retriesLeft else 0;
    if 2000 * Pow2(attempt) <= 60000 then 2000 * Pow2(attempt) else 60000
  }

  lemma {:induction false} Pow2Grows(m: nat, n: nat)
    requires m <= n
    ensures 1 <= Pow2(m) <= Pow2(n)
    decreases n
  {
    if m < n { Pow2Grows(m, n - 1); } else if m > 0 { Pow2Grows(m - 1, n - 1); }
  }

  /** The fewer retries are left, the longer the back-off, between two seconds and a minute. */
  lemma BackoffGrows(more: int, fewer: int)
    requires fewer <= more
    ensures 2000 <= BackoffMs(more) <= BackoffMs(fewer) <= 60000
  {
    Pow2Grows(if 5 - more > 0 then 5 - more else 0, if 5 - fewer > 0 then 5 - fewer else 0);
  }

  /** The back-off in milliseconds: two seconds with five retries left or more, doubled with every retry less, a minute at most. */
  lemma BackoffExact(left: int)
    ensures left >= 5 ==> BackoffMs(left) == 2000
    ensures left == 4 ==> BackoffMs(left) == 4000
    ensures left == 3 ==> BackoffMs(left) == 8000
    ensures left == 2 ==> BackoffMs(left) == 16000
    ensures left == 1 ==> BackoffMs(left) == 32000
    ensures left <= 0 ==> BackoffMs(left) == 60000
  {
    assert Pow2(1) == 2 && Pow2(2) == 4 && Pow2(3) == 8 && Pow2(4) == 16;
    assert Pow2(5) == 32;
    if left <= 0 { Pow2Grows(5, 5 - left); }
  }

  // --- what the operations do to one task ------------------------------------------------------

  /** The time `ms` milliseconds from now. */
  function After(now: real, ms: int): Option<real> {
    Some(now + ms as real / 1000.0)
  }

  function Extended(t: ExternalTask, now: real, lockMs: int): ExternalTask {
    t.(lockUntil := After(now, lockMs))
  }

  function Requeued(t: ExternalTask): ExternalTask {
    t.(state := CREATED, worker := None, lockUntil := None, availableAt := None)
  }

  function Claimed(t: ExternalTask, owner: Id, until: Option<real>): ExternalTask {
    t.(state := LOCKED, worker := Some(owner), lockUntil := until, availableAt := None)
  }

  function Reported(t: ExternalTask): ExternalTask {
    t.(state := DONE, lockUntil := None, availableAt := None)
  }

  function Errored(t: ExternalTask): ExternalTask {
    t.(state := BPMN_ERROR, worker := None, lockUntil := None, availableAt := None)
  }

  /** The retries left after a failure report. */
  function Remaining(t: ExternalTask, retries: Option<int>): int {
    var left := if retries.Some? then retries.value else t.retriesLeft - 1;
    if left > 0 then left else 0
  }

  function Failed(t: ExternalTask, now: real, retries: Option<int>, timeoutMs: Option<int>): ExternalTask {
    var left := Remaining(t, retries);
    if left > 0 then
      var wait := if timeoutMs.Some? then timeoutMs.value else BackoffMs(left);
      t.(state := CREATED, worker := None, lockUntil := None, retriesLeft := left, availableAt := After(now, wait))
    else
      t.(state := INCIDENT, worker := None, lockUntil := None, retriesLeft := 0, availableAt := None)
  }

  // --- materialisation --------------------------------------------------------------------------

  /** An activated automatic step of the given kind in a running instance. */
  predicate DueStep(b: Board, kind: Automation, step: (Id, Id)) {
    var (i, n) := step;
    && i in b.cases && !b.cases[i].instance.done
    && n in b.cases[i].instance.nodeStates && b.cases[i].instance.nodeStates[n].ACTIVATED?
    && n in b.cases[i].schema.nodes && b.cases[i].schema.nodes[n].ACTIVITY?
    && step in b.bindings && b.bindings[step].automation == kind
    && (kind.EXTERNAL_TASK? ==> b.bindings[step].topic != "")
    && (kind.HTTP_PUSH? ==> b.bindings[step].endpoint)
  }

  function NewTask(b: Board, kind: Automation, step: (Id, Id)): ExternalTask
    requires step in b.bindings
  {
    var binding := b.bindings[step];
    ExternalTask(step.0, step.1, if kind.EXTERNAL_TASK? then binding.topic else "", CREATED, None, None, None,
                 binding.retryMax, binding.priority)
  }

  predicate HasOpen(tasks: map<nat, ExternalTask>, step: (Id, Id)) {
    exists t :: t in tasks && tasks[t].Open() && tasks[t].Step() == step
  }

  /** No step has two open tasks. */
  ghost predicate OneOpen(tasks: map<nat, ExternalTask>) {
    forall s, t :: s in tasks && t in tasks && tasks[s].Open() && tasks[t].Open() && tasks[s].Step() == tasks[t].Step() ==> s == t
  }

  /** Old tasks stay; the new ones are CREATED for due steps that had no open task. */
  ghost predicate Added(b: Board, kind: Automation, tasks: map<nat, ExternalTask>) {
    && b.tasks.Keys <= tasks.Keys
    && (forall t :: t in b.tasks ==> tasks[t] == b.tasks[t])
    && (forall t :: t in tasks && t !in b.tasks ==> Fresh(b, kind, tasks[t]))
  }

  ghost predicate Fresh(b: Board, kind: Automation, t: ExternalTask) {
    DueStep(b, kind, t.Step()) && !HasOpen(b.tasks, t.Step()) && t == NewTask(b, kind, t.Step())
  }

  /** `_materialise`: afterwards every due step has an open task, and no step has two. */
  ghost predicate Materialised(b: Board, kind: Automation, b': Board) {
    && b' == b.(tasks := b'.tasks) && Added(b, kind, b'.tasks) && OneOpen(b'.tasks)
    && forall step :: DueStep(b, kind, step) ==> HasOpen(b'.tasks, step)
  }

  // --- events -------------------------------------------------------------------------------------

  datatype Event =
    | Tick(now: real)                                            // time passes
    | Arrive(instance: Id, case_: L.Case)                        // an instance is created
    | Direct(instance: Id, event: L.Event, next: L.Case)         // a request to the engine itself
    | Materialise(kind: Automation)
    | Claim(owners: map<nat, Id>, until: Option<real>)           // tasks are fetched or pushed
    | Extend(task: nat, worker: Id, lockMs: int)
    | Unlock(task: nat, worker: Id)
    | Complete(task: nat, worker: Id, written: map<Id, Value>, next: L.Case)
    | Fail(task: nat, worker: Id, retries: Option<int>, timeoutMs: Option<int>, incident: nat)
    | Error(task: nat, worker: Id)
    | Resolve(incident: nat)

  /** A task that may be handed out: created and due, or locked with an expired lock. */
  predicate Free(t: ExternalTask, now: real) {
    (t.state.CREATED? && t.Due(now)) || (t.state.LOCKED? && t.Expired(now))
  }

  function ClaimAll(tasks: map<nat, ExternalTask>, owners: map<nat, Id>, until: Option<real>): map<nat, ExternalTask> {
    map t | t in tasks :: if t in owners then Claimed(tasks[t], owners[t], until) else tasks[t]
  }

  /** The steps that a direct request completes. */
  function CompletedBy(i: Id, event: L.Event): seq<(Id, Id)> {
    if event.Complete? then [(i, event.id)] else []
  }

  /** The retry budget after an incident is resolved. */
  function Budget(b: Board, t: ExternalTask): int {
    var budget := if t.instance in b.cases && t.Step() in b.bindings then b.bindings[t.Step()].retryMax else 5;
    if budget > 1 then budget else 1
  }

  ghost predicate Holds(b: Board, t: nat, w: Id) {
    t in b.tasks && b.tasks[t].HeldBy(w, b.now)
  }

  /** The step of the task `t` is completed and its report booked. */
  function AfterReport(b: Board, t: nat, d: L.Case): Board
    requires t in b.tasks
  {
    b.(cases := b.cases[b.tasks[t].instance := d], tasks := b.tasks[t := Reported(b.tasks[t])], log := b.log + [b.tasks[t].Step()])
  }

  /** The task `t` goes back into the queue, or an incident is opened for it. */
  function AfterFailure(b: Board, t: nat, retries: Option<int>, timeoutMs: Option<int>, incident: nat): Board
    requires t in b.tasks
  {
    b.(tasks := b.tasks[t := Failed(b.tasks[t], b.now, retries, timeoutMs)],
       incidents := if Remaining(b.tasks[t], retries) > 0 then b.incidents else b.incidents[incident := Incident(t, false)])
  }

  /** The effect of an accepted event. */
  ghost predicate Transition(b: Board, event: Event, b': Board) {
    match event
    case Tick(now) => now >= b.now && b' == b.(now := now)
    case Arrive(i, c) => i !in b.cases && L.Sound(c) && b' == b.(cases := b.cases[i := c])
    case Direct(i, e, d) =>
      i in b.cases && L.Step(b.cases[i], e, d) && b' == b.(cases := b.cases[i := d], log := b.log + CompletedBy(i, e))
    case Materialise(kind) => Materialised(b, kind, b')
    case Claim(owners, until) =>
      && (forall t :: t in owners ==> t in b.tasks && Free(b.tasks[t], b.now))
      && b' == b.(tasks := ClaimAll(b.tasks, owners, until))
    case Extend(t, w, ms) => Holds(b, t, w) && b' == b.(tasks := b.tasks[t := Extended(b.tasks[t], b.now, ms)])
    case Unlock(t, w) => Holds(b, t, w) && b' == b.(tasks := b.tasks[t := Requeued(b.tasks[t])])
    case Complete(t, w, written, d) =>
      && Holds(b, t, w) && b.tasks[t].instance in b.cases
      && L.Step(b.cases[b.tasks[t].instance], L.Complete(b.tasks[t].node, written), d)
      && b' == AfterReport(b, t, d)
    case Fail(t, w, retries, timeout, incident) =>
      && Holds(b, t, w) && incident !in b.incidents
      && b' == AfterFailure(b, t, retries, timeout, incident)
    case Error(t, w) => Holds(b, t, w) && b' == b.(tasks := b.tasks[t := Errored(b.tasks[t])])
    case Resolve(incident) =>
      incident in b.incidents && b' == AfterResolve(b, incident)
  }

  /** The incident is closed. */
  function AfterResolve(b: Board, incident: nat): Board
    requires incident in b.incidents
  {
    b.(tasks := Resolved(b, b.incidents[incident].task),
       incidents := b.incidents[incident := b.incidents[incident].(resolved := true)])
  }

  /** An incident task goes back into the queue with a new retry budget. */
  function Resolved(b: Board, t: nat): map<nat, ExternalTask> {
    if t in b.tasks && b.tasks[t].state.INCIDENT?
    then b.tasks[t := Requeued(b.tasks[t]).(retriesLeft := Budget(b, b.tasks[t]))]
    else b.tasks
  }

  // --- what every history keeps --------------------------------------------------------------------

  ghost predicate SoundCases(cases: map<Id, L.Case>) {
    forall i :: i in cases ==> L.Sound(cases[i])
  }

  ghost predicate IsCompleted(cases: map<Id, L.Case>, step: (Id, Id)) {
    step.0 in cases && L.CompletedIn(cases[step.0], step.1)
  }

  /** Each step in the log is completed, and is in the log once. */
  ghost predicate LogOk(cases: map<Id, L.Case>, log: seq<(Id, Id)>) {
    NoRepeat(log) && forall step :: step in log ==> IsCompleted(cases, step)
  }

  /** A reported task has had its step completed; no two reported tasks share a step. */
  ghost predicate ReportsOk(tasks: map<nat, ExternalTask>, log: seq<(Id, Id)>) {
    && (forall t :: t in tasks && tasks[t].state.DONE? ==> tasks[t].Step() in log)
    && (forall s, t :: s in tasks && t in tasks && tasks[s].state.DONE? && tasks[t].state.DONE? && tasks[s].Step() == tasks[t].Step() ==> s == t)
  }

  /** Exactly the locked tasks (and reported ones) have a worker. */
  ghost predicate LocksOk(tasks: map<nat, ExternalTask>) {
    forall t :: t in tasks ==>
      && (tasks[t].state.LOCKED? ==> tasks[t].worker.Some?)
      && (tasks[t].worker.Some? ==> tasks[t].state.LOCKED? || tasks[t].state.DONE?)
  }

  /** Every task in an incident has an unresolved incident an operator can see. */
  ghost predicate Visible(incidents: map<nat, Incident>, t: nat) {
    exists k :: k in incidents && incidents[k] == Incident(t, false)
  }

  ghost predicate IncidentsOk(tasks: map<nat, ExternalTask>, incidents: map<nat, Incident>) {
    forall t :: t in tasks && tasks[t].state.INCIDENT? ==> Visible(incidents, t)
  }

  ghost predicate Good(b: Board) {
    && SoundCases(b.cases) && LogOk(b.cases, b.log)
    && OneOpen(b.tasks) && ReportsOk(b.tasks, b.log) && LocksOk(b.tasks) && IncidentsOk(b.tasks, b.incidents)
  }

  /** What a step of the life of one instance does to the cases: completed nodes stay completed. */
  ghost predicate Moved(c: L.Case, d: L.Case) {
    forall n :: L.CompletedIn(c, n) ==> L.CompletedIn(d, n)
  }

  lemma CaseMoves(c: L.Case, event: L.Event, d: L.Case)
    requires L.Sound(c) && L.Step(c, event, d)
    ensures L.Sound(d) && Moved(c, d)
    ensures event.Complete? ==> !L.CompletedIn(c, event.id) && L.CompletedIn(d, event.id)
  {
    L.StepSound(c, event, d);
    forall n | L.CompletedIn(c, n) ensures L.CompletedIn(d, n) { L.CompletedStays(c, event, d, n); }
    if event.Complete? { L.CompletesNew(c, event.id, event.written, d); }
  }

  lemma SoundMoves(cases: map<Id, L.Case>, i: Id, d: L.Case)
    requires SoundCases(cases) && L.Sound(d)
    ensures SoundCases(cases[i := d])
  {}

  lemma LogStays(cases: map<Id, L.Case>, i: Id, d: L.Case, log: seq<(Id, Id)>)
    requires LogOk(cases, log) && i in cases && Moved(cases[i], d)
    ensures LogOk(cases[i := d], log)
  {
    forall step | step in log ensures IsCompleted(cases[i := d], step) { assert IsCompleted(cases, step); }
  }

  lemma NoRepeatGrows<T>(s: seq<T>, x: T)
    requires NoRepeat(s) && x !in s
    ensures NoRepeat(s + [x])
  {}

  /** A step is completed by the engine only if it has not been before. */
  lemma LogGrows(cases: map<Id, L.Case>, i: Id, n: Id, d: L.Case, log: seq<(Id, Id)>)
    requires LogOk(cases, log) && i in cases && Moved(cases[i], d)
    requires !L.CompletedIn(cases[i], n) && L.CompletedIn(d, n)
    ensures (i, n) !in log && LogOk(cases[i := d], log + [(i, n)])
  {
    LogStays(cases, i, d, log);
    assert !IsCompleted(cases, (i, n)) && IsCompleted(cases[i := d], (i, n));
    NoRepeatGrows(log, (i, n));
  }

  /** One task changes while it stays open. */
  ghost predicate Updated(b: Board, t: nat, task: ExternalTask) {
    && t in b.tasks && b.tasks[t].Open() && task.Open() && task.Step() == b.tasks[t].Step()
    && (task.state.LOCKED? <==> task.worker.Some?) && (task.state.INCIDENT? ==> b.tasks[t].state.INCIDENT?)
  }

  lemma PassingKeeps(b: Board, event: Event, b': Board)
    requires Good(b) && (event.Tick? || event.Arrive?) && Transition(b, event, b')
    ensures Good(b')
  {
    if event.Arrive? {
      ArriveKeeps(b.cases, b.log, event.instance, event.case_);
      SoundMoves(b.cases, event.instance, event.case_);
    }
  }

  lemma ArriveKeeps(cases: map<Id, L.Case>, log: seq<(Id, Id)>, i: Id, c: L.Case)
    requires LogOk(cases, log) && i !in cases
    ensures LogOk(cases[i := c], log)
  {
    forall step | step in log ensures IsCompleted(cases[i := c], step) { assert IsCompleted(cases, step); }
  }

  lemma DirectKeeps(b: Board, event: Event, b': Board)
    requires Good(b) && event.Direct? && Transition(b, event, b')
    ensures Good(b')
  {
    var i, e, d := event.instance, event.event, event.next;
    CaseMoves(b.cases[i], e, d);
    SoundMoves(b.cases, i, d);
    if e.Complete? {
      LogGrows(b.cases, i, e.id, d, b.log);
    } else {
      LogStays(b.cases, i, d, b.log);
      assert b.log + [] == b.log;
    }
  }

  lemma CompleteKeeps(b: Board, event: Event, b': Board)
    requires Good(b) && event.Complete? && Transition(b, event, b')
    ensures Good(b')
  {
    var task, d := b.tasks[event.task], event.next;
    var i, n := task.instance, task.node;
    CaseMoves(b.cases[i], L.Complete(n, event.written), d);
    SoundMoves(b.cases, i, d);
    LogGrows(b.cases, i, n, d, b.log);
    ReportKeeps(b, event.task);
  }

  /** Reporting a task whose step was not in the log. */
  lemma ReportKeeps(b: Board, t: nat)
    requires OneOpen(b.tasks) && ReportsOk(b.tasks, b.log) && LocksOk(b.tasks) && IncidentsOk(b.tasks, b.incidents)
    requires t in b.tasks && b.tasks[t].state.LOCKED? && b.tasks[t].Step() !in b.log
    ensures var tasks := b.tasks[t := Reported(b.tasks[t])];
            && OneOpen(tasks) && ReportsOk(tasks, b.log + [b.tasks[t].Step()]) && LocksOk(tasks) && IncidentsOk(tasks, b.incidents)
  {}

  /** Tasks whose steps and whether they are open, reported or in an incident stay the same. */
  ghost predicate SameKinds(tasks: map<nat, ExternalTask>, tasks': map<nat, ExternalTask>) {
    tasks'.Keys == tasks.Keys &&
    forall t :: t in tasks ==>
      && tasks'[t].Step() == tasks[t].Step() && (tasks'[t].state.DONE? <==> tasks[t].state.DONE?)
      && (tasks'[t].state.INCIDENT? ==> tasks[t].state.INCIDENT?)
  }

  lemma KindsKeep(b: Board, tasks': map<nat, ExternalTask>)
    requires Good(b) && SameKinds(b.tasks, tasks') && LocksOk(tasks')
    ensures Good(b.(tasks := tasks'))
  {}

  lemma UpdateKeeps(b: Board, t: nat, task: ExternalTask)
    requires Good(b) && Updated(b, t, task)
    ensures Good(b.(tasks := b.tasks[t := task]))
  {
    KindsKeep(b, b.tasks[t := task]);
  }

  lemma ClaimKeeps(b: Board, event: Event, b': Board)
    requires Good(b) && event.Claim? && Transition(b, event, b')
    ensures Good(b')
  {
    ClaimKinds(b.tasks, event.owners, event.until, b.now);
    KindsKeep(b, ClaimAll(b.tasks, event.owners, event.until));
  }

  lemma ClaimKinds(tasks: map<nat, ExternalTask>, owners: map<nat, Id>, until: Option<real>, now: real)
    requires LocksOk(tasks) && forall t :: t in owners ==> t in tasks && Free(tasks[t], now)
    ensures SameKinds(tasks, ClaimAll(tasks, owners, until)) && LocksOk(ClaimAll(tasks, owners, until))
  {}

  lemma FailKeeps(b: Board, event: Event, b': Board)
    requires Good(b) && event.Fail? && Transition(b, event, b')
    ensures Good(b')
  {
    var t := event.task;
    var task := Failed(b.tasks[t], b.now, event.retries, event.timeoutMs);
    if task.state.INCIDENT? {
      IncidentKeeps(b, t, task, event.incident);
    } else {
      UpdateKeeps(b, t, task);
    }
  }

  lemma IncidentKeeps(b: Board, t: nat, task: ExternalTask, incident: nat)
    requires Good(b) && t in b.tasks && b.tasks[t].Open() && incident !in b.incidents
    requires task.state.INCIDENT? && task.worker.None? && task.Step() == b.tasks[t].Step()
    ensures Good(b.(tasks := b.tasks[t := task], incidents := b.incidents[incident := Incident(t, false)]))
  {
    var tasks, incidents := b.tasks[t := task], b.incidents[incident := Incident(t, false)];
    forall s | s in tasks && tasks[s].state.INCIDENT? ensures Visible(incidents, s) {
      if s != t { StaysVisible(b.incidents, incidents, s); }
      assert incidents[incident] == Incident(t, false);
    }
    IncidentTasks(b.tasks, b.log, t, task);
  }

  lemma IncidentTasks(tasks: map<nat, ExternalTask>, log: seq<(Id, Id)>, t: nat, task: ExternalTask)
    requires OneOpen(tasks) && ReportsOk(tasks, log) && LocksOk(tasks) && t in tasks && tasks[t].Open()
    requires task.state.INCIDENT? && task.worker.None? && task.Step() == tasks[t].Step()
    ensures OneOpen(tasks[t := task]) && ReportsOk(tasks[t := task], log) && LocksOk(tasks[t := task])
  {}

  lemma StaysVisible(incidents: map<nat, Incident>, incidents': map<nat, Incident>, s: nat)
    requires Visible(incidents, s)
    requires forall k :: k in incidents && incidents[k] == Incident(s, false) ==> k in incidents' && incidents'[k] == incidents[k]
    ensures Visible(incidents', s)
  {
    var k :| k in incidents && incidents[k] == Incident(s, false);
    assert incidents'[k] == Incident(s, false);
  }

  lemma RequeueKeeps(b: Board, t: nat)
    requires Good(b)
    ensures Good(b.(tasks := Resolved(b, t)))
  {
    if t in b.tasks && b.tasks[t].state.INCIDENT? {
      UpdateKeeps(b, t, Requeued(b.tasks[t]).(retriesLeft := Budget(b, b.tasks[t])));
    }
  }

  lemma OthersVisible(tasks: map<nat, ExternalTask>, incidents: map<nat, Incident>, k: nat)
    requires IncidentsOk(tasks, incidents) && k in incidents
    requires incidents[k].task in tasks ==> !tasks[incidents[k].task].state.INCIDENT?
    ensures IncidentsOk(tasks, incidents[k := incidents[k].(resolved := true)])
  {
    forall s | s in tasks && tasks[s].state.INCIDENT? ensures Visible(incidents[k := incidents[k].(resolved := true)], s) {
      StaysVisible(incidents, incidents[k := incidents[k].(resolved := true)], s);
    }
  }

  lemma ResolveKeeps(b: Board, event: Event, b': Board)
    requires Good(b) && event.Resolve? && Transition(b, event, b')
    ensures Good(b')
  {
    RequeueKeeps(b, b.incidents[event.incident].task);
    OthersVisible(b'.tasks, b.incidents, event.incident);
  }

  lemma MaterialiseKeeps(b: Board, event: Event, b': Board)
    requires Good(b) && event.Materialise? && Transition(b, event, b')
    ensures Good(b')
  {
    AddedAreCreated(b, event.kind, b'.tasks);
    AddKeeps(b.tasks, b'.tasks, b.log, b.incidents);
  }

  lemma AddedAreCreated(b: Board, kind: Automation, tasks: map<nat, ExternalTask>)
    requires Added(b, kind, tasks)
    ensures forall t :: t in tasks && t !in b.tasks ==> tasks[t].state.CREATED? && tasks[t].worker.None?
  {}

  lemma AddKeeps(tasks: map<nat, ExternalTask>, tasks': map<nat, ExternalTask>, log: seq<(Id, Id)>, incidents: map<nat, Incident>)
    requires ReportsOk(tasks, log) && LocksOk(tasks) && IncidentsOk(tasks, incidents)
    requires tasks.Keys <= tasks'.Keys && forall t :: t in tasks ==> tasks'[t] == tasks[t]
    requires forall t :: t in tasks' && t !in tasks ==> tasks'[t].state.CREATED? && tasks'[t].worker.None?
    ensures ReportsOk(tasks', log) && LocksOk(tasks') && IncidentsOk(tasks', incidents)
  {
    forall s | s in tasks' && tasks'[s].state.INCIDENT? ensures Visible(incidents, s) {
      assert s in tasks;
    }
  }

  /** The reports of one worker on one task. */
  lemma ReportedKeeps(b: Board, event: Event, b': Board)
    requires Good(b) && (event.Extend? || event.Unlock? || event.Error?) && Transition(b, event, b')
    ensures Good(b')
  {
    match event
    case Extend(t, w, ms) => UpdateKeeps(b, t, Extended(b.tasks[t], b.now, ms));
    case Unlock(t, w) => UpdateKeeps(b, t, Requeued(b.tasks[t]));
    case Error(t, w) => UpdateKeeps(b, t, Errored(b.tasks[t]));
    case _ =>
  }

  /** Every event keeps the board in order. */
  lemma TransitionKeeps(b: Board, event: Event, b': Board)
    requires Good(b) && Transition(b, event, b')
    ensures Good(b')
  {
    if event.Tick? || event.Arrive? {
      PassingKeeps(b, event, b');
    } else if event.Direct? {
      DirectKeeps(b, event, b');
    } else if event.Materialise? {
      MaterialiseKeeps(b, event, b');
    } else if event.Claim? {
      ClaimKeeps(b, event, b');
    } else if event.Complete? {
      CompleteKeeps(b, event, b');
    } else if event.Fail? {
      FailKeeps(b, event, b');
    } else if event.Resolve? {
      ResolveKeeps(b, event, b');
    } else {
      ReportedKeeps(b, event, b');
    }
  }

  // --- histories ---------------------------------------------------------------------------------

  ghost predicate History(boards: seq<Board>, events: seq<Event>) {
    && |boards| == |events| + 1
    && (events != [] ==>
          var k := |events| - 1;
          History(boards[..k + 1], events[..k]) && Transition(boards[k], events[k], boards[k + 1]))
  }

  function Now(boards: seq<Board>): Board
    requires boards != []
  {
    boards[|boards| - 1]
  }

  lemma {:induction false} HistoryKeeps(boards: seq<Board>, events: seq<Event>)
    requires History(boards, events) && Good(boards[0])
    ensures Good(Now(boards))
  {
    if events != [] {
      var k := |events| - 1;
      HistoryKeeps(boards[..k + 1], events[..k]);
      TransitionKeeps(boards[k], events[k], boards[k + 1]);
    }
  }

  /**
   Exactly once: in every interleaving of the events each step has at most one open task, at most
   one report on it is accepted, and the engine completes it at most once.
   */
  lemma ExactlyOnce(boards: seq<Board>, events: seq<Event>, step: (Id, Id))
    requires History(boards, events) && Good(boards[0])
    ensures var b := Now(boards);
            && (forall s, t :: s in b.tasks && t in b.tasks && b.tasks[s].Step() == step == b.tasks[t].Step() ==>
                  (b.tasks[s].Open() && b.tasks[t].Open()) || (!b.tasks[s].Open() && !b.tasks[t].Open()) ==> s == t)
            && (forall i, j :: 0 <= i < |b.log| && 0 <= j < |b.log| && b.log[i] == step == b.log[j] ==> i == j)
  {
    HistoryKeeps(boards, events);
  }

  /** The report of `w` on the task `t`. */
  predicate ByHolder(event: Event, t: nat, w: Id) {
    match event
    case Extend(s, v, _) => s == t && v == w
    case Unlock(s, v) => s == t && v == w
    case Complete(s, v, _, _) => s == t && v == w
    case Fail(s, v, _, _, _) => s == t && v == w
    case Error(s, v) => s == t && v == w
    case _ => false
  }

  /**
   A lock is exclusive: while a worker holds a task, nothing but that worker's own reports
   changes the task; nobody else is handed it and no report of anybody else is accepted.
   */
  lemma LockExclusive(b: Board, event: Event, b': Board, t: nat, w: Id)
    requires Good(b) && Transition(b, event, b') && Holds(b, t, w) && !ByHolder(event, t, w)
    ensures t in b'.tasks && b'.tasks[t] == b.tasks[t]
  {
    if event.Materialise? || event.Claim? {
      HandedOutElsewhere(b, event, b', t, w);
    } else if event.Extend? || event.Unlock? || event.Complete? || event.Fail? || event.Error? {
      ReportedElsewhere(b, event, b', t, w);
    } else {
      assert event.Resolve? ==> b'.tasks == Resolved(b, b.incidents[event.incident].task);
    }
  }

  lemma HandedOutElsewhere(b: Board, event: Event, b': Board, t: nat, w: Id)
    requires (event.Materialise? || event.Claim?) && Transition(b, event, b') && Holds(b, t, w)
    ensures t in b'.tasks && b'.tasks[t] == b.tasks[t]
  {}

  lemma ReportedElsewhere(b: Board, event: Event, b': Board, t: nat, w: Id)
    requires event.Extend? || event.Unlock? || event.Complete? || event.Fail? || event.Error?
    requires Transition(b, event, b') && Holds(b, t, w) && !ByHolder(event, t, w)
    ensures t in b'.tasks && b'.tasks[t] == b.tasks[t]
  {}

  /** A lock that was once granted is held until its holder gives it up or it expires. */
  lemma {:induction false} LockHolds(boards: seq<Board>, events: seq<Event>, t: nat, w: Id)
    requires History(boards, events) && Good(boards[0]) && Holds(boards[0], t, w)
    requires forall e :: e in events ==> !ByHolder(e, t, w)
    requires !boards[0].tasks[t].Expired(Now(boards).now)
    ensures Holds(Now(boards), t, w) && Now(boards).tasks[t] == boards[0].tasks[t] && Now(boards).now >= boards[0].now
  {
    if events != [] {
      var k := |events| - 1;
      TimePasses(boards[k], events[k], boards[k + 1]);
      assert events[k] in events;
      LockHolds(boards[..k + 1], events[..k], t, w);
      HistoryKeeps(boards[..k + 1], events[..k]);
      LockExclusive(boards[k], events[k], boards[k + 1], t, w);
    }
  }

  lemma TimePasses(b: Board, event: Event, b': Board)
    requires Transition(b, event, b')
    ensures b'.now >= b.now
  {}

  /** A report on a task whose step was completed directly is never accepted. */
  lemma StaleReportRefused(b: Board, t: nat, w: Id, written: map<Id, Value>, d: L.Case, b': Board)
    requires LogOk(b.cases, b.log) && t in b.tasks && b.tasks[t].Step() in b.log
    ensures !Transition(b, Complete(t, w, written, d), b')
  {
    var i, n := b.tasks[t].instance, b.tasks[t].node;
    assert b.tasks[t].Step() == (i, n);
    LoggedIsCompleted(b, i, n);
    CompletedIsOver(b.cases[i], n, written, d);
  }

  lemma LoggedIsCompleted(b: Board, i: Id, n: Id)
    requires LogOk(b.cases, b.log) && (i, n) in b.log
    ensures i in b.cases && L.CompletedIn(b.cases[i], n)
  {
    assert IsCompleted(b.cases, (i, n));
  }

  /** A completed activity cannot be completed again. */
  lemma CompletedIsOver(c: L.Case, n: Id, written: map<Id, Value>, d: L.Case)
    requires L.CompletedIn(c, n)
    ensures !L.Step(c, L.Complete(n, written), d)
  {}

  // --- incidents and the tasks they stand for -----------------------------------------------

  /** The incidents of the task `t` that are not resolved. */
  function Unresolved(b: Board, t: nat): set<nat> {
    set k | k in b.incidents && b.incidents[k] == Incident(t, false)
  }

  /** Every unresolved incident stands for a task that is in an incident, and no other does. */
  ghost predicate Tidy(b: Board) {
    && (forall k :: k in b.incidents && !b.incidents[k].resolved ==> Stands(b, b.incidents[k].task))
    && (forall k, l :: k in b.incidents && l in b.incidents && !b.incidents[k].resolved && b.incidents[l] == b.incidents[k] ==> k == l)
  }

  predicate Stands(b: Board, t: nat) {
    t in b.tasks && b.tasks[t].state.INCIDENT?
  }

  /** A resolve request is harmless if the incident is unresolved, or its task is not in an incident again. */
  predicate ResolvesOnce(b: Board, k: nat)
    requires k in b.incidents
  {
    !b.incidents[k].resolved || !Stands(b, b.incidents[k].task)
  }

  /** On a tidy board a task is in an incident exactly if it has exactly one unresolved incident. */
  lemma TidyMeans(b: Board, t: nat)
    requires Good(b) && Tidy(b) && t in b.tasks
    ensures |Unresolved(b, t)| <= 1 && (b.tasks[t].state.INCIDENT? <==> |Unresolved(b, t)| == 1)
  {
    if Visible(b.incidents, t) {
      var k :| k in b.incidents && b.incidents[k] == Incident(t, false);
      assert Unresolved(b, t) == {k};
      assert Stands(b, t);
    } else {
      assert Unresolved(b, t) == {};
    }
  }

  /** Events that touch no incident leave the tasks in incidents alone. */
  lemma IncidentsUntouched(b: Board, event: Event, b': Board, t: nat)
    requires LocksOk(b.tasks) && Transition(b, event, b') && !event.Resolve? && Stands(b, t)
    ensures Stands(b', t)
  {
    match event
    case Materialise(_) => assert b'.tasks[t] == b.tasks[t];
    case Claim(owners, _) => assert t !in owners;
    case _ =>
  }

  lemma FailTidy(b: Board, event: Event, b': Board)
    requires Good(b) && Tidy(b) && Transition(b, event, b') && event.Fail?
    ensures Tidy(b')
  {
    forall k | k in b'.incidents && !b'.incidents[k].resolved ensures Stands(b', b'.incidents[k].task) {
      if k in b.incidents { IncidentsUntouched(b, event, b', b.incidents[k].task); }
    }
    assert !Stands(b, event.task);
  }

  lemma FirstResolveTidy(b: Board, k: nat)
    requires Tidy(b) && k in b.incidents && ResolvesOnce(b, k)
    ensures Tidy(AfterResolve(b, k))
  {
    var b' := AfterResolve(b, k);
    forall l | l in b'.incidents && !b'.incidents[l].resolved ensures Stands(b', b'.incidents[l].task) {
      assert l != k && b'.incidents[l] == b.incidents[l] && Stands(b, b.incidents[l].task);
    }
  }

  lemma SecondResolveUntidy(b: Board, k: nat)
    requires IncidentsOk(b.tasks, b.incidents) && k in b.incidents && !ResolvesOnce(b, k)
    ensures !Tidy(AfterResolve(b, k))
  {
    var t, b' := b.incidents[k].task, AfterResolve(b, k);
    assert Visible(b.incidents, t);
    var l :| l in b.incidents && b.incidents[l] == Incident(t, false);
    assert b'.incidents[l] == Incident(t, false) && !Stands(b', t);
  }

  /** The exact condition for a resolve request: a second one breaks the agreement if its task failed again. */
  lemma ResolveTidyIff(b: Board, k: nat, b': Board)
    requires Good(b) && Tidy(b) && Transition(b, Resolve(k), b')
    ensures Tidy(b') <==> ResolvesOnce(b, k)
  {
    if ResolvesOnce(b, k) { FirstResolveTidy(b, k); } else { SecondResolveUntidy(b, k); }
  }

  lemma TidyKeeps(b: Board, event: Event, b': Board)
    requires Good(b) && Tidy(b) && Transition(b, event, b')
    requires event.Resolve? ==> ResolvesOnce(b, event.incident)
    ensures Tidy(b')
  {
    if event.Resolve? {
      ResolveTidyIff(b, event.incident, b');
    } else if event.Fail? {
      FailTidy(b, event, b');
    } else {
      assert b'.incidents == b.incidents;
      forall k | k in b.incidents && !b.incidents[k].resolved ensures Stands(b', b.incidents[k].task) {
        IncidentsUntouched(b, event, b', b.incidents[k].task);
      }
    }
  }

  /** Every resolve request of the history hits an unresolved incident, or one whose task did not fail again. */
  ghost predicate ResolvedOnce(boards: seq<Board>, events: seq<Event>)
    requires |boards| == |events| + 1
  {
    forall k {:trigger events[k]} :: 0 <= k < |events| && events[k].Resolve? && events[k].incident in boards[k].incidents ==>
      ResolvesOnce(boards[k], events[k].incident)
  }

  lemma {:induction false} HistoryTidy(boards: seq<Board>, events: seq<Event>)
    requires History(boards, events) && Good(boards[0]) && Tidy(boards[0]) && ResolvedOnce(boards, events)
    ensures Tidy(Now(boards))
  {
    if events != [] {
      var k := |events| - 1;
      assert forall i :: 0 <= i < k ==> events[..k][i] == events[i] && boards[..k + 1][i] == boards[i];
      HistoryTidy(boards[..k + 1], events[..k]);
      HistoryKeeps(boards[..k + 1], events[..k]);
      TidyKeeps(boards[k], events[k], boards[k + 1]);
    }
  }

  /**
   Over every history in which no incident is resolved a second time after its task failed again,
   a task is in an incident exactly if it has exactly one unresolved incident, and has none otherwise.
   */
  lemma IncidentsExact(boards: seq<Board>, events: seq<Event>, t: nat)
    requires History(boards, events) && Good(boards[0]) && Tidy(boards[0]) && ResolvedOnce(boards, events)
    requires t in Now(boards).tasks
    ensures var b := Now(boards);
            |Unresolved(b, t)| <= 1 && (b.tasks[t].state.INCIDENT? <==> |Unresolved(b, t)| == 1)
  {
    HistoryKeeps(boards, events);
    HistoryTidy(boards, events);
    TidyMeans(Now(boards), t);
  }

  // --- retries are used up --------------------------------------------------------------------

  /** A failure of the task `t`. */
  predicate Fails(event: Event, t: nat) {
    event.Fail? && event.task == t
  }

  /** How often the task `t` has failed. */
  function Failures(events: seq<Event>, t: nat): nat {
    if events == [] then 0 else Failures(events[..|events| - 1], t) + if Fails(events[|events| - 1], t) then 1 else 0
  }

  /** A request that changes the budget of `t`: a failure with a retry count of its own, or the resolution of its incident. */
  predicate Rebudgets(b: Board, event: Event, t: nat) {
    || (Fails(event, t) && event.retries.Some?)
    || (event.Resolve? && event.incident in b.incidents && b.incidents[event.incident].task == t)
  }

  ghost predicate OneBudget(boards: seq<Board>, events: seq<Event>, t: nat)
    requires |boards| == |events| + 1
  {
    forall k {:trigger events[k]} :: 0 <= k < |events| ==> !Rebudgets(boards[k], events[k], t)
  }

  /** The retries left and whether the task is in an incident, after `k` failures on a budget of `budget`. */
  ghost predicate Spent(b: Board, t: nat, budget: int, k: nat) {
    && t in b.tasks
    && b.tasks[t].retriesLeft == (if k == 0 then budget else if budget > k then budget - k else 0)
    && (b.tasks[t].state.INCIDENT? <==> k >= 1 && k >= budget)
    && (k >= 1 ==> k <= (if budget > 1 then budget else 1))
  }

  /** The task keeps its retries, and is in an incident exactly if it was. */
  ghost predicate KeepsBudget(b: Board, b': Board, t: nat) {
    && t in b.tasks && t in b'.tasks && b'.tasks[t].retriesLeft == b.tasks[t].retriesLeft
    && (b'.tasks[t].state.INCIDENT? <==> b.tasks[t].state.INCIDENT?)
  }

  lemma HandOutKeepsBudget(b: Board, event: Event, b': Board, t: nat)
    requires Transition(b, event, b') && (event.Materialise? || event.Claim?) && t in b.tasks
    ensures KeepsBudget(b, b', t)
  {
    if event.Materialise? { assert b'.tasks[t] == b.tasks[t]; }
  }

  lemma ReportKeepsBudget(b: Board, event: Event, b': Board, t: nat)
    requires Transition(b, event, b') && (event.Extend? || event.Unlock? || event.Complete? || event.Fail? || event.Error?)
    requires t in b.tasks && !Fails(event, t)
    ensures KeepsBudget(b, b', t)
  {}

  lemma OtherKeepsBudget(b: Board, event: Event, b': Board, t: nat)
    requires Transition(b, event, b') && (event.Tick? || event.Arrive? || event.Direct?) && t in b.tasks
    ensures KeepsBudget(b, b', t)
  {}

  lemma ResolveKeepsBudget(b: Board, event: Event, b': Board, t: nat)
    requires Transition(b, event, b') && event.Resolve? && t in b.tasks && !Rebudgets(b, event, t)
    ensures KeepsBudget(b, b', t)
  {
    assert b'.tasks == Resolved(b, b.incidents[event.incident].task);
  }

  lemma OthersSpend(b: Board, event: Event, b': Board, t: nat, budget: int, k: nat)
    requires Transition(b, event, b') && Spent(b, t, budget, k) && !Fails(event, t) && !Rebudgets(b, event, t)
    ensures Spent(b', t, budget, k)
  {
    if event.Materialise? || event.Claim? {
      HandOutKeepsBudget(b, event, b', t);
    } else if event.Resolve? {
      ResolveKeepsBudget(b, event, b', t);
    } else if event.Tick? || event.Arrive? || event.Direct? {
      OtherKeepsBudget(b, event, b', t);
    } else {
      ReportKeepsBudget(b, event, b', t);
    }
  }

  lemma FailMeans(b: Board, event: Event, b': Board)
    requires Transition(b, event, b') && event.Fail?
    ensures Holds(b, event.task, event.worker)
    ensures b'.tasks == b.tasks[event.task := Failed(b.tasks[event.task], b.now, event.retries, event.timeoutMs)]
  {}

  lemma FailureSpends(b: Board, event: Event, b': Board, t: nat, budget: int, k: nat)
    requires Transition(b, event, b') && Spent(b, t, budget, k) && Fails(event, t) && !Rebudgets(b, event, t)
    ensures Spent(b', t, budget, k + 1)
  {
    FailMeans(b, event, b');
  }

  /**
   A budget holds for as many failures as it counts, at least one: without an override and until its
   incident is resolved, every failure uses up a retry, and the task is in an incident exactly when
   the last one has been used up.
   */
  lemma {:induction false} FailuresUseUp(boards: seq<Board>, events: seq<Event>, t: nat)
    requires History(boards, events) && t in boards[0].tasks && !boards[0].tasks[t].state.INCIDENT?
    requires OneBudget(boards, events, t)
    ensures var budget, k, b := boards[0].tasks[t].retriesLeft, Failures(events, t), Now(boards);
            && t in b.tasks && k <= (if budget > 1 then budget else 1)
            && (k >= 1 ==> b.tasks[t].retriesLeft == if budget > k then budget - k else 0)
            && (b.tasks[t].state.INCIDENT? <==> k == if budget > 1 then budget else 1)
  {
    SpentAfter(boards, events, t);
  }

  lemma {:induction false} SpentAfter(boards: seq<Board>, events: seq<Event>, t: nat)
    requires History(boards, events) && t in boards[0].tasks && !boards[0].tasks[t].state.INCIDENT?
    requires OneBudget(boards, events, t)
    ensures Spent(Now(boards), t, boards[0].tasks[t].retriesLeft, Failures(events, t))
  {
    if events != [] {
      var k := |events| - 1;
      assert forall i :: 0 <= i < k ==> events[..k][i] == events[i] && boards[..k + 1][i] == boards[i];
      SpentAfter(boards[..k + 1], events[..k], t);
      var budget, spent := boards[0].tasks[t].retriesLeft, Failures(events[..k], t);
      if Fails(events[k], t) {
        FailureSpends(boards[k], events[k], boards[k + 1], t, budget, spent);
      } else {
        OthersSpend(boards[k], events[k], boards[k + 1], t, budget, spent);
      }
    }
  }

  lemma HistoryGrows(boards: seq<Board>, events: seq<Event>, event: Event, b': Board)
    requires History(boards, events) && Transition(Now(boards), event, b')
    ensures History(boards + [b'], events + [event])
  {
    var k, longer, more := |events|, boards + [b'], events + [event];
    assert longer[..k + 1] == boards && more[..k] == events;
  }

  lemma ThreeMore(boards: seq<Board>, events: seq<Event>, e1: Event, b1: Board, e2: Event, b2: Board, e3: Event, b3: Board)
    requires History(boards, events)
    requires Transition(Now(boards), e1, b1) && Transition(b1, e2, b2) && Transition(b2, e3, b3)
    ensures History(boards + [b1] + [b2] + [b3], events + [e1, e2, e3])
  {
    HistoryGrows(boards, events, e1, b1);
    HistoryGrows(boards + [b1], events + [e1], e2, b2);
    HistoryGrows(boards + [b1] + [b2], events + [e1] + [e2], e3, b3);
    OneByOne(events, e1, e2, e3);
  }

  lemma OneByOne(events: seq<Event>, e1: Event, e2: Event, e3: Event)
    ensures events + [e1] + [e2] + [e3] == events + [e1, e2, e3]
  {}

  /** A task that waits in the queue. */
  predicate Queued(b: Board, t: nat) {
    t in b.tasks && b.tasks[t].state.CREATED? && b.tasks[t].availableAt.None?
  }

  /** The worker `w` takes the task `t` and fails for good. */
  lemma TakeAndFail(b: Board, t: nat, w: Id, k: nat) returns (mid: Board, b': Board)
    requires Queued(b, t) && k !in b.incidents
    ensures Transition(b, Claim(map[t := w], None), mid) && Transition(mid, Fail(t, w, Some(0), None, k), b')
    ensures b'.incidents == b.incidents[k := Incident(t, false)] && Stands(b', t)
  {
    mid := b.(tasks := ClaimAll(b.tasks, map[t := w], None));
    assert Holds(mid, t, w);
    b' := AfterFailure(mid, t, Some(0), None, k);
  }

  /** An incident of `t` is resolved while `t` is in an incident. */
  lemma ResolveNow(b: Board, t: nat, k: nat) returns (b': Board)
    requires Stands(b, t) && k in b.incidents && b.incidents[k].task == t
    ensures Transition(b, Resolve(k), b') && b'.incidents == b.incidents[k := Incident(t, true)]
    ensures Queued(b', t)
  {
    b' := AfterResolve(b, k);
  }

  /** The task `t` is taken and fails for good, which opens the incident `l`; then the incident `k` is resolved. */
  function Round(t: nat, w: Id, l: nat, k: nat): seq<Event> {
    [Claim(map[t := w], None), Fail(t, w, Some(0), None, l), Resolve(k)]
  }

  lemma RoundPossible(boards: seq<Board>, events: seq<Event>, t: nat, w: Id, l: nat, k: nat) returns (longer: seq<Board>)
    requires History(boards, events) && Queued(Now(boards), t) && l !in Now(boards).incidents
    requires k == l || (k in Now(boards).incidents && Now(boards).incidents[k].task == t)
    ensures History(longer, events + Round(t, w, l, k)) && longer[0] == boards[0] && Queued(Now(longer), t)
    ensures Now(longer).incidents == Now(boards).incidents[l := Incident(t, false)][k := Incident(t, true)]
  {
    var b1, b2 := TakeAndFail(Now(boards), t, w, l);
    var b3 := ResolveNow(b2, t, k);
    ThreeMore(boards, events, Claim(map[t := w], None), b1, Fail(t, w, Some(0), None, l), b2, Resolve(k), b3);
    longer := boards + [b1] + [b2] + [b3];
  }

  /**
   How a task gets out of step: it fails for good, its incident `k` is resolved, it fails for good
   again, and `k` is resolved once more. The task is queued while the incident `l` is still open.
   */
  lemma ResolvedTwice(b: Board, t: nat, w: Id, k: nat, l: nat) returns (boards: seq<Board>)
    requires Queued(b, t) && k !in b.incidents && l !in b.incidents && k != l
    ensures History(boards, Round(t, w, k, k) + Round(t, w, l, k)) && boards[0] == b
    ensures Queued(Now(boards), t) && l in Unresolved(Now(boards), t) && !Tidy(Now(boards))
  {
    assert [] + Round(t, w, k, k) == Round(t, w, k, k);
    var half := RoundPossible([b], [], t, w, k, k);
    boards := RoundPossible(half, Round(t, w, k, k), t, w, l, k);
    assert Now(boards).incidents[l] == Incident(t, false);
  }

  // --- push tasks and the workers ---------------------------------------------------------------

  /** The tasks a worker asking for `topics` may be handed. */
  function Fetchable(b: Board, topics: set<string>): set<nat> {
    set t | t in b.tasks && b.tasks[t].topic in topics && Free(b.tasks[t], b.now)
  }

  /** A claim that hands out tasks of non-empty topics, or tasks of any kind to callback tokens. */
  ghost predicate Polite(b: Board, event: Event, tokens: set<Id>) {
    event.Claim? ==>
      || (exists topics: set<string> {:trigger Fetchable(b, topics)} :: "" !in topics && event.owners.Keys <= Fetchable(b, topics))
      || (forall t :: t in event.owners ==> event.owners[t] in tokens)
  }

  /** Push tasks carry the empty topic; whoever holds one, or reported it, did so with a callback token. */
  ghost predicate PushesKept(b: Board, tokens: set<Id>) {
    forall t :: t in b.tasks && b.tasks[t].topic == "" && b.tasks[t].worker.Some? ==> b.tasks[t].worker.value in tokens
  }

  lemma PoliteKeeps(b: Board, event: Event, b': Board, tokens: set<Id>)
    requires PushesKept(b, tokens) && Transition(b, event, b') && Polite(b, event, tokens)
    ensures PushesKept(b', tokens)
  {
    if event.Claim? {
      forall t | t in event.owners && b.tasks[t].topic == "" ensures event.owners[t] in tokens {}
    }
  }

  ghost predicate AllPolite(boards: seq<Board>, events: seq<Event>, tokens: set<Id>)
    requires |boards| == |events| + 1
  {
    forall k {:trigger events[k]} :: 0 <= k < |events| ==> Polite(boards[k], events[k], tokens)
  }

  /**
   As long as no worker asks for the empty topic, push tasks are held by callback tokens only, over
   every history, whatever becomes of their locks.
   */
  lemma {:induction false} PushesByTokenOnly(boards: seq<Board>, events: seq<Event>, tokens: set<Id>)
    requires History(boards, events) && PushesKept(boards[0], tokens) && AllPolite(boards, events, tokens)
    ensures PushesKept(Now(boards), tokens)
  {
    if events != [] {
      var k := |events| - 1;
      assert forall i :: 0 <= i < k ==> events[..k][i] == events[i] && boards[..k + 1][i] == boards[i];
      PushesByTokenOnly(boards[..k + 1], events[..k], tokens);
      PoliteKeeps(boards[k], events[k], boards[k + 1], tokens);
    }
  }

  /** A worker who asks for the empty topic can get any push task that is due or whose lock has expired. */
  lemma PushTaken(b: Board, t: nat, w: Id, tokens: set<Id>, until: Option<real>) returns (b': Board)
    requires t in b.tasks && b.tasks[t].topic == "" && Free(b.tasks[t], b.now) && w !in tokens
    ensures t in Fetchable(b, {""}) && Transition(b, Claim(map[t := w], until), b') && !PushesKept(b', tokens)
  {
    b' := b.(tasks := ClaimAll(b.tasks, map[t := w], until));
    assert b'.tasks[t].worker == Some(w);
  }
}

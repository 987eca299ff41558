/**
 The external-task runtime: a boundary driver over the task and instance stores. Every method is
 proved against the events of the board: an accepted request is the event, a refused one changes
 nothing.
 */
module TaskRuntime {
  import opened Model
  import opened Execution
  import opened Adhoc
  import opened ExternalTasks
  import L = Lifetime

  /** A pending push: a due task without topic whose step still has a push binding. */
  predicate Pushable(b: Board, t: nat) {
    && t in b.tasks && b.tasks[t].state.CREATED? && b.tasks[t].topic == "" && b.tasks[t].Due(b.now)
    && b.tasks[t].instance in b.cases && b.tasks[t].Step() in b.bindings
    && b.bindings[b.tasks[t].Step()].automation.HTTP_PUSH? && b.bindings[b.tasks[t].Step()].endpoint
  }

  /** The callback tokens of the pending pushes that can be enqueued, of all tasks but `left`. */
  ghost function PushOwners(b: Board, left: set<nat>, accepts: nat -> bool, token: nat -> Id): map<nat, Id> {
    map t | t in b.tasks && t !in left && Pushable(b, t) && accepts(t) :: token(t)
  }

  lemma PushOwnersGrow(b: Board, left: set<nat>, accepts: nat -> bool, token: nat -> Id, t: nat)
    requires t in left && left <= b.tasks.Keys
    ensures t !in PushOwners(b, left, accepts, token)
    ensures PushOwners(b, left - {t}, accepts, token)
         == if Pushable(b, t) && accepts(t) then PushOwners(b, left, accepts, token)[t := token(t)] else PushOwners(b, left, accepts, token)
  {}

  /** A push is handed to its callback token. */
  lemma PushIsPolite(b: Board, accepts: nat -> bool, token: nat -> Id, tokens: set<Id>)
    requires forall t :: token(t) in tokens
    ensures Polite(b, Claim(PushOwners(b, {}, accepts, token), None), tokens)
  {}

  function OwnedBy(locked: set<nat>, worker: Id): map<nat, Id> {
    map t | t in locked :: worker
  }

  lemma OwnedOneMore(locked: set<nat>, worker: Id, t: nat)
    ensures OwnedBy(locked + {t}, worker) == OwnedBy(locked, worker)[t := worker]
  {}

  /** A worker who does not ask for the empty topic is handed no push task. */
  lemma FetchIsPolite(b: Board, topics: set<string>, locked: set<nat>, worker: Id, until: Option<real>, tokens: set<Id>)
    requires "" !in topics && locked <= Fetchable(b, topics)
    ensures Polite(b, Claim(OwnedBy(locked, worker), until), tokens)
  {
    assert OwnedBy(locked, worker).Keys == locked;
  }

  lemma FetchClaims(b: Board, topics: set<string>, locked: set<nat>, worker: Id, until: Option<real>)
    requires Good(b) && locked <= Fetchable(b, topics)
    ensures var b' := b.(tasks := ClaimAll(b.tasks, OwnedBy(locked, worker), until));
            Transition(b, Claim(OwnedBy(locked, worker), until), b') && Good(b')
  {
    ClaimKeeps(b, Claim(OwnedBy(locked, worker), until), b.(tasks := ClaimAll(b.tasks, OwnedBy(locked, worker), until)));
  }

  /** The tasks locked so far: at most as many as asked for, and the most urgent ones. */
  ghost predicate Serving(tasks: map<nat, ExternalTask>, available: set<nat>, locked: set<nat>, maxTasks: int, usePriority: bool)
    requires available <= tasks.Keys
  {
    && locked <= available && (maxTasks <= 0 ==> locked == {}) && (maxTasks > 0 ==> |locked| <= maxTasks)
    && (usePriority ==> forall t, u :: t in locked && u in available - locked ==> tasks[u].priority <= tasks[t].priority)
  }

  /** A full answer, or one that was cut short at a task whose data cannot be read. */
  ghost predicate Served(tasks: map<nat, ExternalTask>, available: set<nat>, locked: set<nat>, maxTasks: int, usePriority: bool,
                         readable: nat -> bool, ok: bool)
  {
    && available <= tasks.Keys && Serving(tasks, available, locked, maxTasks, usePriority)
    && (ok ==> |locked| >= maxTasks || locked == available)
    && (!ok ==> |locked| < maxTasks && exists t :: t in available - locked && !readable(t))
  }

  lemma ServeOne(tasks: map<nat, ExternalTask>, available: set<nat>, locked: set<nat>, maxTasks: int, usePriority: bool, t: nat)
    requires available <= tasks.Keys && Serving(tasks, available, locked, maxTasks, usePriority) && |locked| < maxTasks
    requires t in available - locked
    requires usePriority ==> forall u :: u in available - locked ==> tasks[u].priority <= tasks[t].priority
    ensures Serving(tasks, available, locked + {t}, maxTasks, usePriority)
  {}

  /** The progress of a materialisation: `open` are the steps with an open task. */
  ghost predicate Progress(b: Board, kind: Automation, tasks: map<nat, ExternalTask>, open: set<(Id, Id)>) {
    && Added(b, kind, tasks) && OneOpen(tasks)
    && forall step :: step in open <==> HasOpen(tasks, step)
  }

  lemma CreateProgress(b: Board, kind: Automation, tasks: map<nat, ExternalTask>, open: set<(Id, Id)>, t: nat, step: (Id, Id))
    requires Progress(b, kind, tasks, open) && t !in tasks && DueStep(b, kind, step) && step !in open
    ensures Progress(b, kind, tasks[t := NewTask(b, kind, step)], open + {step})
  {
    var task := NewTask(b, kind, step);
    var tasks' := tasks[t := task];
    assert !HasOpen(tasks, step);
    forall s | HasOpen(b.tasks, s) ensures HasOpen(tasks, s) {
      var u :| u in b.tasks && b.tasks[u].Open() && b.tasks[u].Step() == s;
      assert tasks[u] == b.tasks[u];
    }
    assert Fresh(b, kind, task);
    forall s ensures s in open + {step} <==> HasOpen(tasks', s) {
      if HasOpen(tasks, s) { var u :| u in tasks && tasks[u].Open() && tasks[u].Step() == s; assert tasks'[u] == tasks[u]; }
      if HasOpen(tasks', s) && s != step { var u :| u in tasks' && tasks'[u].Open() && tasks'[u].Step() == s; assert u in tasks; }
      if s == step { assert tasks'[t].Open(); }
    }
  }

  lemma StartProgress(b: Board, kind: Automation, open: set<(Id, Id)>)
    requires OneOpen(b.tasks) && open == set t | t in b.tasks && b.tasks[t].Open() :: b.tasks[t].Step()
    ensures Progress(b, kind, b.tasks, open)
  {}

  lemma ProgressDone(b: Board, kind: Automation, tasks: map<nat, ExternalTask>, open: set<(Id, Id)>)
    requires Progress(b, kind, tasks, open) && forall step :: DueStep(b, kind, step) ==> step in open
    ensures Transition(b, Materialise(kind), b.(tasks := tasks))
  {}

  /** The due steps of the instances that have been scanned have an open task. */
  ghost predicate Scanned(b: Board, kind: Automation, left: set<Id>, open: set<(Id, Id)>) {
    forall step :: DueStep(b, kind, step) && step.0 !in left ==> step in open
  }

  lemma ScannedOne(b: Board, kind: Automation, left: set<Id>, open: set<(Id, Id)>, i: Id, open': set<(Id, Id)>)
    requires Scanned(b, kind, left, open) && open <= open' && forall n :: DueStep(b, kind, (i, n)) ==> (i, n) in open'
    ensures Scanned(b, kind, left - {i}, open')
  {
    forall step | DueStep(b, kind, step) && step.0 !in left - {i} ensures step in open' { assert step == (step.0, step.1); }
  }

  lemma EmptyBoard(cases: map<Id, L.Case>, bindings: map<(Id, Id), Binding>, now: real)
    requires SoundCases(cases)
    ensures Good(Board(cases, bindings, map[], map[], now, []))
  {}

  /** The engine has no way to complete the task's step. */
  ghost predicate Refused(b: Board, t: nat, w: Id, written: map<Id, Value>) {
    forall d, b' :: !Transition(b, Complete(t, w, written, d), b')
  }

  lemma StepRefused(b: Board, t: nat, w: Id, written: map<Id, Value>)
    requires t in b.tasks && b.tasks[t].instance in b.cases
    requires forall d :: !L.Step(b.cases[b.tasks[t].instance], L.Complete(b.tasks[t].node, written), d)
    ensures Refused(b, t, w, written)
  {
    forall d, b' ensures !Transition(b, Complete(t, w, written, d), b') {
      assert !L.Step(b.cases[b.tasks[t].instance], L.Complete(b.tasks[t].node, written), d);
    }
  }

  lemma ReportCommitted(b: Board, t: nat, w: Id, written: map<Id, Value>, d: L.Case)
    requires Good(b) && Holds(b, t, w) && b.tasks[t].instance in b.cases
    requires L.Step(b.cases[b.tasks[t].instance], L.Complete(b.tasks[t].node, written), d)
    ensures Good(AfterReport(b, t, d)) && Transition(b, Complete(t, w, written, d), AfterReport(b, t, d))
  {
    CompleteKeeps(b, Complete(t, w, written, d), AfterReport(b, t, d));
  }

  lemma FailureCommitted(b: Board, t: nat, w: Id, retries: Option<int>, timeoutMs: Option<int>, k: nat)
    requires Good(b) && Holds(b, t, w) && k !in b.incidents
    ensures Good(AfterFailure(b, t, retries, timeoutMs, k))
    ensures Transition(b, Fail(t, w, retries, timeoutMs, k), AfterFailure(b, t, retries, timeoutMs, k))
  {
    FailKeeps(b, Fail(t, w, retries, timeoutMs, k), AfterFailure(b, t, retries, timeoutMs, k));
  }

  /**
   What a failure makes of a task, with `left` retries left: it waits in the queue for the given time,
   or for a back-off that doubles with every retry used; without retries it is in an incident.
   */
  predicate FailedAs(task: ExternalTask, left: int, timeoutMs: Option<int>, now: real, task': ExternalTask) {
    var wait := if timeoutMs.Some? then timeoutMs.value
                else if left >= 5 then 2000 else if left == 4 then 4000 else if left == 3 then 8000 else if left == 2 then 16000 else 32000;
    task' == if left > 0
             then task.(state := CREATED, worker := None, lockUntil := None, retriesLeft := left, availableAt := Some(now + wait as real / 1000.0))
             else task.(state := INCIDENT, worker := None, lockUntil := None, retriesLeft := 0, availableAt := None)
  }

  lemma FailedExactly(task: ExternalTask, now: real, retries: Option<int>, timeoutMs: Option<int>)
    ensures FailedAs(task, if retries.Some? then retries.value else task.retriesLeft - 1, timeoutMs, now, Failed(task, now, retries, timeoutMs))
  {
    BackoffExact(if retries.Some? then retries.value else task.retriesLeft - 1);
  }

  /** A task in an incident is queued again, with the retries of its binding, at least one; without a binding with five. */
  function RequeuedWith(tasks: map<nat, ExternalTask>, t: nat, cases: map<Id, L.Case>, bindings: map<(Id, Id), Binding>): map<nat, ExternalTask> {
    if t !in tasks || !tasks[t].state.INCIDENT? then tasks
    else
      var task := tasks[t];
      var bound := task.instance in cases && (task.instance, task.node) in bindings;
      var budget := if !bound then 5 else if bindings[(task.instance, task.node)].retryMax >= 1 then bindings[(task.instance, task.node)].retryMax else 1;
      tasks[t := ExternalTask(task.instance, task.node, task.topic, CREATED, None, None, None, budget, task.priority)]
  }

  lemma ResolvedExactly(b: Board, t: nat)
    ensures Resolved(b, t) == RequeuedWith(b.tasks, t, b.cases, b.bindings)
  {}

  /** The step is completed and its outputs are written; the other activities stay as they were. */
  ghost predicate Advanced(c: L.Case, n: Id, written: map<Id, Value>, d: L.Case) {
    && d.schema == c.schema && d.instance.data == c.instance.data + written
    && OnlyCompletes(c.schema, c.instance, n, d.instance) && CellsTaken(c.schema, c.instance, d.instance)
  }

  /** An activated automatic step of the given kind, in a running instance, with what its kind needs. */
  predicate Awaiting(cases: map<Id, L.Case>, bindings: map<(Id, Id), Binding>, kind: Automation, i: Id, n: Id) {
    && i in cases && !cases[i].instance.done
    && n in cases[i].instance.nodeStates && cases[i].instance.nodeStates[n] == ACTIVATED
    && n in cases[i].schema.nodes && cases[i].schema.nodes[n] == ACTIVITY
    && (i, n) in bindings && bindings[(i, n)].automation == kind
    && (kind == EXTERNAL_TASK ==> bindings[(i, n)].topic != "") && (kind == HTTP_PUSH ==> bindings[(i, n)].endpoint)
  }

  /** An open task for the step. */
  predicate Occupied(tasks: map<nat, ExternalTask>, i: Id, n: Id) {
    exists t :: t in tasks && tasks[t].instance == i && tasks[t].node == n && tasks[t].state != DONE
  }

  /** The old tasks, and new ones in the queue for the awaiting steps that had none. */
  ghost predicate TasksAdded(tasks: map<nat, ExternalTask>, cases: map<Id, L.Case>, bindings: map<(Id, Id), Binding>, kind: Automation,
                             tasks': map<nat, ExternalTask>) {
    && (forall t :: t in tasks ==> t in tasks' && tasks'[t] == tasks[t])
    && (forall t :: t in tasks' && t !in tasks ==>
          var i, n := tasks'[t].instance, tasks'[t].node;
          && Awaiting(cases, bindings, kind, i, n) && !Occupied(tasks, i, n)
          && tasks'[t] == ExternalTask(i, n, if kind == EXTERNAL_TASK then bindings[(i, n)].topic else "", CREATED, None, None, None,
                                       bindings[(i, n)].retryMax, bindings[(i, n)].priority))
    && (forall i, n :: Awaiting(cases, bindings, kind, i, n) ==> Occupied(tasks', i, n))
  }

  lemma OccupiedIsOpen(tasks: map<nat, ExternalTask>, i: Id, n: Id)
    ensures Occupied(tasks, i, n) <==> HasOpen(tasks, (i, n))
  {
    if Occupied(tasks, i, n) {
      var t :| t in tasks && tasks[t].instance == i && tasks[t].node == n && tasks[t].state != DONE;
      assert tasks[t].Open() && tasks[t].Step() == (i, n);
    }
    if HasOpen(tasks, (i, n)) {
      var t :| t in tasks && tasks[t].Open() && tasks[t].Step() == (i, n);
      assert tasks[t].instance == i && tasks[t].node == n;
    }
  }

  lemma AwaitingIsDue(b: Board, kind: Automation, i: Id, n: Id)
    ensures Awaiting(b.cases, b.bindings, kind, i, n) <==> DueStep(b, kind, (i, n))
  {}

  lemma MaterialisedExactly(b: Board, kind: Automation, b': Board)
    requires Materialised(b, kind, b')
    ensures TasksAdded(b.tasks, b.cases, b.bindings, kind, b'.tasks)
  {
    forall t | t in b'.tasks && t !in b.tasks
      ensures var i, n := b'.tasks[t].instance, b'.tasks[t].node;
              Awaiting(b.cases, b.bindings, kind, i, n) && !Occupied(b.tasks, i, n)
    {
      assert Fresh(b, kind, b'.tasks[t]);
      AwaitingIsDue(b, kind, b'.tasks[t].instance, b'.tasks[t].node);
      OccupiedIsOpen(b.tasks, b'.tasks[t].instance, b'.tasks[t].node);
    }
    forall i, n | Awaiting(b.cases, b.bindings, kind, i, n) ensures Occupied(b'.tasks, i, n) {
      AwaitingIsDue(b, kind, i, n);
      OccupiedIsOpen(b'.tasks, i, n);
    }
  }

  /** The tasks for these topics that are due in the queue or whose lock has expired. */
  function Waiting(tasks: map<nat, ExternalTask>, topics: set<string>, now: real): set<nat> {
    set t | t in tasks && tasks[t].topic in topics &&
            if tasks[t].state == CREATED then tasks[t].availableAt.None? || tasks[t].availableAt.value <= now
            else tasks[t].state == LOCKED && tasks[t].lockUntil.Some? && tasks[t].lockUntil.value <= now
  }

  lemma WaitingIsFetchable(b: Board, topics: set<string>)
    ensures Waiting(b.tasks, topics, b.now) == Fetchable(b, topics)
  {}

  /** The tasks in `owners` are locked for their owners, the others are untouched. */
  ghost predicate HandedOut(tasks: map<nat, ExternalTask>, owners: map<nat, Id>, until: Option<real>, tasks': map<nat, ExternalTask>) {
    && tasks'.Keys == tasks.Keys
    && forall t :: t in tasks ==>
         tasks'[t] == if t in owners then tasks[t].(state := LOCKED, worker := Some(owners[t]), lockUntil := until, availableAt := None) else tasks[t]
  }

  lemma ClaimHandsOut(tasks: map<nat, ExternalTask>, owners: map<nat, Id>, until: Option<real>)
    ensures HandedOut(tasks, owners, until, ClaimAll(tasks, owners, until))
  {}

  lemma FewerThan(a: set<nat>, b: set<nat>)
    requires a <= b
    ensures |a| <= |b|
  {
    assert b == a + (b - a);
    assert |b| == |a| + |b - a|;
  }

  lemma ServedCount(tasks: map<nat, ExternalTask>, available: set<nat>, locked: set<nat>, maxTasks: int, usePriority: bool,
                    readable: nat -> bool, ok: bool)
    requires Served(tasks, available, locked, maxTasks, usePriority, readable, ok)
    ensures locked <= available
    ensures ok ==> |locked| == if maxTasks <= 0 then 0 else if maxTasks <= |available| then maxTasks else |available|
    ensures usePriority ==> forall t, u :: t in locked && u in available && u !in locked ==> tasks[u].priority <= tasks[t].priority
  {
    if ok && maxTasks > 0 && |locked| >= maxTasks { FewerThan(locked, available); }
  }

  /** The tasks in `locked` are locked for the worker, the others untouched. */
  ghost predicate LockedFor(tasks: map<nat, ExternalTask>, worker: Id, until: Option<real>, locked: set<nat>, tasks': map<nat, ExternalTask>) {
    && tasks'.Keys == tasks.Keys
    && forall t :: t in tasks ==>
         tasks'[t] == if t in locked then tasks[t].(state := LOCKED, worker := Some(worker), lockUntil := until, availableAt := None) else tasks[t]
  }

  /** As many of the available tasks as asked for, or all, the most urgent first. */
  ghost predicate MostUrgent(tasks: map<nat, ExternalTask>, available: set<nat>, maxTasks: int, usePriority: bool, locked: set<nat>, ok: bool) {
    && locked <= available <= tasks.Keys
    && (ok ==> |locked| == if maxTasks <= 0 then 0 else if maxTasks <= |available| then maxTasks else |available|)
    && (usePriority ==> forall t, u :: t in locked && u in available && u !in locked ==> tasks[u].priority <= tasks[t].priority)
  }

  lemma FetchedExactly(b: Board, worker: Id, topics: set<string>, until: Option<real>, maxTasks: int, usePriority: bool,
                       readable: nat -> bool, locked: set<nat>, ok: bool)
    requires Served(b.tasks, Fetchable(b, topics), locked, maxTasks, usePriority, readable, ok)
    ensures LockedFor(b.tasks, worker, until, locked, ClaimAll(b.tasks, OwnedBy(locked, worker), until))
    ensures MostUrgent(b.tasks, Waiting(b.tasks, topics, b.now), maxTasks, usePriority, locked, ok)
  {
    WaitingIsFetchable(b, topics);
    ServedCount(b.tasks, Fetchable(b, topics), locked, maxTasks, usePriority, readable, ok);
  }

  lemma FetchMeans(b: Board, worker: Id, topics: set<string>, until: Option<real>, maxTasks: int, usePriority: bool,
                   readable: nat -> bool, locked: set<nat>, ok: bool)
    requires Good(b) && Served(b.tasks, Fetchable(b, topics), locked, maxTasks, usePriority, readable, ok)
    ensures var b' := b.(tasks := ClaimAll(b.tasks, OwnedBy(locked, worker), until));
            && Good(b') && Transition(b, Claim(OwnedBy(locked, worker), until), b')
            && LockedFor(b.tasks, worker, until, locked, b'.tasks)
            && MostUrgent(b.tasks, Waiting(b.tasks, topics, b.now), maxTasks, usePriority, locked, ok)
    ensures "" !in topics ==> forall tokens :: Polite(b, Claim(OwnedBy(locked, worker), until), tokens)
  {
    FetchedExactly(b, worker, topics, until, maxTasks, usePriority, readable, locked, ok);
    FetchClaims(b, topics, locked, worker, until);
    if "" !in topics {
      forall tokens ensures Polite(b, Claim(OwnedBy(locked, worker), until), tokens) { FetchIsPolite(b, topics, locked, worker, until, tokens); }
    }
  }

  /** The tasks to push that are accepted, each locked for its callback token and without expiry. */
  ghost predicate PushedTo(tasks: map<nat, ExternalTask>, cases: map<Id, L.Case>, bindings: map<(Id, Id), Binding>, now: real,
                           accepts: nat -> bool, token: nat -> Id, owners: map<nat, Id>, tasks': map<nat, ExternalTask>) {
    && HandedOut(tasks, owners, None, tasks')
    && (forall t :: t in owners <==> t in tasks && ToPush(tasks[t], cases, bindings, now) && accepts(t))
    && (forall t :: t in owners ==> owners[t] == token(t))
  }

  lemma PushedExactly(b: Board, accepts: nat -> bool, token: nat -> Id)
    ensures PushedTo(b.tasks, b.cases, b.bindings, b.now, accepts, token, PushOwners(b, {}, accepts, token),
                     ClaimAll(b.tasks, PushOwners(b, {}, accepts, token), None))
  {
    ClaimHandsOut(b.tasks, PushOwners(b, {}, accepts, token), None);
  }

  /** A task without topic that is due in the queue, of a step that still is to be pushed to an endpoint. */
  predicate ToPush(task: ExternalTask, cases: map<Id, L.Case>, bindings: map<(Id, Id), Binding>, now: real) {
    && task.state == CREATED && task.topic == "" && (task.availableAt.None? || task.availableAt.value <= now)
    && task.instance in cases && (task.instance, task.node) in bindings
    && bindings[(task.instance, task.node)].automation == HTTP_PUSH && bindings[(task.instance, task.node)].endpoint
  }

  lemma SoundCase(cases: map<Id, L.Case>, i: Id)
    requires SoundCases(cases) && i in cases
    ensures L.Sound(cases[i])
  {}

  class Runtime {
    const bindings: map<(Id, Id), Binding>
    var cases: map<Id, L.Case>
    var tasks: map<nat, ExternalTask>
    var incidents: map<nat, Incident>
    var now: real
    var nextTask: nat
    var nextIncident: nat
    ghost var log: seq<(Id, Id)>

    ghost function View(): Board
      reads this
    {
      Board(cases, bindings, tasks, incidents, now, log)
    }

    /** The counters that stand for the id generator are ahead of all stored ids. */
    ghost predicate Numbered()
      reads this
    {
      (forall t :: t in tasks ==> t < nextTask) && (forall k :: k in incidents ==> k < nextIncident)
    }

    ghost predicate Valid()
      reads this
    {
      Good(View()) && Numbered()
    }

    constructor (cases: map<Id, L.Case>, bindings: map<(Id, Id), Binding>, now: real)
      requires SoundCases(cases)
      ensures Valid() && View() == Board(cases, bindings, map[], map[], now, [])
    {
      EmptyBoard(cases, bindings, now);
      this.cases, this.bindings, this.now := cases, bindings, now;
      tasks, incidents, nextTask, nextIncident, log := map[], map[], 0, 0, [];
    }

    /** `_require_locked` */
    method RequireLocked(t: nat, w: Id) returns (r: Result<ExternalTask>)
      ensures r.Ok? <==> Holds(View(), t, w)
      ensures r.Ok? <==> && t in tasks && tasks[t].state.LOCKED? && tasks[t].worker == Some(w)
                         && (tasks[t].lockUntil.Some? ==> tasks[t].lockUntil.value > now)
      ensures r.Ok? ==> r.value == tasks[t]
    {
      if t !in tasks { return Err(NotExecutable("404")); }
      var task := tasks[t];
      if !task.state.LOCKED? || task.worker != Some(w) { return Err(NotExecutable("409")); }
      if task.lockUntil.Some? && task.lockUntil.value <= now { return Err(NotExecutable("409")); }
      return Ok(task);
    }

    // --- materialisation ---------------------------------------------------------------------

    /** One new task, under a new id. */
    method Create(kind: Automation, step: (Id, Id), open: set<(Id, Id)>, ghost b: Board) returns (open': set<(Id, Id)>)
      requires Numbered() && View() == b.(tasks := tasks) && Progress(b, kind, tasks, open)
      requires DueStep(b, kind, step) && step !in open
      modifies this`tasks, this`nextTask
      ensures Numbered() && View() == b.(tasks := tasks) && Progress(b, kind, tasks, open') && open' == open + {step}
    {
      CreateProgress(b, kind, tasks, open, nextTask, step);
      var binding := bindings[step];
      var topic := if kind.EXTERNAL_TASK? then binding.topic else "";
      tasks := tasks[nextTask := ExternalTask(step.0, step.1, topic, CREATED, None, None, None, binding.retryMax, binding.priority)];
      nextTask := nextTask + 1;
      open' := open + {step};
    }

    /** The inner loop of `_materialise`: one running instance. */
    method MaterialiseInstance(kind: Automation, i: Id, open: set<(Id, Id)>, ghost b: Board) returns (open': set<(Id, Id)>)
      requires i in cases && !cases[i].instance.done
      requires Numbered() && View() == b.(tasks := tasks) && Progress(b, kind, tasks, open)
      modifies this`tasks, this`nextTask
      ensures Numbered() && View() == b.(tasks := tasks) && Progress(b, kind, tasks, open') && open <= open'
      ensures forall n :: DueStep(b, kind, (i, n)) ==> (i, n) in open'
    {
      open' := open;
      var instance, schema := cases[i].instance, cases[i].schema;
      var left := instance.nodeStates.Keys;
      while left != {}
        invariant left <= instance.nodeStates.Keys
        invariant Numbered() && View() == b.(tasks := tasks) && Progress(b, kind, tasks, open') && open <= open'
        invariant forall n :: DueStep(b, kind, (i, n)) && n !in left ==> (i, n) in open'
        decreases left
      {
        var n :| n in left;
        left := left - {n};
        var due := instance.nodeStates[n].ACTIVATED? && n in schema.nodes && schema.nodes[n].ACTIVITY?
                   && (i, n) in bindings && bindings[(i, n)].automation == kind
                   && (kind.EXTERNAL_TASK? ==> bindings[(i, n)].topic != "") && (kind.HTTP_PUSH? ==> bindings[(i, n)].endpoint);
        assert due <==> DueStep(b, kind, (i, n));
        if due && (i, n) !in open' {
          open' := Create(kind, (i, n), open', b);
        }
      }
    }

    /** `_materialise`; with EXTERNAL_TASK also `sync`. */
    method MaterialiseTasks(kind: Automation)
      requires Valid()
      modifies this`tasks, this`nextTask
      ensures Valid() && Transition(old(View()), Materialise(kind), View())
      ensures TasksAdded(old(tasks), cases, bindings, kind, tasks)
    {
      ghost var b := View();
      var open := set t | t in tasks && tasks[t].Open() :: tasks[t].Step();
      StartProgress(b, kind, open);
      var left := cases.Keys;
      while left != {}
        invariant left <= cases.Keys
        invariant Numbered() && View() == b.(tasks := tasks) && Progress(b, kind, tasks, open) && Scanned(b, kind, left, open)
        decreases left
      {
        var i :| i in left;
        ghost var before, open0 := left, open;
        left := left - {i};
        if !cases[i].instance.done {
          open := MaterialiseInstance(kind, i, open, b);
        }
        ScannedOne(b, kind, before, open0, i, open);
      }
      ProgressDone(b, kind, tasks, open);
      TransitionKeeps(b, Materialise(kind), View());
      MaterialisedExactly(b, kind, View());
    }

    // --- handing tasks out ---------------------------------------------------------------------

    /** Locking one task; the loops of `fetch_and_lock` and `drive_push` do this for every task they hand out. */
    method ClaimOne(t: nat, owner: Id, until: Option<real>, ghost b: Board, ghost owners: map<nat, Id>)
      requires Numbered() && View() == b.(tasks := ClaimAll(b.tasks, owners, until)) && t in b.tasks && t !in owners
      modifies this`tasks
      ensures Numbered() && View() == b.(tasks := ClaimAll(b.tasks, owners[t := owner], until))
    {
      tasks := tasks[t := Claimed(tasks[t], owner, until)];
      assert tasks == ClaimAll(b.tasks, owners[t := owner], until);
    }

    /** `drive_push`; `accepts` says which tasks can be pre-fetched and enqueued, `token` gives the callback tokens. */
    method DrivePush(accepts: nat -> bool, token: nat -> Id) returns (ghost mid: Board, ghost owners: map<nat, Id>)
      requires Valid()
      modifies this`tasks, this`nextTask
      ensures Valid() && Transition(old(View()), Materialise(HTTP_PUSH), mid) && Transition(mid, Claim(owners, None), View())
      ensures owners == PushOwners(mid, {}, accepts, token)
      ensures forall tokens :: (forall t :: token(t) in tokens) ==> Polite(mid, Claim(owners, None), tokens)
      ensures TasksAdded(old(tasks), cases, bindings, HTTP_PUSH, mid.tasks)
      ensures PushedTo(mid.tasks, cases, bindings, now, accepts, token, owners, tasks)
    {
      MaterialiseTasks(HTTP_PUSH);
      mid := View();
      owners := PushLoop(accepts, token, mid);
      PushedExactly(mid, accepts, token);
      ClaimKeeps(mid, Claim(owners, None), View());
      forall tokens | forall t :: token(t) in tokens ensures Polite(mid, Claim(owners, None), tokens) { PushIsPolite(mid, accepts, token, tokens); }
    }

    /** The loop of `drive_push`. */
    method PushLoop(accepts: nat -> bool, token: nat -> Id, ghost b: Board) returns (ghost owners: map<nat, Id>)
      requires Numbered() && View() == b
      modifies this`tasks
      ensures Numbered() && View() == b.(tasks := ClaimAll(b.tasks, owners, None))
      ensures owners == PushOwners(b, {}, accepts, token)
    {
      owners := map[];
      assert tasks == ClaimAll(b.tasks, owners, None);
      var left := tasks.Keys;
      while left != {}
        invariant left <= b.tasks.Keys
        invariant Numbered() && View() == b.(tasks := ClaimAll(b.tasks, owners, None))
        invariant owners == PushOwners(b, left, accepts, token)
        decreases left
      {
        var t :| t in left;
        PushOwnersGrow(b, left, accepts, token, t);
        left := left - {t};
        var task := tasks[t];
        assert task == b.tasks[t];
        if task.state.CREATED? && task.topic == "" && task.Due(now) && task.instance in cases && task.Step() in bindings
           && bindings[task.Step()].automation.HTTP_PUSH? && bindings[task.Step()].endpoint {
          if accepts(t) {
            ClaimOne(t, token(t), None, b, owners);
            owners := owners[t := token(t)];
          }
        }
      }
    }

    /** The choice of `fetch_and_lock`: with priorities, one of the most urgent tasks that are left. */
    method PickTask(tasks: map<nat, ExternalTask>, left: set<nat>, usePriority: bool) returns (t: nat)
      requires left != {} && left <= tasks.Keys
      ensures t in left && (usePriority ==> forall u :: u in left ==> tasks[u].priority <= tasks[t].priority)
    {
      t :| t in left;
      if !usePriority { return; }
      var others := left - {t};
      while others != {}
        invariant others <= left && t in left
        invariant forall u :: u in left && u !in others ==> tasks[u].priority <= tasks[t].priority
        decreases others
      {
        var u :| u in others;
        others := others - {u};
        if tasks[u].priority > tasks[t].priority { t := u; }
      }
    }

    /** The locking loop of `fetch_and_lock`: stops at the first task whose input data cannot be read. */
    method ClaimLoop(available: set<nat>, worker: Id, until: Option<real>, maxTasks: int, usePriority: bool, readable: nat -> bool,
                     ghost b: Board)
      returns (locked: set<nat>, ok: bool)
      requires Numbered() && View() == b && available <= tasks.Keys
      modifies this`tasks
      ensures Numbered() && View() == b.(tasks := ClaimAll(b.tasks, OwnedBy(locked, worker), until))
      ensures Served(b.tasks, available, locked, maxTasks, usePriority, readable, ok)
    {
      locked, ok := {}, true;
      var listed := tasks;
      assert tasks == ClaimAll(b.tasks, OwnedBy(locked, worker), until);
      while |locked| < maxTasks && available - locked != {}
        invariant Numbered() && View() == b.(tasks := ClaimAll(b.tasks, OwnedBy(locked, worker), until))
        invariant Serving(listed, available, locked, maxTasks, usePriority)
        decreases available - locked
      {
        var t := PickTask(listed, available - locked, usePriority);
        if !readable(t) {
          ok := false;
          return;
        }
        ServeOne(listed, available, locked, maxTasks, usePriority, t);
        ClaimOne(t, worker, until, b, OwnedBy(locked, worker));
        OwnedOneMore(locked, worker, t);
        locked := locked + {t};
      }
    }

    /** `fetch_and_lock`; `readable` says which tasks' external input data can be pre-fetched. */
    method FetchAndLock(worker: Id, topics: set<string>, lockMs: int, maxTasks: int, usePriority: bool, readable: nat -> bool)
      returns (r: Result<set<nat>>, ghost mid: Board, ghost locked: set<nat>)
      requires Valid()
      modifies this`tasks, this`nextTask
      ensures Valid() && Transition(old(View()), Materialise(EXTERNAL_TASK), mid)
      ensures Transition(mid, Claim(OwnedBy(locked, worker), After(mid.now, lockMs)), View())
      ensures Served(mid.tasks, Fetchable(mid, topics), locked, maxTasks, usePriority, readable, r.Ok?)
      ensures r.Ok? ==> r.value == locked
      ensures TasksAdded(old(tasks), cases, bindings, EXTERNAL_TASK, mid.tasks)
      ensures LockedFor(mid.tasks, worker, After(now, lockMs), locked, tasks)
      ensures MostUrgent(mid.tasks, Waiting(mid.tasks, topics, now), maxTasks, usePriority, locked, r.Ok?)
      ensures "" !in topics ==> forall tokens :: Polite(mid, Claim(OwnedBy(locked, worker), After(mid.now, lockMs)), tokens)
    {
      MaterialiseTasks(EXTERNAL_TASK);
      mid := View();
      var taken, ok := LockAvailable(worker, topics, After(now, lockMs), maxTasks, usePriority, readable, mid);
      locked := taken;
      r := if ok then Ok(taken) else Err(NotExecutable("502"));
      FetchMeans(mid, worker, topics, After(now, lockMs), maxTasks, usePriority, readable, locked, ok);
    }

    /** The part of `fetch_and_lock` behind the materialisation. */
    method LockAvailable(worker: Id, topics: set<string>, until: Option<real>, maxTasks: int, usePriority: bool, readable: nat -> bool,
                         ghost b: Board)
      returns (locked: set<nat>, ok: bool)
      requires Numbered() && View() == b
      modifies this`tasks
      ensures Numbered() && View() == b.(tasks := ClaimAll(b.tasks, OwnedBy(locked, worker), until))
      ensures Served(b.tasks, Fetchable(b, topics), locked, maxTasks, usePriority, readable, ok)
      ensures LockedFor(b.tasks, worker, until, locked, tasks)
    {
      var available := set t | t in tasks && tasks[t].topic in topics && Free(tasks[t], now);
      assert available == Fetchable(b, topics);
      locked, ok := ClaimLoop(available, worker, until, maxTasks, usePriority, readable, b);
      FetchedExactly(b, worker, topics, until, maxTasks, usePriority, readable, locked, ok);
    }

    // --- reports of the holder -------------------------------------------------------------------

    /** `extend_lock` */
    method ExtendLock(t: nat, w: Id, lockMs: int) returns (r: Result<ExternalTask>)
      requires Valid()
      modifies this`tasks
      ensures Valid() && (r.Ok? <==> Holds(old(View()), t, w))
      ensures if r.Ok? then Transition(old(View()), Extend(t, w, lockMs), View()) else View() == old(View())
      ensures r.Ok? ==> && tasks == old(tasks)[t := r.value]
                        && r.value == old(tasks)[t].(lockUntil := Some(now + lockMs as real / 1000.0))
    {
      ghost var b := View();
      var held := RequireLocked(t, w);
      if held.Err? { return held; }
      var task := held.value.(lockUntil := After(now, lockMs));
      tasks := tasks[t := task];
      ReportedKeeps(b, Extend(t, w, lockMs), View());
      return Ok(task);
    }

    /** `unlock` */
    method UnlockTask(t: nat, w: Id) returns (r: Result<ExternalTask>)
      requires Valid()
      modifies this`tasks
      ensures Valid() && (r.Ok? <==> Holds(old(View()), t, w))
      ensures if r.Ok? then Transition(old(View()), Unlock(t, w), View()) else View() == old(View())
      ensures r.Ok? ==> && tasks == old(tasks)[t := r.value]
                        && r.value == old(tasks)[t].(state := CREATED, worker := None, lockUntil := None, availableAt := None)
    {
      ghost var b := View();
      var held := RequireLocked(t, w);
      if held.Err? { return held; }
      var task := held.value.(state := CREATED, worker := None, lockUntil := None, availableAt := None);
      tasks := tasks[t := task];
      ReportedKeeps(b, Unlock(t, w), View());
      return Ok(task);
    }

    /** `bpmn_error` */
    method BpmnError(t: nat, w: Id) returns (r: Result<ExternalTask>)
      requires Valid()
      modifies this`tasks
      ensures Valid() && (r.Ok? <==> Holds(old(View()), t, w))
      ensures if r.Ok? then Transition(old(View()), Error(t, w), View()) else View() == old(View())
      ensures r.Ok? ==> && tasks == old(tasks)[t := r.value]
                        && r.value == old(tasks)[t].(state := BPMN_ERROR, worker := None, lockUntil := None, availableAt := None)
    {
      ghost var b := View();
      var held := RequireLocked(t, w);
      if held.Err? { return held; }
      var task := held.value.(state := BPMN_ERROR, worker := None, lockUntil := None, availableAt := None);
      tasks := tasks[t := task];
      ReportedKeeps(b, Error(t, w), View());
      return Ok(task);
    }

    /** `failure` */
    method Failure(t: nat, w: Id, retries: Option<int>, timeoutMs: Option<int>) returns (r: Result<ExternalTask>)
      requires Valid()
      modifies this`tasks, this`incidents, this`nextIncident
      ensures Valid() && (r.Ok? <==> Holds(old(View()), t, w))
      ensures if r.Ok? then Transition(old(View()), Fail(t, w, retries, timeoutMs, old(nextIncident)), View()) else View() == old(View())
      ensures r.Ok? ==> && tasks == old(tasks)[t := r.value]
                        && FailedAs(old(tasks)[t], if retries.Some? then retries.value else old(tasks)[t].retriesLeft - 1, timeoutMs, now, r.value)
      ensures r.Ok? ==> if r.value.state.INCIDENT?
                        then old(nextIncident) !in old(incidents) && incidents == old(incidents)[old(nextIncident) := Incident(t, false)]
                        else incidents == old(incidents)
    {
      ghost var b := View();
      var held := RequireLocked(t, w);
      if held.Err? { return held; }
      FailureCommitted(b, t, w, retries, timeoutMs, nextIncident);
      var task := Requeue(t, retries, timeoutMs);
      FailedExactly(held.value, now, retries, timeoutMs);
      return Ok(task);
    }

    /** The failed task goes back into the queue, or an incident is opened. */
    method Requeue(t: nat, retries: Option<int>, timeoutMs: Option<int>) returns (task: ExternalTask)
      requires Numbered() && t in tasks
      modifies this`tasks, this`incidents, this`nextIncident
      ensures Numbered() && View() == AfterFailure(old(View()), t, retries, timeoutMs, old(nextIncident))
      ensures task == Failed(old(tasks)[t], now, retries, timeoutMs)
    {
      task := tasks[t];
      var remaining := if retries.Some? then retries.value else task.retriesLeft - 1;
      if remaining < 0 { remaining := 0; }
      task := task.(worker := None, lockUntil := None, retriesLeft := remaining);
      if remaining > 0 {
        var backoff := if timeoutMs.Some? then timeoutMs.value else BackoffMs(remaining);
        task := task.(state := CREATED, availableAt := After(now, backoff));
        tasks := tasks[t := task];
      } else {
        task := task.(state := INCIDENT, availableAt := None);
        tasks := tasks[t := task];
        incidents := incidents[nextIncident := Incident(t, false)];
        nextIncident := nextIncident + 1;
      }
    }

    /** `resolve_incident` */
    method ResolveIncident(k: nat) returns (r: Result<Incident>)
      requires Valid()
      modifies this`tasks, this`incidents
      ensures Valid() && (r.Ok? <==> k in old(incidents))
      ensures if r.Ok? then Transition(old(View()), Resolve(k), View()) else View() == old(View())
      ensures r.Ok? && old(Tidy(View())) ==> (Tidy(View()) <==> old(ResolvesOnce(View(), k)))
      ensures r.Ok? ==> r.value == Incident(old(incidents)[k].task, true) && incidents == old(incidents)[k := r.value]
      ensures r.Ok? ==> tasks == RequeuedWith(old(tasks), r.value.task, cases, bindings)
    {
      if k !in incidents { return Err(NotExecutable("404")); }
      ResolveKeeps(View(), Resolve(k), AfterResolve(View(), k));
      if Tidy(View()) { ResolveTidyIff(View(), k, AfterResolve(View(), k)); }
      ghost var before := View();
      Close(k);
      ResolvedExactly(before, before.incidents[k].task);
      return Ok(incidents[k]);
    }

    /** The task of the incident goes back into the queue, the incident is closed. */
    method Close(k: nat)
      requires Numbered() && k in incidents
      modifies this`tasks, this`incidents
      ensures Numbered() && View() == AfterResolve(old(View()), k)
    {
      var t := incidents[k].task;
      if t in tasks && tasks[t].state.INCIDENT? {
        var task := tasks[t];
        var budget := 5;
        if task.instance in cases && task.Step() in bindings { budget := bindings[task.Step()].retryMax; }
        if budget < 1 { budget := 1; }
        tasks := tasks[t := task.(state := CREATED, retriesLeft := budget, worker := None, lockUntil := None, availableAt := None)];
      }
      incidents := incidents[k := incidents[k].(resolved := true)];
    }

    // --- completion --------------------------------------------------------------------------------

    /** The nodes in the order in which the engine scans them; any order will do. */
    method ScanOrder(g: Schema) returns (order: seq<Id>)
      ensures Lists(order, g)
    {
      order := [];
      var left := g.nodes.Keys;
      while left != {}
        invariant left <= g.nodes.Keys
        invariant forall n :: n in order <==> n in g.nodes && n !in left
        decreases left
      {
        var n :| n in left;
        left := left - {n};
        order := order + [n];
      }
    }

    /** The engine call of `complete`. */
    method Advance(c: L.Case, n: Id, written: map<Id, Value>) returns (r: Result<L.Case>)
      requires L.Sound(c)
      ensures r.Ok? ==> L.Step(c, L.Complete(n, written), r.value)
      ensures r.Err? ==> forall d :: !L.Step(c, L.Complete(n, written), d)
    {
      FlatteningIsRunnable(c.schema, c.term);
      var order := ScanOrder(c.schema);
      var advanced := CompleteActivity(c.instance, c.schema, order, n, written);
      r := if advanced.Ok? then Ok(c.(instance := advanced.value)) else Err(advanced.error);
    }

    /** `complete`; `outputs` are the reported variables as data element writes, None if they are rejected. */
    method CompleteTask(t: nat, w: Id, outputs: Option<map<Id, Value>>) returns (r: Result<ExternalTask>, ghost next: Option<L.Case>)
      requires Valid()
      modifies this`tasks, this`cases, this`log
      ensures Valid() && (r.Ok? <==> next.Some?)
      ensures r.Ok? ==> outputs.Some? && Transition(old(View()), Complete(t, w, outputs.value, next.value), View())
      ensures r.Err? ==> View() == old(View())
      ensures r.Err? && outputs.Some? ==> Refused(old(View()), t, w, outputs.value)
      ensures r.Ok? ==> && r.value == old(tasks)[t].(state := DONE, lockUntil := None, availableAt := None) && tasks == old(tasks)[t := r.value]
                        && cases == old(cases)[r.value.instance := next.value] && log == old(log) + [(r.value.instance, r.value.node)]
      ensures r.Ok? ==> r.value.instance in old(cases) && Advanced(old(cases)[r.value.instance], r.value.node, outputs.value, next.value)
    {
      ghost var b := View();
      if outputs.None? { return Err(NotExecutable("422")), None; }
      var advanced := Report(t, w, outputs.value);
      if advanced.Err? { return Err(advanced.error), None; }
      var task := Book(t, advanced.value);
      next := Some(advanced.value);
      ReportCommitted(b, t, w, outputs.value, advanced.value);
      SoundCase(b.cases, b.tasks[t].instance);
      L.CompleteMeans(b.cases[b.tasks[t].instance], b.tasks[t].node, outputs.value, advanced.value);
      return Ok(task), next;
    }

    /** The advanced instance is stored and the task closed. */
    method Book(t: nat, d: L.Case) returns (task: ExternalTask)
      requires Numbered() && t in tasks
      modifies this`tasks, this`cases, this`log
      ensures Numbered() && View() == AfterReport(old(View()), t, d) && task == tasks[t]
    {
      task := tasks[t];
      cases := cases[task.instance := d];
      log := log + [task.Step()];
      task := task.(state := DONE, lockUntil := None, availableAt := None);
      tasks := tasks[t := task];
    }

    /** The checks of `complete` and its engine call. */
    method Report(t: nat, w: Id, written: map<Id, Value>) returns (r: Result<L.Case>)
      requires Valid()
      ensures r.Ok? ==> Holds(View(), t, w) && tasks[t].instance in cases
      ensures r.Ok? ==> L.Step(cases[tasks[t].instance], L.Complete(tasks[t].node, written), r.value)
      ensures r.Err? ==> Refused(View(), t, w, written)
    {
      var held := RequireLocked(t, w);
      if held.Err? { return Err(held.error); }
      var task := held.value;
      if task.instance !in cases { return Err(NotExecutable("409")); }
      SoundCase(cases, task.instance);
      r := Advance(cases[task.instance], task.node, written);
      if r.Err? { StepRefused(View(), t, w, written); }
    }
  }
}

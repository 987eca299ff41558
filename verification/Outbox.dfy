/**
 The webhook outbox: durable entries, a delivery log, back-off retries with a dead-letter state,
 and a circuit breaker per target host. Every history keeps the books: an entry's deliveries are
 its attempts, finished entries are never posted again, and the breaker's state is a function of
 the posts made so far.
 */
module Outbox {
  import opened Model
  import ExternalTasks

  datatype OutboxState = PENDING | DELIVERED | FAILED | DEAD

  datatype Subscription = Subscription(url: string, events: set<string>, active: bool)

  datatype Entry = Entry(subscription: Id, event: string, url: string, state: OutboxState, attempts: nat, maxAttempts: int,
                         nextAttempt: real)
  {
    predicate Over() { state.DELIVERED? || state.DEAD? }

    /** `dispatch_pending` looks at this entry at time `now`. */
    predicate Due(now: real) { !Over() && nextAttempt <= now }
  }

  datatype Delivery = Delivery(entry: nat, attempt: nat, at: real, ok: bool)

  /** One call of the transport; `dispatched` distinguishes `dispatch_pending` from `test_delivery`. */
  datatype Post = Post(host: string, at: real, ok: bool, dispatched: bool)

  /** The settings of a dispatcher; `hostOf` is the circuit key of a URL. */
  datatype Settings = Settings(threshold: int, cooldown: real, hostOf: string -> string)

  datatype Box = Box(entries: map<nat, Entry>, deliveries: seq<Delivery>, circuit: map<string, (int, real)>, now: real, log: seq<Post>)

  // --- what one delivery does -------------------------------------------------------------------

  /** `_backoff_ms` of the outbox. */
  function BackoffMs(attempts: nat): int {
    var ms := 2000 * ExternalTasks.Pow2(if attempts > 1 then attempts - 1 else 0);
    if ms <= 300000 then ms else 300000
  }

  /** The earliest time of the next attempt after `attempts` failures. */
  function RetryAt(now: real, attempts: nat): real {
    now + BackoffMs(attempts) as real / 1000.0
  }

  /** The seconds until the next attempt: two after the first failure, doubled with every one more, five minutes at most. */
  lemma RetrySeconds(now: real, attempts: nat)
    ensures RetryAt(now, attempts) == now +
      if attempts <= 1 then 2.0 else if attempts == 2 then 4.0 else if attempts == 3 then 8.0 else if attempts == 4 then 16.0
      else if attempts == 5 then 32.0 else if attempts == 6 then 64.0 else if attempts == 7 then 128.0 else if attempts == 8 then 256.0
      else 300.0
  {
    assert ExternalTasks.Pow2(4) == 16;
    assert ExternalTasks.Pow2(8) == 256;
    if attempts >= 9 { ExternalTasks.Pow2Grows(8, attempts - 1); }
  }

  function Attempted(entry: Entry, ok: bool, now: real): Entry {
    var attempt := entry.attempts + 1;
    if ok then entry.(attempts := attempt, state := DELIVERED, nextAttempt := now)
    else if attempt >= entry.maxAttempts then entry.(attempts := attempt, state := DEAD, nextAttempt := now)
    else entry.(attempts := attempt, state := FAILED, nextAttempt := RetryAt(now, attempt))
  }

  function OpenUntil(s: Settings, failures: int, now: real): real {
    if failures >= s.threshold then now + s.cooldown else 0.0
  }

  /** `_record_circuit` */
  function Recorded(s: Settings, circuit: map<string, (int, real)>, host: string, ok: bool, now: real): map<string, (int, real)> {
    if ok then circuit - {host}
    else
      var failures := (if host in circuit then circuit[host].0 else 0) + 1;
      circuit[host := (failures, OpenUntil(s, failures, now))]
  }

  /** `_circuit_open` */
  predicate CircuitOpen(s: Settings, b: Box, url: string) {
    s.hostOf(url) in b.circuit && b.circuit[s.hostOf(url)].1 > b.now
  }

  /** `_deliver` */
  function Delivered(s: Settings, b: Box, e: nat, ok: bool, dispatched: bool): Box
    requires e in b.entries
  {
    var entry := b.entries[e];
    var host := s.hostOf(entry.url);
    Box(b.entries[e := Attempted(entry, ok, b.now)], b.deliveries + [Delivery(e, entry.attempts + 1, b.now, ok)],
        Recorded(s, b.circuit, host, ok, b.now), b.now, b.log + [Post(host, b.now, ok, dispatched)])
  }

  // --- the books -----------------------------------------------------------------------------------

  /** The deliveries of one entry, in order. */
  function Own(ds: seq<Delivery>, e: nat): seq<Delivery> {
    if ds == [] then [] else Own(ds[..|ds| - 1], e) + if ds[|ds| - 1].entry == e then [ds[|ds| - 1]] else []
  }

  /** Failures of a host since its last success. */
  function Trailing(log: seq<Post>, host: string): nat {
    if log == [] then 0
    else
      var last := log[|log| - 1];
      if last.host != host then Trailing(log[..|log| - 1], host)
      else if last.ok then 0 else 1 + Trailing(log[..|log| - 1], host)
  }

  /** The time of the last post to a host. */
  function LastAt(log: seq<Post>, host: string): Option<real> {
    if log == [] then None
    else if log[|log| - 1].host == host then Some(log[|log| - 1].at)
    else LastAt(log[..|log| - 1], host)
  }

  /** What the breaker must hold for a host. */
  function CircuitOf(s: Settings, log: seq<Post>, host: string): Option<(int, real)> {
    var failures := Trailing(log, host);
    if failures == 0 || LastAt(log, host).None? then None
    else Some((failures, OpenUntil(s, failures, LastAt(log, host).value)))
  }

  function Get(circuit: map<string, (int, real)>, host: string): Option<(int, real)> {
    if host in circuit then Some(circuit[host]) else None
  }

  /** The breaker's state is a function of the posts. */
  ghost predicate CircuitOk(s: Settings, b: Box) {
    forall host {:trigger Get(b.circuit, host)} :: Get(b.circuit, host) == CircuitOf(s, b.log, host)
  }

  /** Once a host has failed `threshold` times in a row, dispatches to it are a cool-down apart. */
  ghost predicate Spaced(s: Settings, log: seq<Post>) {
    log != [] ==> Spaced(s, log[..|log| - 1]) && SpacedLast(s, log[..|log| - 1], log[|log| - 1])
  }

  ghost predicate SpacedLast(s: Settings, before: seq<Post>, post: Post) {
    post.dispatched && Trailing(before, post.host) >= s.threshold && Trailing(before, post.host) > 0 ==>
      LastAt(before, post.host).Some? && post.at >= LastAt(before, post.host).value + s.cooldown
  }

  /** The log of one entry: numbered attempts, apart by the back-off, all but the last one failed. */
  ghost predicate AttemptsOk(ds: seq<Delivery>) {
    && (forall k :: 0 <= k < |ds| ==> ds[k].attempt == k + 1)
    && (forall k :: 0 <= k < |ds| - 1 ==> !ds[k].ok && ds[k + 1].at >= RetryAt(ds[k].at, k + 1))
  }

  /** An entry and its log. */
  ghost predicate EntryOk(entry: Entry, ds: seq<Delivery>) {
    && AttemptsOk(ds) && entry.attempts == |ds|
    && (entry.state.PENDING? <==> ds == [])
    && (entry.state.DELIVERED? <==> ds != [] && ds[|ds| - 1].ok)
    && (entry.state.FAILED? <==> ds != [] && !ds[|ds| - 1].ok && |ds| < entry.maxAttempts)
    && (entry.state.FAILED? ==> entry.nextAttempt == RetryAt(ds[|ds| - 1].at, |ds|))
    && (|ds| <= 1 || |ds| <= entry.maxAttempts)
  }

  ghost predicate EntriesOk(b: Box) {
    && (forall e :: e in b.entries ==> EntryOk(b.entries[e], Own(b.deliveries, e)))
    && (forall d :: d in b.deliveries ==> d.entry in b.entries)
  }

  ghost predicate Good(s: Settings, b: Box) {
    EntriesOk(b) && CircuitOk(s, b) && Spaced(s, b.log)
  }

  // --- events ----------------------------------------------------------------------------------------

  datatype Event =
    | Tick(now: real)
    | Enqueue(id: nat, entry: Entry)                 // emit, push, and the first half of test_delivery
    | Dispatch(id: nat, ok: bool)                    // one delivery of dispatch_pending
    | Test(id: nat, ok: bool)                        // the delivery of test_delivery

  predicate IsNew(entry: Entry) {
    entry.state.PENDING? && entry.attempts == 0
  }

  ghost predicate Transition(s: Settings, b: Box, event: Event, b': Box) {
    match event
    case Tick(now) => now >= b.now && b' == b.(now := now)
    case Enqueue(e, entry) => e !in b.entries && IsNew(entry) && b' == b.(entries := b.entries[e := entry])
    case Dispatch(e, ok) =>
      && e in b.entries && b.entries[e].Due(b.now) && !CircuitOpen(s, b, b.entries[e].url)
      && b' == Delivered(s, b, e, ok, true)
    case Test(e, ok) => e in b.entries && IsNew(b.entries[e]) && b' == Delivered(s, b, e, ok, false)
  }

  lemma {:induction false} OwnGrows(ds: seq<Delivery>, d: Delivery, e: nat)
    ensures Own(ds + [d], e) == Own(ds, e) + if d.entry == e then [d] else []
  {
    assert (ds + [d])[..|ds|] == ds;
  }

  lemma {:induction false} NoneOwn(ds: seq<Delivery>, e: nat)
    requires forall d :: d in ds ==> d.entry != e
    ensures Own(ds, e) == []
  {
    if ds != [] {
      assert ds[|ds| - 1] in ds;
      NoneOwn(ds[..|ds| - 1], e);
    }
  }

  /** A delivery is booked with its entry. */
  lemma AttemptOk(entry: Entry, ds: seq<Delivery>, e: nat, ok: bool, now: real)
    requires EntryOk(entry, ds) && (IsNew(entry) || entry.Due(now))
    ensures EntryOk(Attempted(entry, ok, now), ds + [Delivery(e, entry.attempts + 1, now, ok)])
  {
    var longer := ds + [Delivery(e, entry.attempts + 1, now, ok)];
    forall k | 0 <= k < |longer| - 1 ensures !longer[k].ok && longer[k + 1].at >= RetryAt(longer[k].at, k + 1) {
      if k < |ds| - 1 { assert longer[k + 1] == ds[k + 1]; }
    }
  }

  lemma EntryAfter(s: Settings, b: Box, e: nat, ok: bool, dispatched: bool, f: nat)
    requires e in b.entries && f in b.entries && EntryOk(b.entries[f], Own(b.deliveries, f))
    requires IsNew(b.entries[e]) || b.entries[e].Due(b.now)
    ensures var b' := Delivered(s, b, e, ok, dispatched); EntryOk(b'.entries[f], Own(b'.deliveries, f))
  {
    OwnGrows(b.deliveries, Delivery(e, b.entries[e].attempts + 1, b.now, ok), f);
    if f == e {
      AttemptOk(b.entries[e], Own(b.deliveries, e), e, ok, b.now);
    } else {
      assert Own(b.deliveries, f) + [] == Own(b.deliveries, f);
    }
  }

  lemma DeliverEntries(s: Settings, b: Box, e: nat, ok: bool, dispatched: bool)
    requires EntriesOk(b) && e in b.entries && (IsNew(b.entries[e]) || b.entries[e].Due(b.now))
    ensures EntriesOk(Delivered(s, b, e, ok, dispatched))
  {
    var b' := Delivered(s, b, e, ok, dispatched);
    forall f | f in b'.entries ensures EntryOk(b'.entries[f], Own(b'.deliveries, f)) { EntryAfter(s, b, e, ok, dispatched, f); }
    forall d | d in b'.deliveries ensures d.entry in b'.entries { assert d in b.deliveries || d.entry == e; }
  }

  /** The breaker's update is the function's: one more post. */
  lemma PostRecorded(s: Settings, circuit: map<string, (int, real)>, log: seq<Post>, post: Post, host: string)
    requires Get(circuit, host) == CircuitOf(s, log, host) && (Trailing(log, host) > 0 ==> LastAt(log, host).Some?)
    ensures Get(Recorded(s, circuit, post.host, post.ok, post.at), host) == CircuitOf(s, log + [post], host)
  {
    assert (log + [post])[..|log|] == log;
  }

  lemma {:induction false} FailedBefore(log: seq<Post>, host: string)
    ensures Trailing(log, host) > 0 ==> LastAt(log, host).Some?
  {
    if log != [] { FailedBefore(log[..|log| - 1], host); }
  }

  lemma DeliverCircuit(s: Settings, b: Box, e: nat, ok: bool, dispatched: bool)
    requires CircuitOk(s, b) && e in b.entries
    ensures CircuitOk(s, Delivered(s, b, e, ok, dispatched))
  {
    var b' := Delivered(s, b, e, ok, dispatched);
    var post := Post(s.hostOf(b.entries[e].url), b.now, ok, dispatched);
    forall host ensures Get(b'.circuit, host) == CircuitOf(s, b'.log, host) {
      FailedBefore(b.log, host);
      assert Get(b.circuit, host) == CircuitOf(s, b.log, host);
      PostRecorded(s, b.circuit, b.log, post, host);
    }
  }

  /** The breaker lets a dispatch through only after the cool-down. */
  lemma DeliverSpaced(s: Settings, b: Box, e: nat, ok: bool, dispatched: bool)
    requires CircuitOk(s, b) && Spaced(s, b.log) && e in b.entries
    requires dispatched ==> !CircuitOpen(s, b, b.entries[e].url)
    ensures Spaced(s, Delivered(s, b, e, ok, dispatched).log)
  {
    var host := s.hostOf(b.entries[e].url);
    var post := Post(host, b.now, ok, dispatched);
    assert (b.log + [post])[..|b.log|] == b.log;
    FailedBefore(b.log, host);
    assert Get(b.circuit, host) == CircuitOf(s, b.log, host);
  }

  lemma DeliverKeeps(s: Settings, b: Box, e: nat, ok: bool, dispatched: bool)
    requires Good(s, b) && e in b.entries && (IsNew(b.entries[e]) || b.entries[e].Due(b.now))
    requires dispatched ==> !CircuitOpen(s, b, b.entries[e].url)
    ensures Good(s, Delivered(s, b, e, ok, dispatched))
  {
    DeliverEntries(s, b, e, ok, dispatched);
    DeliverCircuit(s, b, e, ok, dispatched);
    DeliverSpaced(s, b, e, ok, dispatched);
  }

  lemma EnqueueKeeps(s: Settings, b: Box, e: nat, entry: Entry)
    requires Good(s, b) && e !in b.entries && IsNew(entry)
    ensures Good(s, b.(entries := b.entries[e := entry]))
  {
    NoneOwn(b.deliveries, e);
  }

  /** Every event keeps the books. */
  lemma TransitionKeeps(s: Settings, b: Box, event: Event, b': Box)
    requires Good(s, b) && Transition(s, b, event, b')
    ensures Good(s, b')
  {
    match event
    case Tick(_) =>
      assert EntriesOk(b');
    case Enqueue(e, entry) => EnqueueKeeps(s, b, e, entry);
    case Dispatch(e, ok) => DeliverKeeps(s, b, e, ok, true);
    case Test(e, ok) => DeliverKeeps(s, b, e, ok, false);
  }

  // --- histories ----------------------------------------------------------------------------------------

  ghost predicate History(s: Settings, boxes: seq<Box>, events: seq<Event>) {
    && |boxes| == |events| + 1
    && (events != [] ==>
          var k := |events| - 1;
          History(s, boxes[..k + 1], events[..k]) && Transition(s, boxes[k], events[k], boxes[k + 1]))
  }

  lemma {:induction false} HistoryKeeps(s: Settings, boxes: seq<Box>, events: seq<Event>)
    requires History(s, boxes, events) && Good(s, boxes[0])
    ensures Good(s, boxes[|events|])
  {
    if events != [] {
      var k := |events| - 1;
      HistoryKeeps(s, boxes[..k + 1], events[..k]);
      TransitionKeeps(s, boxes[k], events[k], boxes[k + 1]);
    }
  }

  /**
   The account of an entry: as many deliveries as attempts, never more than one or the limit; only
   the last one can have succeeded, and the entry is DELIVERED exactly then; consecutive attempts
   are at least the back-off apart; a dead letter has used up its limit.
   */
  ghost predicate Balanced(entry: Entry, ds: seq<Delivery>) {
    && |ds| == entry.attempts && (|ds| <= 1 || |ds| <= entry.maxAttempts)
    && (entry.state.DELIVERED? <==> exists k :: 0 <= k < |ds| && ds[k].ok)
    && (forall k :: 0 <= k < |ds| && ds[k].ok ==> k == |ds| - 1)
    && (forall k :: 0 <= k < |ds| - 1 ==> ds[k + 1].at >= RetryAt(ds[k].at, k + 1))
    && (entry.state.DEAD? ==> |ds| >= entry.maxAttempts && |ds| >= 1)
  }

  lemma OkBalances(entry: Entry, ds: seq<Delivery>)
    requires EntryOk(entry, ds)
    ensures Balanced(entry, ds)
  {}

  /** In every history every entry's account balances. */
  lemma Accounting(s: Settings, boxes: seq<Box>, events: seq<Event>, e: nat)
    requires History(s, boxes, events) && Good(s, boxes[0]) && e in boxes[|events|].entries
    ensures Balanced(boxes[|events|].entries[e], Own(boxes[|events|].deliveries, e))
  {
    HistoryKeeps(s, boxes, events);
    OkBalances(boxes[|events|].entries[e], Own(boxes[|events|].deliveries, e));
  }

  /** Nothing disappears, targets and limits never change, and finished entries stay as they are. */
  ghost predicate Continues(b: Box, b': Box) {
    && b.deliveries <= b'.deliveries && b.log <= b'.log && b'.now >= b.now
    && forall e :: e in b.entries ==> EntryContinues(b, b', e)
  }

  ghost predicate EntryContinues(b: Box, b': Box, e: nat)
    requires e in b.entries
  {
    && e in b'.entries && b'.entries[e].url == b.entries[e].url && b'.entries[e].maxAttempts == b.entries[e].maxAttempts
    && (b.entries[e].Over() ==> b'.entries[e] == b.entries[e] && Own(b'.deliveries, e) == Own(b.deliveries, e))
  }

  lemma TransitionContinues(s: Settings, b: Box, event: Event, b': Box)
    requires Transition(s, b, event, b')
    ensures Continues(b, b')
  {
    match event
    case Tick(_) =>
    case Enqueue(_, _) =>
    case Dispatch(e, ok) => DeliverContinues(s, b, e, ok, true);
    case Test(e, ok) => DeliverContinues(s, b, e, ok, false);
  }

  lemma DeliverContinues(s: Settings, b: Box, e: nat, ok: bool, dispatched: bool)
    requires e in b.entries && !b.entries[e].Over()
    ensures Continues(b, Delivered(s, b, e, ok, dispatched))
  {
    forall f | f in b.entries ensures EntryContinues(b, Delivered(s, b, e, ok, dispatched), f) {
      OwnGrows(b.deliveries, Delivery(e, b.entries[e].attempts + 1, b.now, ok), f);
    }
  }

  lemma ContinuesTransitive(a: Box, b: Box, c: Box)
    requires Continues(a, b) && Continues(b, c)
    ensures Continues(a, c)
  {
    forall e | e in a.entries ensures EntryContinues(a, c, e) { assert EntryContinues(a, b, e) && EntryContinues(b, c, e); }
  }

  /** Delivered and dead entries are never posted again, in any history. */
  lemma {:induction false} HistoryContinues(s: Settings, boxes: seq<Box>, events: seq<Event>)
    requires History(s, boxes, events)
    ensures Continues(boxes[0], boxes[|events|])
  {
    if events != [] {
      var k := |events| - 1;
      HistoryContinues(s, boxes[..k + 1], events[..k]);
      TransitionContinues(s, boxes[k], events[k], boxes[k + 1]);
      ContinuesTransitive(boxes[0], boxes[k], boxes[k + 1]);
    }
  }

  /**
   When the breaker is open: after `threshold` failures of the host in a row, one at least, until the
   cool-down since the last of them is over. With fewer failures it is closed.
   */
  lemma OpenIff(s: Settings, b: Box, url: string)
    requires CircuitOk(s, b) && b.now >= 0.0
    ensures CircuitOpen(s, b, url) <==>
              var host := s.hostOf(url);
              && Trailing(b.log, host) >= 1 && Trailing(b.log, host) >= s.threshold
              && LastAt(b.log, host).Some? && LastAt(b.log, host).value + s.cooldown > b.now
  {
    var host := s.hostOf(url);
    FailedBefore(b.log, host);
    assert Get(b.circuit, host) == CircuitOf(s, b.log, host);
  }

  /** The breaker over every history: dispatches to a failing host are a cool-down apart. */
  lemma CoolDown(s: Settings, boxes: seq<Box>, events: seq<Event>, j: nat)
    requires History(s, boxes, events) && Good(s, boxes[0]) && j < |boxes[|events|].log|
    ensures SpacedLast(s, boxes[|events|].log[..j], boxes[|events|].log[j])
  {
    HistoryKeeps(s, boxes, events);
    SpacedAt(s, boxes[|events|].log, j);
  }

  lemma {:induction false} SpacedAt(s: Settings, log: seq<Post>, j: nat)
    requires Spaced(s, log) && j < |log|
    ensures SpacedLast(s, log[..j], log[j])
  {
    if j < |log| - 1 {
      var init := log[..|log| - 1];
      SpacedAt(s, init, j);
      assert init[..j] == log[..j];
    }
  }

  // --- what a request does -------------------------------------------------------------------------------

  /** Some history leads from `b` to `c`. */
  ghost predicate Leads(s: Settings, b: Box, c: Box) {
    exists boxes, events :: History(s, boxes, events) && boxes[0] == b && boxes[|events|] == c
  }

  lemma LeadsNowhere(s: Settings, b: Box)
    ensures Leads(s, b, b)
  {
    assert History(s, [b], []);
  }

  lemma LeadsOn(s: Settings, b: Box, c: Box, event: Event, d: Box)
    requires Leads(s, b, c) && Transition(s, c, event, d)
    ensures Leads(s, b, d)
  {
    var boxes, events :| History(s, boxes, events) && boxes[0] == b && boxes[|events|] == c;
    var longer, more := boxes + [d], events + [event];
    assert longer[..|events| + 1] == boxes && more[..|events|] == events;
    assert History(s, longer, more) && longer[0] == b && longer[|more|] == d;
  }

  /** Whatever a request does, the books stay in order, nothing disappears and nothing finished is posted again. */
  lemma LeadsKeeps(s: Settings, b: Box, c: Box)
    requires Leads(s, b, c)
    ensures (Good(s, b) ==> Good(s, c)) && Continues(b, c)
  {
    var boxes, events :| History(s, boxes, events) && boxes[0] == b && boxes[|events|] == c;
    HistoryContinues(s, boxes, events);
    if Good(s, b) { HistoryKeeps(s, boxes, events); }
  }

  lemma EmptyGood(s: Settings, now: real)
    ensures Good(s, Box(map[], [], map[], now, []))
  {}
}

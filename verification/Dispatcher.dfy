/**
 The outbox dispatcher: it enqueues events for their subscribers and delivers what is due. The
 transport's answers are inputs; every method keeps the books of the outbox.
 */
module Dispatcher {
  import opened Model
  import opened Outbox

  function PendingFor(id: Id, sub: Subscription, event: string, limit: int, now: real): Entry {
    Entry(id, event, sub.url, PENDING, 0, limit, now)
  }

  /** The subscriptions an event is enqueued for. */
  function Subscribers(subs: map<Id, Subscription>, event: string): set<Id> {
    set i | i in subs && subs[i].active && event in subs[i].events
  }

  /** `created` gives each subscriber in it one new entry of its own. */
  ghost predicate Emitted(subs: map<Id, Subscription>, event: string, limit: int, b: Box, created: map<Id, nat>, b': Box) {
    && created.Keys <= subs.Keys
    && b' == b.(entries := b'.entries) && b'.entries.Keys == b.entries.Keys + created.Values
    && (forall e :: e in b.entries ==> b'.entries[e] == b.entries[e])
    && (forall i :: i in created ==> created[i] !in b.entries && b'.entries[created[i]] == PendingFor(i, subs[i], event, limit, b.now))
    && (forall i, j :: i in created && j in created && created[i] == created[j] ==> i == j)
  }

  lemma EmitOne(subs: map<Id, Subscription>, event: string, limit: int, b: Box, created: map<Id, nat>, c: Box, i: Id, e: nat)
    requires Emitted(subs, event, limit, b, created, c) && i in subs && i !in created && e !in c.entries
    ensures Emitted(subs, event, limit, b, created[i := e], c.(entries := c.entries[e := PendingFor(i, subs[i], event, limit, b.now)]))
  {
    var created' := created[i := e];
    forall f ensures f in created'.Values <==> f in created.Values || f == e {
      if f in created.Values { var j :| j in created && created[j] == f; assert created'[j] == f; }
      if f == e { assert created'[i] == e; }
    }
    forall j | j in created ensures created[j] in c.entries { assert created[j] in created.Values; }
  }

  /** One entry during a pass of `dispatch_pending` that started from `b`; `seen` says it has been looked at. */
  ghost predicate PassEntry(s: Settings, b: Box, c: Box, e: nat, seen: bool)
    requires e in b.entries
  {
    && e in c.entries
    && (!seen || !b.entries[e].Due(b.now) ==> c.entries[e] == b.entries[e])
    && (seen && b.entries[e].Due(b.now) ==>
          || (exists ok :: c.entries[e] == Attempted(b.entries[e], ok, b.now))
          || (c.entries[e] == b.entries[e] && CircuitOpen(s, c, b.entries[e].url)))
  }

  ghost predicate InPass(s: Settings, b: Box, c: Box, left: set<nat>, e: nat)
    requires e in b.entries
  {
    PassEntry(s, b, c, e, e !in left)
  }

  /** Every due entry is attempted once, unless the circuit of its host is open; nothing else changes. */
  ghost predicate Pass(s: Settings, b: Box, c: Box, left: set<nat>) {
    && c.now == b.now && c.entries.Keys == b.entries.Keys && |c.log| - |b.log| == |c.deliveries| - |b.deliveries|
    && b.log <= c.log && (forall k :: |b.log| <= k < |c.log| ==> c.log[k].dispatched && c.log[k].at == b.now)
    && forall e :: e in b.entries ==> InPass(s, b, c, left, e)
  }

  lemma PassDelivers(s: Settings, b: Box, c: Box, left: set<nat>, e: nat, ok: bool)
    requires Pass(s, b, c, left) && e in left && e in b.entries
    requires c.entries[e].Due(c.now) && !CircuitOpen(s, c, c.entries[e].url)
    ensures Pass(s, b, Delivered(s, c, e, ok, true), left - {e})
  {
    var d := Delivered(s, c, e, ok, true);
    assert InPass(s, b, c, left, e);
    forall f | f in b.entries ensures InPass(s, b, d, left - {e}, f) {
      assert InPass(s, b, c, left, f);
      if f == e { assert d.entries[e] == Attempted(b.entries[e], ok, b.now); }
    }
  }

  lemma PassSkips(s: Settings, b: Box, c: Box, left: set<nat>, e: nat)
    requires Pass(s, b, c, left) && e in left && e in b.entries
    requires !c.entries[e].Due(c.now) || CircuitOpen(s, c, c.entries[e].url)
    ensures Pass(s, b, c, left - {e})
  {
    assert InPass(s, b, c, left, e);
    forall f | f in b.entries ensures InPass(s, b, c, left - {e}, f) { assert InPass(s, b, c, left, f); }
  }

  lemma PassStarts(s: Settings, b: Box)
    ensures Pass(s, b, b, b.entries.Keys)
  {}

  lemma OneLess(all: set<Id>, left: set<Id>, i: Id)
    requires i in left
    ensures all - (left - {i}) == (all - left) + if i in all then {i} else {}
  {}

  lemma NothingEmitted(subs: map<Id, Subscription>, event: string, limit: int, b: Box)
    ensures Emitted(subs, event, limit, b, map[], b)
  {}

  /** A ping: a single attempt, after which the entry is over. */
  function TestEntry(id: Id, sub: Subscription, now: real): (entry: Entry)
    ensures IsNew(entry) && forall ok :: Attempted(entry, ok, now).Over()
  {
    Entry(id, "webhook.test", sub.url, PENDING, 0, 1, now)
  }

  /** The breaker after one answer: a success forgets the host, a failure counts, and from the threshold on opens the circuit. */
  predicate CountedAs(circuit: map<string, (int, real)>, host: string, ok: bool, threshold: int, until: real, circuit': map<string, (int, real)>) {
    var failures := if host in circuit then circuit[host].0 + 1 else 1;
    if ok then circuit' == circuit - {host}
    else circuit' == circuit[host := (failures, if failures >= threshold then until else 0.0)]
  }

  /** An entry after one answer: delivered, dead with its last attempt, or failed until the next one is due. */
  predicate AnsweredAs(entry: Entry, ok: bool, now: real, entry': Entry) {
    var n := entry.attempts + 1;
    if ok then entry' == entry.(attempts := n, state := DELIVERED, nextAttempt := now)
    else if n >= entry.maxAttempts then entry' == entry.(attempts := n, state := DEAD, nextAttempt := now)
    else entry' == entry.(attempts := n, state := FAILED, nextAttempt := now +
           if n == 1 then 2.0 else if n == 2 then 4.0 else if n == 3 then 8.0 else if n == 4 then 16.0
           else if n == 5 then 32.0 else if n == 6 then 64.0 else if n == 7 then 128.0 else if n == 8 then 256.0 else 300.0)
  }

  lemma AttemptedExactly(entry: Entry, ok: bool, now: real)
    ensures AnsweredAs(entry, ok, now, Attempted(entry, ok, now))
  {
    RetrySeconds(now, entry.attempts + 1);
  }

  /** An entry that is to be delivered and whose time has come. */
  predicate Pending(entry: Entry, now: real) {
    (entry.state == PENDING || entry.state == FAILED) && entry.nextAttempt <= now
  }

  /** The host has failed often enough in a row, and recently enough, to be left alone. */
  ghost predicate Resting(s: Settings, b: Box, host: string) {
    Trailing(b.log, host) >= 1 && Trailing(b.log, host) >= s.threshold
    && LastAt(b.log, host).Some? && LastAt(b.log, host).value + s.cooldown > b.now
  }

  /** One pass: nothing happens to what is not due; what is due is attempted once, unless its host rests. */
  ghost predicate Worked(s: Settings, b: Box, c: Box) {
    && c.entries.Keys == b.entries.Keys
    && forall e :: e in b.entries ==>
         if !Pending(b.entries[e], b.now) then c.entries[e] == b.entries[e]
         else (exists ok :: AnsweredAs(b.entries[e], ok, b.now, c.entries[e])) || (c.entries[e] == b.entries[e] && Resting(s, c, s.hostOf(b.entries[e].url)))
  }

  lemma PassWorks(s: Settings, b: Box, c: Box)
    requires Pass(s, b, c, {}) && Good(s, c) && c.now >= 0.0
    ensures Worked(s, b, c)
  {
    forall e | e in b.entries
      ensures if !Pending(b.entries[e], b.now) then c.entries[e] == b.entries[e]
              else (exists ok :: AnsweredAs(b.entries[e], ok, b.now, c.entries[e])) || (c.entries[e] == b.entries[e] && Resting(s, c, s.hostOf(b.entries[e].url)))
    {
      assert InPass(s, b, c, {}, e);
      if Pending(b.entries[e], b.now) {
        if ok :| c.entries[e] == Attempted(b.entries[e], ok, b.now) {
          AttemptedExactly(b.entries[e], ok, b.now);
        } else {
          OpenIff(s, c, b.entries[e].url);
        }
      }
    }
  }

  class OutboxDispatcher {
    const settings: Settings
    const maxAttempts: int
    var subscriptions: map<Id, Subscription>
    var entries: map<nat, Entry>
    var deliveries: seq<Delivery>
    var circuit: map<string, (int, real)>
    var now: real
    var nextEntry: nat
    ghost var log: seq<Post>

    ghost function View(): Box
      reads this
    {
      Box(entries, deliveries, circuit, now, log)
    }

    /** The counter that stands for the id generator is ahead of all stored ids. */
    ghost predicate Valid()
      reads this
    {
      forall e :: e in entries ==> e < nextEntry
    }

    constructor (settings: Settings, maxAttempts: int, now: real)
      ensures Valid() && View() == Box(map[], [], map[], now, []) && Good(settings, View()) && subscriptions == map[]
      ensures this.settings == settings && this.maxAttempts == maxAttempts
    {
      EmptyGood(settings, now);
      this.settings, this.maxAttempts, this.now := settings, maxAttempts, now;
      subscriptions, entries, deliveries, circuit, nextEntry, log := map[], map[], [], map[], 0, [];
    }

    /** `_record_circuit` */
    method RecordCircuit(url: string, ok: bool)
      modifies this`circuit
      ensures circuit == Recorded(settings, old(circuit), settings.hostOf(url), ok, now)
      ensures CountedAs(old(circuit), settings.hostOf(url), ok, settings.threshold, now + settings.cooldown, circuit)
    {
      var host := settings.hostOf(url);
      if ok {
        circuit := circuit - {host};
        return;
      }
      var failures := (if host in circuit then circuit[host].0 else 0) + 1;
      var openUntil := if failures >= settings.threshold then now + settings.cooldown else 0.0;
      circuit := circuit[host := (failures, openUntil)];
    }

    /** `_deliver`; `ok` is the transport's answer. */
    method Deliver(e: nat, ok: bool, ghost dispatched: bool) returns (delivery: Delivery)
      requires e in entries
      modifies this`entries, this`deliveries, this`circuit, this`log
      ensures View() == Delivered(settings, old(View()), e, ok, dispatched)
      ensures deliveries == old(deliveries) + [delivery] && delivery == Delivery(e, old(entries)[e].attempts + 1, now, ok)
      ensures e in entries && entries == old(entries)[e := entries[e]] && AnsweredAs(old(entries)[e], ok, now, entries[e])
      ensures log == old(log) + [Post(settings.hostOf(old(entries)[e].url), now, ok, dispatched)]
      ensures CountedAs(old(circuit), settings.hostOf(old(entries)[e].url), ok, settings.threshold, now + settings.cooldown, circuit)
    {
      var entry := entries[e];
      var attempt := entry.attempts + 1;
      entry := entry.(attempts := attempt);
      if ok {
        entry := entry.(state := DELIVERED, nextAttempt := now);
      } else if attempt >= entry.maxAttempts {
        entry := entry.(state := DEAD, nextAttempt := now);
      } else {
        entry := entry.(state := FAILED, nextAttempt := RetryAt(now, attempt));
      }
      log := log + [Post(settings.hostOf(entry.url), now, ok, dispatched)];
      entries := entries[e := entry];
      RecordCircuit(entry.url, ok);
      delivery := Delivery(e, attempt, now, ok);
      deliveries := deliveries + [delivery];
      AttemptedExactly(old(entries)[e], ok, now);
    }

    /** `put_entry` for a new entry. */
    method PutEntry(entry: Entry) returns (e: nat)
      requires Valid() && IsNew(entry)
      modifies this`entries, this`nextEntry
      ensures Valid() && Transition(settings, old(View()), Enqueue(e, entry), View())
    {
      e := nextEntry;
      entries := entries[e := entry];
      nextEntry := nextEntry + 1;
    }

    /** The loop body of `emit`. */
    method EmitTo(i: Id, event: string, created: map<Id, nat>, ghost b: Box) returns (created': map<Id, nat>)
      requires Valid() && i in subscriptions && i !in created && Emitted(subscriptions, event, maxAttempts, b, created, View())
      requires Leads(settings, b, View())
      modifies this`entries, this`nextEntry
      ensures Valid() && Emitted(subscriptions, event, maxAttempts, b, created', View()) && Leads(settings, b, View())
      ensures created'.Keys == created.Keys + if i in Subscribers(subscriptions, event) then {i} else {}
    {
      var sub := subscriptions[i];
      if !sub.active || event !in sub.events { return created; }
      ghost var before := View();
      var entry := PendingFor(i, sub, event, maxAttempts, now);
      var e := PutEntry(entry);
      LeadsOn(settings, b, before, Enqueue(e, entry), View());
      EmitOne(subscriptions, event, maxAttempts, b, created, before, i, e);
      return created[i := e];
    }

    /** `emit`: one entry for every active subscription of the event. */
    method Emit(event: string) returns (created: map<Id, nat>)
      requires Valid()
      modifies this`entries, this`nextEntry
      ensures Valid() && Leads(settings, old(View()), View())
      ensures Emitted(subscriptions, event, maxAttempts, old(View()), created, View())
      ensures created.Keys == Subscribers(subscriptions, event)
      ensures forall i :: i in created <==> i in subscriptions && subscriptions[i].active && event in subscriptions[i].events
      ensures forall i :: i in created ==>
                created[i] in entries && created[i] !in old(entries) && entries[created[i]] == Entry(i, event, subscriptions[i].url, PENDING, 0, maxAttempts, now)
      ensures forall e :: e in entries ==> if e in old(entries) then entries[e] == old(entries)[e] else exists i :: i in created && created[i] == e
      ensures forall e :: e in old(entries) ==> e in entries
    {
      ghost var b := View();
      created := map[];
      NothingEmitted(subscriptions, event, maxAttempts, b);
      LeadsNowhere(settings, b);
      var left := subscriptions.Keys;
      while left != {}
        invariant left <= subscriptions.Keys
        invariant Valid() && Emitted(subscriptions, event, maxAttempts, b, created, View()) && Leads(settings, b, View())
        invariant created.Keys == Subscribers(subscriptions, event) - left
        decreases left
      {
        var i :| i in left;
        OneLess(Subscribers(subscriptions, event), left, i);
        created := EmitTo(i, event, created, b);
        left := left - {i};
      }
    }

    /** `push`: an entry without a subscription. */
    method Push(url: string, event: string, limit: int) returns (e: nat)
      requires Valid()
      modifies this`entries, this`nextEntry
      ensures Valid() && Transition(settings, old(View()), Enqueue(e, Entry("", event, url, PENDING, 0, limit, now)), View())
      ensures e !in old(entries) && entries == old(entries)[e := Entry("", event, url, PENDING, 0, limit, now)]
    {
      e := PutEntry(Entry("", event, url, PENDING, 0, limit, now));
    }

    /** `test_delivery`: an entry with a single attempt, made at once, whatever the circuit says. */
    method TestDelivery(subscription: Id, ok: bool) returns (r: Result<Delivery>, ghost e: nat, ghost mid: Box)
      requires Valid()
      modifies this`entries, this`nextEntry, this`deliveries, this`circuit, this`log
      ensures Valid() && (r.Ok? <==> subscription in subscriptions)
      ensures r.Err? ==> View() == old(View())
      ensures r.Ok? ==>
        && Transition(settings, old(View()), Enqueue(e, TestEntry(subscription, subscriptions[subscription], now)), mid)
        && Transition(settings, mid, Test(e, ok), View()) && r.value == Delivery(e, 1, now, ok)
      ensures r.Ok? ==>
        && e !in old(entries) && deliveries == old(deliveries) + [r.value]
        && entries == old(entries)[e := Entry(subscription, "webhook.test", subscriptions[subscription].url, if ok then DELIVERED else DEAD, 1, 1, now)]
    {
      if subscription !in subscriptions { return Err(NotExecutable("404")), 0, View(); }
      var id := PutEntry(TestEntry(subscription, subscriptions[subscription], now));
      mid := View();
      var delivery := Deliver(id, ok, false);
      return Ok(delivery), id, mid;
    }

    /** The loop body of `dispatch_pending`. */
    method DispatchOne(e: nat, ok: bool, ghost b: Box, ghost left: set<nat>) returns (posted: bool)
      requires Valid() && e in left && left <= b.entries.Keys && Pass(settings, b, View(), left) && Leads(settings, b, View())
      modifies this`entries, this`deliveries, this`circuit, this`log
      ensures Valid() && Pass(settings, b, View(), left - {e}) && Leads(settings, b, View())
      ensures |deliveries| == |old(deliveries)| + if posted then 1 else 0
    {
      var entry := entries[e];
      if entry.Over() || entry.nextAttempt > now || OpenNow(entry.url) {
        PassSkips(settings, b, View(), left, e);
        return false;
      }
      ghost var before := View();
      PassDelivers(settings, b, before, left, e, ok);
      LeadsOn(settings, b, before, Dispatch(e, ok), Delivered(settings, before, e, ok, true));
      var _ := Deliver(e, ok, true);
      return true;
    }

    /** `dispatch_pending`; `answers` gives the transport's answer to the k-th delivery. */
    method DispatchPending(answers: nat -> bool) returns (sent: nat)
      requires Valid()
      modifies this`entries, this`deliveries, this`circuit, this`log
      ensures Valid() && Leads(settings, old(View()), View()) && Pass(settings, old(View()), View(), {})
      ensures sent == |deliveries| - |old(deliveries)|
      ensures old(Good(settings, View())) && now >= 0.0 ==> Worked(settings, old(View()), View())
    {
      ghost var b := View();
      sent := 0;
      PassStarts(settings, b);
      LeadsNowhere(settings, b);
      var left := entries.Keys;
      while left != {}
        invariant left <= b.entries.Keys
        invariant Valid() && Pass(settings, b, View(), left) && Leads(settings, b, View())
        invariant sent == |deliveries| - |b.deliveries|
        decreases left
      {
        var e :| e in left;
        var posted := DispatchOne(e, answers(|deliveries|), b, left);
        if posted { sent := sent + 1; }
        left := left - {e};
      }
      LeadsKeeps(settings, b, View());
      if Good(settings, b) && now >= 0.0 { PassWorks(settings, b, View()); }
    }

    /** `_circuit_open` */
    predicate OpenNow(url: string)
      reads this
    {
      settings.hostOf(url) in circuit && circuit[settings.hostOf(url)].1 > now
    }
  }
}

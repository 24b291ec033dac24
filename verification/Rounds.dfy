/**
 * That undisturbed runs exist: from idle, the clock can pass every due time,
 * lease and idle time, the relay can publish everything, and the worker can run
 * one auto-claim scan and read the stream to its end.
 */
module Rounds {
  import opened Common
  import opened Uuids
  import opened Message
  import opened Tables
  import opened Pipeline
  import opened PipelineShape
  import opened Claiming
  import opened Calm

  predicate Still(s: State, t: State) {
    t.now == s.now && t.policy == s.policy && t.stream == s.stream && t.relays == s.relays
  }

  // ----- reading to the end

  /** A worker handed a page on unchanged tables works it off. */
  lemma WorkPage(s: State, s1: State, env: Env, page: seq<nat>, scan: nat) returns (t: State)
    requires Fit(s, env) && s1.db == s.db && s1.log == s.log && Still(s, s1)
    requires env.worker in s1.workers && s1.workers[env.worker] == Worker(page, Idle, scan)
    requires forall k :: 0 <= k < |page| ==> page[k] < |s.stream|
    ensures Calmly(s1, t, env) && Fit(t, env) && Evolved(s, t, env)
    ensures WorkerMoved(s1, t, env.worker) && t.workers[env.worker] == Worker([], Idle, scan)
  {
    EvolvedRefl(s, s1, env);
    FitKept(s, s1, env);
    t := HandleBatch(s1, env);
    FitKept(s1, t, env);
    EvolvedTrans(s, s1, t, env);
  }

  lemma {:induction false} ReadAll(s: State, env: Env) returns (t: State)
    requires Fit(s, env) && WorkerIdle(s, env) && s.cursor <= |s.stream| && env.readCount > 0
    ensures Calmly(s, t, env) && Still(s, t) && WorkerIdle(t, env) && Evolved(s, t, env)
    ensures t.cursor == |t.stream|
    decreases |s.stream| - s.cursor
  {
    if s.cursor == |s.stream| {
      t := s;
      CalmNone(s, env);
      EvolvedRefl(s, s, env);
    } else {
      CalmRead(s, env);
      var page := ReadPage(s, env.readCount);
      var read := DoRead(s, env.worker, env.readCount);
      var s1 := WorkPage(s, read, env, page, 0);
      t := ReadAll(s1, env);
      CalmTrans(s, read, s1, env);
      CalmTrans(s, s1, t, env);
      EvolvedTrans(s, s1, t, env);
    }
  }

  // ----- the auto-claim scan

  /** A full page: as far as `count` idle entries reach, or to the end of the stream. */
  lemma FullPage(pel: map<nat, PendingEntry>, lo: nat, hi: nat, now: Time, minIdle: Time, count: nat) returns (stop: nat)
    requires lo <= hi && count > 0
    ensures lo <= stop <= hi && (lo < stop || stop == hi)
    ensures |IdlePage(pel, lo, stop, now, minIdle)| <= count
  {
    stop := lo;
    while stop < hi && |IdlePage(pel, lo, stop, now, minIdle)| < count
      invariant lo <= stop <= hi
      invariant |IdlePage(pel, lo, stop, now, minIdle)| <= count
    {
      stop := stop + 1;
    }
  }

  predicate ScanReady(s: State, env: Env) {
    var worker := WorkerOf(s, env.worker);
    worker.batch == [] && worker.phase.Idle? && worker.scan <= |s.stream|
  }

  /** A scan, from wherever it is; `step` is its next XAUTOCLAIM. */
  lemma {:induction false} ScanAll(s: State, env: Env) returns (step: Step, t: State)
    requires Fit(s, env) && ScanReady(s, env) && env.readCount > 0
    ensures step.AutoClaim? && Enabled(s, step) && Allowed(s, step, env) && Calmly(Apply(s, step), t, env)
    ensures Still(s, t) && WorkerIdle(t, env) && Evolved(s, t, env) && t.cursor == s.cursor
    decreases |s.stream| - WorkerOf(s, env.worker).scan
  {
    var scan := WorkerOf(s, env.worker).scan;
    var stop := FullPage(s.pel, scan, |s.stream|, s.now, env.minIdle, env.readCount);
    step := AutoClaim(env.worker, env.readCount, env.minIdle, stop);
    var claimed := DoAutoClaim(s, env.worker, env.minIdle, stop);
    assert Apply(s, step) == claimed;
    var page := claimed.workers[env.worker].batch;
    var s1 := WorkPage(s, claimed, env, page, if stop == |s.stream| then 0 else stop);
    if stop == |s.stream| {
      t := s1;
    } else {
      var next;
      next, t := ScanAll(s1, env);
      CalmStep(s1, next, env);
      CalmTrans(s1, Apply(s1, next), t, env);
      CalmTrans(claimed, s1, t, env);
      EvolvedTrans(s, s1, t, env);
    }
  }

  // ----- publishing everything

  lemma CalmClaim(s: State, events: seq<Event>, env: Env)
    requires Enabled(s, Claim(env.relay, env.locker, env.batchSize, {}, events))
    ensures Calmly(s, DoClaim(s, env.relay, env.locker, events), env)
  {
    CalmStep(s, Claim(env.relay, env.locker, env.batchSize, {}, events), env);
  }

  lemma CalmAppend(s: State, env: Env)
    requires Enabled(s, Append(env.relay))
    ensures Calmly(s, DoAppend(s, env.relay), env)
  {
    CalmStep(s, Append(env.relay), env);
  }

  lemma CalmPublish(s: State, env: Env)
    requires Enabled(s, MarkPublished(env.relay))
    ensures Calmly(s, DoMarkPublished(s, env.relay), env)
  {
    CalmStep(s, MarkPublished(env.relay), env);
  }

  /** Only the outbox, the stream, the log and the relay's own books moved; nothing a worker sees. */
  predicate RelayMoved(s: State, t: State) {
    && t.now == s.now && t.policy == s.policy && t.cursor == s.cursor && t.pel == s.pel && t.acked == s.acked
    && t.workers == s.workers
    && t.db.notifications == s.db.notifications && t.db.attempts == s.db.attempts
    && t.db.outbox.Keys == s.db.outbox.Keys
    && Dispatched(t.log) == Dispatched(s.log)
  }

  /** The rows of `ids` are published, the others are as they were. */
  predicate PublishedOnly(before: map<Uuid, OutboxRow>, after: map<Uuid, OutboxRow>, ids: set<Uuid>) {
    && after.Keys == before.Keys
    && forall id :: id in before ==>
         if id in ids then after[id].status.OutboxPublished? else after[id] == before[id]
  }

  /** The relay holds every row of its batch, and each once. */
  predicate HoldsBatch(db: Db, relay: Relay) {
    && !relay.phase.Refused?
    && (forall k :: 0 <= k < |relay.batch| ==> Holds(db, relay.batch[k].id, relay.locker))
    && (forall j, k :: 0 <= j < k < |relay.batch| ==> relay.batch[j].id != relay.batch[k].id)
  }

  predicate OwnsBatch(s: State, relay: Relay) {
    relay.phase.Ready? && HoldsBatch(s.db, relay)
  }

  lemma PublishOne(s: State, env: Env) returns (t: State)
    requires env.relay in s.relays && s.relays[env.relay].batch != [] && OwnsBatch(s, s.relays[env.relay])
    ensures Calmly(s, t, env) && RelayMoved(s, t)
    ensures PublishedOnly(s.db.outbox, t.db.outbox, {s.relays[env.relay].batch[0].id})
    ensures env.relay in t.relays && t.relays[env.relay] == NextEvent(s.relays[env.relay])
  {
    CalmAppend(s, env);
    var s1 := DoAppend(s, env.relay);
    CalmPublish(s1, env);
    t := DoMarkPublished(s1, env.relay);
    CalmTrans(s, s1, t, env);
    DispatchedAppend(s.log, WasPublished(s.relays[env.relay].batch[0].id));
  }

  lemma {:induction false} PublishBatch(s: State, env: Env) returns (t: State)
    requires env.relay in s.relays && OwnsBatch(s, s.relays[env.relay])
    ensures Calmly(s, t, env) && RelayMoved(s, t)
    ensures PublishedOnly(s.db.outbox, t.db.outbox, EventIds(s.relays[env.relay].batch))
    ensures RelayIdle(t, env)
    decreases |s.relays[env.relay].batch|
  {
    var batch := s.relays[env.relay].batch;
    if batch == [] {
      t := s;
      CalmNone(s, env);
    } else {
      var s1 := PublishOne(s, env);
      OwnsRest(s, s1, s.relays[env.relay]);
      t := PublishBatch(s1, env);
      CalmTrans(s, s1, t, env);
      PublishedBoth(s.db.outbox, s1.db.outbox, t.db.outbox, batch);
    }
  }

  lemma PublishedBoth(before: map<Uuid, OutboxRow>, between: map<Uuid, OutboxRow>, after: map<Uuid, OutboxRow>,
                      batch: seq<Event>)
    requires batch != [] && PublishedOnly(before, between, {batch[0].id})
    requires PublishedOnly(between, after, EventIds(batch[1..]))
    ensures PublishedOnly(before, after, EventIds(batch))
  {
    assert batch == [batch[0]] + batch[1..];
    assert EventIds(batch) == {batch[0].id} + EventIds(batch[1..]);
    forall id | id in before
      ensures id in between && id in after
    {
      assert id in between.Keys && id in after.Keys;
    }
  }

  lemma OwnsRest(s: State, s1: State, relay: Relay)
    requires relay.batch != [] && OwnsBatch(s, relay)
    requires PublishedOnly(s.db.outbox, s1.db.outbox, {relay.batch[0].id})
    ensures OwnsBatch(s1, NextEvent(relay))
  {
    forall k | 0 <= k < |relay.batch| - 1
      ensures Holds(s1.db, relay.batch[1..][k].id, relay.locker)
    {
      assert Holds(s.db, relay.batch[k + 1].id, relay.locker) && relay.batch[k + 1].id != relay.batch[0].id;
      assert relay.batch[k + 1].id in s1.db.outbox.Keys;
    }
  }

  function Unpublished(outbox: map<Uuid, OutboxRow>): set<Uuid> {
    set id | id in outbox && !outbox[id].status.OutboxPublished?
  }

  /** Nothing stands in the way of publishing: every unpublished row is eligible. */
  predicate AllDue(outbox: map<Uuid, OutboxRow>, now: Time) {
    forall id :: id in outbox && !outbox[id].status.OutboxPublished? ==> Eligible(outbox[id], now)
  }

  lemma ClaimOwned(s: State, env: Env, events: seq<Event>)
    requires Lists(s.db.outbox, EventIds(events), events)
    ensures OwnsBatch(DoClaim(s, env.relay, env.locker, events), Relay(env.locker, events, Ready))
  {
    forall k | 0 <= k < |events|
      ensures events[k] in events
    {
    }
  }

  lemma ListedIds(outbox: map<Uuid, OutboxRow>, picked: set<Uuid>, events: seq<Event>)
    requires Lists(outbox, picked, events)
    ensures EventIds(events) == picked
  {
  }

  lemma PublishedRest(outbox: map<Uuid, OutboxRow>, claimed: map<Uuid, OutboxRow>, after: map<Uuid, OutboxRow>,
                      picked: set<Uuid>, now: Time)
    requires AllDue(outbox, now) && picked <= Unpublished(outbox) && picked != {}
    requires claimed.Keys == outbox.Keys
    requires forall id :: id in outbox && id !in picked ==> claimed[id] == outbox[id]
    requires PublishedOnly(claimed, after, picked)
    ensures AllDue(after, now) && Unpublished(after) < Unpublished(outbox)
  {
    forall id | id in after
      ensures id in outbox && (id !in picked ==> after[id] == outbox[id])
    {
      assert id in after.Keys && id in claimed.Keys;
    }
    var id :| id in picked;
    assert id in outbox.Keys && id in claimed.Keys;
  }

  lemma ClaimTxMoves(db: Db, picked: set<Uuid>, locker: string, now: Time)
    ensures var after := ClaimTx(db, picked, locker, now);
            && after.notifications == db.notifications && after.attempts == db.attempts
            && after.outbox.Keys == db.outbox.Keys
            && forall id :: id in db.outbox && id !in picked ==> after.outbox[id] == db.outbox[id]
  {
  }

  lemma ClaimMoves(s: State, env: Env, events: seq<Event>)
    ensures var t := DoClaim(s, env.relay, env.locker, events);
            && RelayMoved(s, t)
            && env.relay in t.relays && t.relays[env.relay] == Relay(env.locker, events, Ready)
            && t.db == ClaimTx(s.db, EventIds(events), env.locker, s.now)
  {
    ClaimTxMoves(s.db, EventIds(events), env.locker, s.now);
    DispatchedAppend(s.log, WereClaimed(EventIds(events), env.relay, env.locker, s.now));
  }

  /** The claim that opens a PublishDue. */
  lemma ClaimSome(s: State, env: Env) returns (s1: State, picked: set<Uuid>)
    requires RelayIdle(s, env) && AllDue(s.db.outbox, s.now) && Unpublished(s.db.outbox) != {}
    ensures Calmly(s, s1, env) && RelayMoved(s, s1)
    ensures env.relay in s1.relays && OwnsBatch(s1, s1.relays[env.relay])
    ensures EventIds(s1.relays[env.relay].batch) == picked
    ensures picked != {} && picked <= Unpublished(s.db.outbox)
    ensures forall id :: id in s.db.outbox && id !in picked ==> s1.db.outbox[id] == s.db.outbox[id]
  {
    var events;
    picked, events := SomeClaim(s.db.outbox, s.now, env.batchSize);
    ListedIds(s.db.outbox, picked, events);
    CalmClaim(s, events, env);
    s1 := DoClaim(s, env.relay, env.locker, events);
    ClaimOwned(s, env, events);
    ClaimMoves(s, env, events);
    ClaimTxMoves(s.db, picked, env.locker, s.now);
    ClaimNonempty(s.db.outbox, s.now, env.batchSize, picked);
  }

  /** One PublishDue: claim a batch and publish all of it. */
  lemma PublishSome(s: State, env: Env) returns (t: State)
    requires RelayIdle(s, env) && AllDue(s.db.outbox, s.now) && Unpublished(s.db.outbox) != {}
    ensures Calmly(s, t, env) && RelayMoved(s, t) && RelayIdle(t, env)
    ensures AllDue(t.db.outbox, t.now) && Unpublished(t.db.outbox) < Unpublished(s.db.outbox)
  {
    var s1, picked := ClaimSome(s, env);
    t := PublishBatch(s1, env);
    CalmTrans(s, s1, t, env);
    PublishedRest(s.db.outbox, s1.db.outbox, t.db.outbox, picked, s.now);
  }

  lemma ClaimNonempty(outbox: map<Uuid, OutboxRow>, now: Time, limit: int, picked: set<Uuid>)
    requires AllDue(outbox, now) && Unpublished(outbox) != {} && IsClaim(outbox, now, limit, {}, picked)
    ensures picked != {} && picked <= Unpublished(outbox)
  {
    assert EligibleRows(outbox, now) == Unpublished(outbox);
    assert EligibleRows(outbox, now) - {} == Unpublished(outbox);
  }

  /** PublishDue after PublishDue, the relay publishes every outbox row. */
  lemma {:induction false} PublishAll(s: State, env: Env) returns (t: State)
    requires RelayIdle(s, env) && AllDue(s.db.outbox, s.now)
    ensures Calmly(s, t, env) && RelayMoved(s, t) && RelayIdle(t, env)
    ensures Unpublished(t.db.outbox) == {}
    decreases Unpublished(s.db.outbox)
  {
    if Unpublished(s.db.outbox) == {} {
      t := s;
      CalmNone(s, env);
    } else {
      var s1 := PublishSome(s, env);
      t := PublishAll(s1, env);
      CalmTrans(s, s1, t, env);
    }
  }

  // ----- waiting long enough

  lemma {:induction false} Bound<K>(m: map<K, int>) returns (h: int)
    ensures forall k :: k in m ==> m[k] <= h
    decreases |m|
  {
    h := 0;
    if m != map[] {
      var k :| k in m;
      var rest := m - {k};
      h := Bound(rest);
      forall x | x in m
        ensures m[x] <= if h < m[k] then m[k] else h
      {
        assert x == k || x in rest;
      }
      h := if h < m[k] then m[k] else h;
    }
  }

  /** After some wait every unpublished row is eligible and every pending entry idle enough. */
  lemma LongEnough(s: State, env: Env) returns (d: nat)
    requires RowsOk(s.db)
    ensures AllDue(s.db.outbox, s.now + d)
    ensures forall i :: i in s.pel ==> s.now + d - s.pel[i].since >= env.minIdle
  {
    var due := Bound(map id | id in s.db.outbox :: s.db.outbox[id].scheduledAt);
    var lapsed := Bound(map id | id in s.db.outbox ::
        if s.db.outbox[id].lockedAt.Some? then s.db.outbox[id].lockedAt.value + LEASE + 1 else 0);
    var idle := Bound(map i | i in s.pel :: s.pel[i].since + env.minIdle);
    d := Max(0, Max(due - s.now, Max(lapsed - s.now, idle - s.now)));
    forall id | id in s.db.outbox && !s.db.outbox[id].status.OutboxPublished?
      ensures Eligible(s.db.outbox[id], s.now + d)
    {
      assert (map id | id in s.db.outbox :: s.db.outbox[id].scheduledAt)[id] <= due;
      assert (map id | id in s.db.outbox ::
        if s.db.outbox[id].lockedAt.Some? then s.db.outbox[id].lockedAt.value + LEASE + 1 else 0)[id] <= lapsed;
    }
    forall i | i in s.pel
      ensures s.now + d - s.pel[i].since >= env.minIdle
    {
      assert (map i | i in s.pel :: s.pel[i].since + env.minIdle)[i] <= idle;
    }
  }

  function Max(a: int, b: int): int {
    if a < b then b else a
  }
}

/**
 * The structural invariant of the pipeline: which references between tables,
 * stream, relays and workers always resolve. Each part names only the
 * components it depends on.
 */
module PipelineShape {
  import opened Common
  import opened Uuids
  import opened Message
  import opened Retry
  import opened Delivery
  import opened Tables
  import opened Pipeline

  /** The event still describes its outbox row: id, notification, type and due time never change. */
  predicate EventOk(outbox: map<Uuid, OutboxRow>, e: Event) {
    e.id in outbox && e == EventOf(e.id, outbox[e.id])
  }

  predicate RowsOk(db: Db) {
    forall id :: id in db.outbox ==>
      && db.outbox[id].nid in db.notifications
      && !db.outbox[id].status.OutboxFailed?
      && (db.outbox[id].status.OutboxPublishing? ==> db.outbox[id].lockedAt.Some?)
  }

  predicate EntryOk(outbox: map<Uuid, OutboxRow>, entry: Entry, now: Time) {
    && EventOk(outbox, entry.event)
    && entry.values == BuildDeliveryMessage(entry.event)
    && entry.event.scheduledAt <= entry.appendedAt <= now
  }

  predicate StreamOk(outbox: map<Uuid, OutboxRow>, stream: seq<Entry>, now: Time) {
    forall i :: 0 <= i < |stream| ==> EntryOk(outbox, stream[i], now)
  }

  /** A published row names an entry that carries it. */
  predicate PublishedOk(outbox: map<Uuid, OutboxRow>, stream: seq<Entry>) {
    forall id :: id in outbox && outbox[id].status.OutboxPublished? ==>
      && outbox[id].streamId.Some?
      && outbox[id].streamId.value < |stream|
      && stream[outbox[id].streamId.value].event.id == id
  }

  predicate RelayOk(outbox: map<Uuid, OutboxRow>, stream: seq<Entry>, now: Time, relay: Relay) {
    && (forall k :: 0 <= k < |relay.batch| ==> EventOk(outbox, relay.batch[k]) && relay.batch[k].scheduledAt <= now)
    && (!relay.phase.Ready? ==> relay.batch != [])
    && (relay.phase.Appended? ==>
          relay.phase.streamId < |stream| && stream[relay.phase.streamId].event == relay.batch[0])
  }

  predicate RelaysOk(outbox: map<Uuid, OutboxRow>, stream: seq<Entry>, now: Time, relays: map<nat, Relay>) {
    forall r :: r in relays ==> RelayOk(outbox, stream, now, relays[r])
  }

  /** Read entries are pending or acked, never both; nothing else is either. */
  predicate GroupOk(stream: seq<Entry>, cursor: nat, pel: map<nat, PendingEntry>, acked: set<nat>, now: Time) {
    && cursor <= |stream|
    && (forall i :: i in pel ==> i < cursor && i !in acked && pel[i].since <= now)
    && (forall i :: i in acked ==> i < cursor)
    && (forall i :: 0 <= i < cursor ==> i in pel || i in acked)
  }

  predicate TaskOk(notifications: map<Uuid, Notification>, nid: Uuid, task: Task) {
    && task.id == nid
    && nid in notifications
    && task.maxAttempts == notifications[nid].maxAttempts
  }

  predicate ConclusionOk(policy: RetryPolicy, task: Task, conclusion: Conclusion, decidedAt: Time) {
    && conclusion.Attempt().number == task.attempt + 1
    && (conclusion.Failure? ==>
          var next := conclusion.failure.nextAttemptAt;
          && (conclusion.failure.terminal <==> next.None?)
          && (next.Some? ==> task.attempt + 1 < task.maxAttempts)
          && (next.Some? ==> next.value == decidedAt + Delay(policy, task.attempt + 1)))
  }

  predicate WorkerOk(s: State, worker: Worker)
    requires s.cursor <= |s.stream|
  {
    && (forall k :: 0 <= k < |worker.batch| ==> worker.batch[k] < s.cursor)
    && (!worker.phase.Idle? ==> worker.batch != [])
    && worker.scan <= |s.stream|
    && match worker.phase
       case Loaded(task) => TaskOk(s.db.notifications, s.stream[worker.batch[0]].event.nid, task)
       case Marked(task) => TaskOk(s.db.notifications, s.stream[worker.batch[0]].event.nid, task)
       case Concluded(task, conclusion, decidedAt) =>
         && TaskOk(s.db.notifications, s.stream[worker.batch[0]].event.nid, task)
         && ConclusionOk(s.policy, task, conclusion, decidedAt)
         && decidedAt <= s.now
       case _ => true
  }

  predicate WorkersOk(s: State) {
    && s.cursor <= |s.stream|
    && forall w :: w in s.workers ==> WorkerOk(s, s.workers[w])
  }

  predicate LimitsOk(notifications: map<Uuid, Notification>) {
    forall n :: n in notifications ==> 1 <= notifications[n].maxAttempts <= 20
  }

  predicate Shape(s: State) {
    && RowsOk(s.db)
    && StreamOk(s.db.outbox, s.stream, s.now)
    && PublishedOk(s.db.outbox, s.stream)
    && RelaysOk(s.db.outbox, s.stream, s.now, s.relays)
    && GroupOk(s.stream, s.cursor, s.pel, s.acked, s.now)
    && WorkersOk(s)
    && LimitsOk(s.db.notifications)
  }

  // ----- what every step keeps

  /** No step removes or rewrites what others may hold a reference to. */
  predicate Grows(s: State, t: State) {
    && s.now <= t.now
    && t.policy == s.policy
    && (forall n :: n in s.db.notifications ==>
          n in t.db.notifications && t.db.notifications[n].maxAttempts == s.db.notifications[n].maxAttempts)
    && (forall id :: id in s.db.outbox ==>
          id in t.db.outbox && EventOf(id, t.db.outbox[id]) == EventOf(id, s.db.outbox[id]))
    && |s.stream| <= |t.stream|
    && (forall i :: 0 <= i < |s.stream| ==> t.stream[i] == s.stream[i])
    && s.cursor <= t.cursor
    && s.acked <= t.acked
  }

  lemma ApiGrows(s: State, step: Step)
    requires Enabled(s, step) && (step.Tick? || step.Create? || step.ManualRetry?)
    ensures Grows(s, Apply(s, step))
  {
  }

  lemma ClaimGrows(s: State, step: Step)
    requires Enabled(s, step) && step.Claim?
    ensures Grows(s, Apply(s, step))
  {
  }

  lemma SettleGrows(s: State, step: Step)
    requires Enabled(s, step) && (step.MarkPublished? || step.MarkFailed?)
    ensures Grows(s, Apply(s, step))
  {
  }

  lemma RecordGrows(s: State, w: nat, row: Uuid)
    requires Enabled(s, Record(w, row))
    ensures Grows(s, DoRecord(s, w, row))
  {
  }

  lemma MarkGrows(s: State, w: nat)
    requires Enabled(s, MarkDelivering(w))
    ensures Grows(s, DoMarkDelivering(s, w))
  {
  }

  lemma StepGrows(s: State, step: Step)
    requires Enabled(s, step)
    ensures Grows(s, Apply(s, step))
  {
    match step {
      case Tick(_) => ApiGrows(s, step);
      case Create(_, _, _) => ApiGrows(s, step);
      case ManualRetry(_, _) => ApiGrows(s, step);
      case Claim(_, _, _, _, _) => ClaimGrows(s, step);
      case MarkPublished(_) => SettleGrows(s, step);
      case MarkFailed(_) => SettleGrows(s, step);
      case Record(w, row) => RecordGrows(s, w, row);
      case MarkDelivering(w) => MarkGrows(s, w);
      case _ =>
    }
  }

  lemma EntriesKept(s: State, t: State)
    requires Grows(s, t) && StreamOk(s.db.outbox, s.stream, s.now)
    requires forall i :: |s.stream| <= i < |t.stream| ==> EntryOk(t.db.outbox, t.stream[i], t.now)
    ensures StreamOk(t.db.outbox, t.stream, t.now)
  {
    forall i | 0 <= i < |t.stream|
      ensures EntryOk(t.db.outbox, t.stream[i], t.now)
    {
      if i < |s.stream| {
        assert EntryOk(s.db.outbox, s.stream[i], s.now);
      }
    }
  }

  lemma RelayKept(s: State, t: State, relay: Relay)
    requires Grows(s, t) && RelayOk(s.db.outbox, s.stream, s.now, relay)
    ensures RelayOk(t.db.outbox, t.stream, t.now, relay)
  {
  }

  lemma RelaysKept(s: State, t: State, r: nat)
    requires Grows(s, t) && RelaysOk(s.db.outbox, s.stream, s.now, s.relays)
    requires forall q :: q in t.relays && q != r ==> q in s.relays && t.relays[q] == s.relays[q]
    requires r in t.relays ==> RelayOk(t.db.outbox, t.stream, t.now, t.relays[r])
    ensures RelaysOk(t.db.outbox, t.stream, t.now, t.relays)
  {
    forall q | q in t.relays
      ensures RelayOk(t.db.outbox, t.stream, t.now, t.relays[q])
    {
      if q != r {
        RelayKept(s, t, s.relays[q]);
      }
    }
  }

  lemma WorkerKept(s: State, t: State, worker: Worker)
    requires Grows(s, t) && s.cursor <= |s.stream| && t.cursor <= |t.stream| && WorkerOk(s, worker)
    ensures WorkerOk(t, worker)
  {
  }

  lemma WorkersKept(s: State, t: State, w: nat)
    requires Grows(s, t) && WorkersOk(s) && t.cursor <= |t.stream|
    requires forall v :: v in t.workers && v != w ==> v in s.workers && t.workers[v] == s.workers[v]
    requires w in t.workers ==> WorkerOk(t, t.workers[w])
    ensures WorkersOk(t)
  {
    forall v | v in t.workers
      ensures WorkerOk(t, t.workers[v])
    {
      if v != w {
        WorkerKept(s, t, s.workers[v]);
      }
    }
  }

  // ----- step by step

  lemma ApiKeepsShape(s: State, step: Step)
    requires Shape(s) && Enabled(s, step) && (step.Tick? || step.Create? || step.ManualRetry?)
    ensures Shape(Apply(s, step))
  {
    var t := Apply(s, step);
    StepGrows(s, step);
    EntriesKept(s, t);
    RelaysKeptAll(s, t);
    WorkersKeptAll(s, t);
  }

  lemma ClaimKeepsTables(s: State, picked: set<Uuid>, locker: string)
    requires RowsOk(s.db) && PublishedOk(s.db.outbox, s.stream)
    requires picked <= EligibleRows(s.db.outbox, s.now)
    ensures RowsOk(ClaimTx(s.db, picked, locker, s.now))
    ensures PublishedOk(ClaimTx(s.db, picked, locker, s.now).outbox, s.stream)
  {
  }

  lemma ClaimedBatchOk(s: State, t: State, events: seq<Event>, locker: string)
    requires Grows(s, t) && Lists(s.db.outbox, EventIds(events), events)
    requires EventIds(events) <= EligibleRows(s.db.outbox, s.now)
    ensures RelayOk(t.db.outbox, t.stream, t.now, Relay(locker, events, Ready))
  {
    forall k | 0 <= k < |events|
      ensures EventOk(t.db.outbox, events[k]) && events[k].scheduledAt <= t.now
    {
      assert events[k] in events;
    }
  }

  lemma ClaimKeepsShape(s: State, step: Step)
    requires Shape(s) && Enabled(s, step) && step.Claim?
    ensures Shape(Apply(s, step))
  {
    var t := Apply(s, step);
    StepGrows(s, step);
    ClaimKeepsTables(s, EventIds(step.events), step.locker);
    EntriesKept(s, t);
    ClaimedBatchOk(s, t, step.events, step.locker);
    RelaysKept(s, t, step.r);
    WorkersKeptAll(s, t);
  }

  lemma WorkersKeptAll(s: State, t: State)
    requires Grows(s, t) && WorkersOk(s) && t.cursor <= |t.stream| && t.workers == s.workers
    ensures WorkersOk(t)
  {
    forall w | w in t.workers ensures WorkerOk(t, t.workers[w]) {
      WorkerKept(s, t, s.workers[w]);
    }
  }

  /** All that is left to check when a relay appended its current event, or tried to. */
  lemma StreamAndRelayKept(s: State, t: State, r: nat)
    requires Shape(s) && Grows(s, t)
    requires t.db == s.db && t.cursor == s.cursor && t.pel == s.pel && t.acked == s.acked
    requires t.now == s.now && t.workers == s.workers
    requires forall i :: |s.stream| <= i < |t.stream| ==> EntryOk(t.db.outbox, t.stream[i], t.now)
    requires r in t.relays && t.relays == s.relays[r := t.relays[r]]
    requires RelayOk(t.db.outbox, t.stream, t.now, t.relays[r])
    ensures Shape(t)
  {
    EntriesKept(s, t);
    RelaysKept(s, t, r);
    WorkersKeptAll(s, t);
  }

  lemma AppendKeepsShape(s: State, r: nat)
    requires Shape(s) && Enabled(s, Append(r))
    ensures Shape(DoAppend(s, r))
  {
    assert RelayOk(s.db.outbox, s.stream, s.now, s.relays[r]);
    StreamAndRelayKept(s, DoAppend(s, r), r);
  }

  lemma AppendErrorKeepsShape(s: State, r: nat, landed: bool, reason: string)
    requires Shape(s) && Enabled(s, AppendError(r, landed, reason))
    ensures Shape(DoAppendError(s, r, landed, reason))
  {
    assert RelayOk(s.db.outbox, s.stream, s.now, s.relays[r]);
    StreamAndRelayKept(s, DoAppendError(s, r, landed, reason), r);
  }

  /** The tables survive MarkPublished of an appended event, and MarkFailed of any event. */
  lemma SettleKeepsTables(db: Db, stream: seq<Entry>, id: Uuid, streamId: nat, reason: string, locker: string)
    requires RowsOk(db) && PublishedOk(db.outbox, stream)
    ensures var tx := MarkFailedTx(db, id, reason, locker);
            RowsOk(tx.db) && PublishedOk(tx.db.outbox, stream)
    ensures streamId < |stream| && stream[streamId].event.id == id ==>
              var tx := MarkPublishedTx(db, id, streamId, locker);
              RowsOk(tx.db) && PublishedOk(tx.db.outbox, stream)
  {
  }

  lemma NextEventOk(s: State, t: State, relay: Relay)
    requires Grows(s, t) && RelayOk(s.db.outbox, s.stream, s.now, relay) && relay.batch != []
    ensures RelayOk(t.db.outbox, t.stream, t.now, NextEvent(relay))
  {
    assert RelayOk(s.db.outbox, s.stream, s.now, NextEvent(relay));
    RelayKept(s, t, NextEvent(relay));
  }

  lemma MarkPublishedKeepsShape(s: State, r: nat)
    requires Shape(s) && Enabled(s, MarkPublished(r))
    ensures Shape(DoMarkPublished(s, r))
  {
    var relay := s.relays[r];
    assert RelayOk(s.db.outbox, s.stream, s.now, relay);
    var t := DoMarkPublished(s, r);
    if MarkPublishedTx(s.db, relay.batch[0].id, relay.phase.streamId, relay.locker).err.Some? {
      RelaysAndWorkersKept(s, t, r);
    } else {
      StepGrows(s, MarkPublished(r));
      SettleKeepsTables(s.db, s.stream, relay.batch[0].id, relay.phase.streamId, "", relay.locker);
      NextEventOk(s, t, relay);
      RelaysAndWorkersKept(s, t, r);
    }
  }

  lemma MarkFailedKeepsShape(s: State, r: nat)
    requires Shape(s) && Enabled(s, MarkFailed(r))
    ensures Shape(DoMarkFailed(s, r))
  {
    var relay := s.relays[r];
    assert RelayOk(s.db.outbox, s.stream, s.now, relay);
    var t := DoMarkFailed(s, r);
    if MarkFailedTx(s.db, relay.batch[0].id, relay.phase.reason, relay.locker).err.Some? {
      RelaysAndWorkersKept(s, t, r);
    } else {
      StepGrows(s, MarkFailed(r));
      SettleKeepsTables(s.db, s.stream, relay.batch[0].id, 0, relay.phase.reason, relay.locker);
      NextEventOk(s, t, relay);
      RelaysAndWorkersKept(s, t, r);
    }
  }

  /** All that is left to check when only the tables and one relay changed. */
  lemma RelaysAndWorkersKept(s: State, t: State, r: nat)
    requires Shape(s) && Grows(s, t)
    requires RowsOk(t.db) && PublishedOk(t.db.outbox, t.stream) && t.db.notifications == s.db.notifications
    requires t.stream == s.stream && t.cursor == s.cursor && t.pel == s.pel && t.acked == s.acked
    requires t.now == s.now && t.workers == s.workers
    requires r in t.relays && t.relays == s.relays[r := t.relays[r]]
    requires RelayOk(t.db.outbox, t.stream, t.now, t.relays[r])
    ensures Shape(t)
  {
    EntriesKept(s, t);
    RelaysKept(s, t, r);
    WorkersKeptAll(s, t);
  }

  lemma RelayCrashKeepsShape(s: State, step: Step)
    requires Shape(s) && Enabled(s, step) && step.RelayCrash?
    ensures Shape(Apply(s, step))
  {
  }

  /** All that is left to check when only the consumer group's books and one worker changed. */
  lemma GroupAndWorkerKept(s: State, t: State, w: nat)
    requires Shape(s) && Grows(s, t)
    requires t.db == s.db && t.stream == s.stream && t.now == s.now && t.relays == s.relays
    requires GroupOk(t.stream, t.cursor, t.pel, t.acked, t.now)
    requires w in t.workers && t.workers == s.workers[w := t.workers[w]] && WorkerOk(t, t.workers[w])
    ensures Shape(t)
  {
    WorkersKept(s, t, w);
  }

  lemma ReadKeepsShape(s: State, w: nat, count: nat)
    requires Shape(s) && Enabled(s, Read(w, count))
    ensures Shape(DoRead(s, w, count))
  {
    GroupAndWorkerKept(s, DoRead(s, w, count), w);
  }

  lemma AutoClaimKeepsShape(s: State, w: nat, count: nat, minIdle: Time, stop: nat)
    requires Shape(s) && Enabled(s, AutoClaim(w, count, minIdle, stop))
    ensures Shape(DoAutoClaim(s, w, minIdle, stop))
  {
    GroupAndWorkerKept(s, DoAutoClaim(s, w, minIdle, stop), w);
  }

  lemma WorkerOfOk(s: State, w: nat)
    requires Shape(s)
    ensures WorkerOk(s, WorkerOf(s, w))
  {
  }

  lemma SkipKeepsShape(s: State, w: nat)
    requires Shape(s) && WorkerOf(s, w).batch != []
    ensures Shape(Skip(s, w))
  {
    WorkerOfOk(s, w);
    GroupAndWorkerKept(s, Skip(s, w), w);
  }

  lemma AckKeepsShape(s: State, w: nat)
    requires Shape(s) && WorkerOf(s, w).batch != []
    ensures Shape(DoAck(s, w))
  {
    WorkerOfOk(s, w);
    GroupAndWorkerKept(s, DoAck(s, w), w);
  }

  lemma WorkerCrashKeepsShape(s: State, w: nat)
    requires Shape(s)
    ensures Shape(SetWorker(s, w, IDLE_WORKER))
  {
    GroupAndWorkerKept(s, SetWorker(s, w, IDLE_WORKER), w);
  }

  lemma LoadKeepsShape(s: State, w: nat)
    requires Shape(s) && Enabled(s, Load(w))
    ensures Shape(DoLoad(s, w))
  {
    CurrentParses(s, w);
    WorkerOfOk(s, w);
    var t := DoLoad(s, w);
    assert WorkerOk(t, t.workers[w]);
    GroupAndWorkerKept(s, t, w);
  }

  lemma RelaysKeptAll(s: State, t: State)
    requires Grows(s, t) && RelaysOk(s.db.outbox, s.stream, s.now, s.relays) && t.relays == s.relays
    ensures RelaysOk(t.db.outbox, t.stream, t.now, t.relays)
  {
    forall r | r in t.relays ensures RelayOk(t.db.outbox, t.stream, t.now, t.relays[r]) {
      RelayKept(s, t, s.relays[r]);
    }
  }

  lemma MarkKeepsTables(db: Db, nid: Uuid)
    requires RowsOk(db) && LimitsOk(db.notifications)
    ensures var tx := MarkDeliveringTx(db, nid);
            RowsOk(tx.db) && LimitsOk(tx.db.notifications) && tx.db.outbox == db.outbox
  {
  }

  lemma MarkKeepsShape(s: State, w: nat)
    requires Shape(s) && Enabled(s, MarkDelivering(w))
    ensures Shape(DoMarkDelivering(s, w))
  {
    var task := WorkerOf(s, w).phase.task;
    if MarkDeliveringTx(s.db, task.id).err.Some? {
      SkipKeepsShape(s, w);
    } else {
      var t := DoMarkDelivering(s, w);
      MarkGrows(s, w);
      WorkerOfOk(s, w);
      MarkKeepsTables(s.db, task.id);
      assert WorkerOk(t, WorkerOf(s, w).(phase := Marked(task)));
      TablesAndWorkerKept(s, t, w);
    }
  }

  lemma DeliverKeepsShape(s: State, w: nat, result: AttemptResult)
    requires Shape(s) && Enabled(s, Deliver(w, result))
    ensures Shape(DoDeliver(s, w, result))
  {
    var t := DoDeliver(s, w, result);
    WorkerOfOk(s, w);
    var task := WorkerOf(s, w).phase.task;
    ConclusionSound(s.policy, task, result, s.now);
    assert ConclusionOk(s.policy, task, Conclude(s.policy, task, result, s.now), s.now);
    TablesAndWorkerKept(s, t, w);
  }

  lemma RecordKeepsTables(db: Db, stream: seq<Entry>, nid: Uuid, conclusion: Conclusion, row: Uuid, now: Time)
    requires RowsOk(db) && PublishedOk(db.outbox, stream) && LimitsOk(db.notifications)
    ensures var tx := RecordTx(db, nid, conclusion, row, now);
            RowsOk(tx.db) && PublishedOk(tx.db.outbox, stream) && LimitsOk(tx.db.notifications)
  {
  }

  lemma SettledOk(s: State, w: nat, t: State)
    requires Shape(s) && WorkerOf(s, w).batch != []
    requires t.cursor == s.cursor && t.stream == s.stream
    ensures WorkerOk(t, WorkerOf(s, w).(phase := Settled))
  {
  }

  lemma RecordKeepsShape(s: State, w: nat, row: Uuid)
    requires Shape(s) && Enabled(s, Record(w, row))
    ensures Shape(DoRecord(s, w, row))
  {
    var phase := WorkerOf(s, w).phase;
    var tx := RecordTx(s.db, phase.task.id, phase.conclusion, row, s.now);
    if tx.err.Some? {
      SkipKeepsShape(s, w);
    } else {
      RecordGrows(s, w, row);
      SettledOk(s, w, DoRecord(s, w, row));
      RecordKeepsTables(s.db, s.stream, phase.task.id, phase.conclusion, row, s.now);
      TablesAndWorkerKept(s, DoRecord(s, w, row), w);
    }
  }

  /** All that is left to check when only the tables and one worker changed. */
  lemma TablesAndWorkerKept(s: State, t: State, w: nat)
    requires Shape(s) && Grows(s, t)
    requires RowsOk(t.db) && PublishedOk(t.db.outbox, t.stream) && LimitsOk(t.db.notifications)
    requires t.stream == s.stream && t.cursor == s.cursor && t.pel == s.pel && t.acked == s.acked
    requires t.now == s.now && t.relays == s.relays
    requires w in t.workers && t.workers == s.workers[w := t.workers[w]] && WorkerOk(t, t.workers[w])
    ensures Shape(t)
  {
    EntriesKept(s, t);
    RelaysKeptAll(s, t);
    WorkersKept(s, t, w);
  }

  /** Relay-published entries are never malformed, and name their own notification. */
  lemma CurrentParses(s: State, w: nat)
    requires Shape(s) && Busy(s, w)
    ensures ParseDeliveryMessage(Current(s, w).values).Good?
    ensures ParseDeliveryMessage(Current(s, w).values).value.nid == Current(s, w).event.nid
    ensures Current(s, w).event.nid in s.db.notifications
    ensures EventOk(s.db.outbox, Current(s, w).event)
  {
    assert EntryOk(s.db.outbox, Current(s, w), s.now);
    ParseInvertsBuild(Current(s, w).event);
  }

  lemma StepKeepsShape(s: State, step: Step)
    requires Shape(s) && Enabled(s, step)
    ensures Shape(Apply(s, step))
  {
    match step {
      case Tick(_) => ApiKeepsShape(s, step);
      case Create(_, _, _) => ApiKeepsShape(s, step);
      case ManualRetry(_, _) => ApiKeepsShape(s, step);
      case Claim(_, _, _, _, _) => ClaimKeepsShape(s, step);
      case Append(r) => AppendKeepsShape(s, r);
      case AppendError(r, landed, reason) => AppendErrorKeepsShape(s, r, landed, reason);
      case MarkPublished(r) => MarkPublishedKeepsShape(s, r);
      case MarkFailed(r) => MarkFailedKeepsShape(s, r);
      case RelayCrash(_) => RelayCrashKeepsShape(s, step);
      case Read(w, count) => ReadKeepsShape(s, w, count);
      case AutoClaim(w, count, minIdle, stop) => AutoClaimKeepsShape(s, w, count, minIdle, stop);
      case AckMalformed(w) => AckKeepsShape(s, w);
      case Load(w) => LoadKeepsShape(s, w);
      case MarkDelivering(w) => MarkKeepsShape(s, w);
      case Deliver(w, result) => DeliverKeepsShape(s, w, result);
      case Record(w, row) => RecordKeepsShape(s, w, row);
      case Ack(w) => AckKeepsShape(s, w);
      case Abandon(w) => SkipKeepsShape(s, w);
      case WorkerCrash(w) => WorkerCrashKeepsShape(s, w);
    }
  }

  lemma InitialShape(now: Time, policy: RetryPolicy)
    ensures Shape(Initial(now, policy))
  {
  }
}

/**
 * Every step of the concurrent system is, for each notification, one move or a
 * stutter of the sequential machine in Ledgers, whatever is duplicated, stale
 * or crashed around it.
 */
module PipelineRefinement {
  import opened Common
  import opened Uuids
  import opened Message
  import opened Retry
  import opened Delivery
  import opened Tables
  import opened Pipeline
  import opened PipelineShape
  import L = Ledgers

  // ----- dispatch exclusion

  /** The notification this worker has marked and not yet recorded. */
  function Flight(worker: Worker): Option<Uuid> {
    match worker.phase
    case Marked(task) => Some(task.id)
    case Concluded(task, _, _) => Some(task.id)
    case _ => None
  }

  predicate FlightOk(notifications: map<Uuid, Notification>, worker: Worker) {
    Flight(worker).Some? ==>
      Flight(worker).value in notifications && notifications[Flight(worker).value].status.Delivering?
  }

  /** No two workers fly the same notification, and a flown notification is delivering. */
  predicate Exclusive(notifications: map<Uuid, Notification>, workers: map<nat, Worker>) {
    && (forall w :: w in workers ==> FlightOk(notifications, workers[w]))
    && (forall v, w :: v in workers && w in workers && v != w && Flight(workers[v]).Some? ==>
          Flight(workers[v]) != Flight(workers[w]))
  }

  /** A worker about to dispatch has one mark to spend; once it has dispatched, none is left. */
  predicate Covers(log: seq<LogItem>, worker: Worker) {
    match worker.phase
    case Marked(task) => EpochDispatches(log, task.id) + 1 == EpochMarks(log, task.id)
    case Concluded(task, _, _) => EpochDispatches(log, task.id) == EpochMarks(log, task.id)
    case _ => true
  }

  predicate MarksCover(log: seq<LogItem>, workers: map<nat, Worker>) {
    forall w :: w in workers ==> Covers(log, workers[w])
  }

  /** Marks and dispatches match, but for one mark whose dispatch is to come or was cut off. */
  predicate DispatchesCovered(notifications: map<Uuid, Notification>, log: seq<LogItem>) {
    forall n :: n in notifications ==>
      && EpochDispatches(log, n) <= EpochMarks(log, n)
      && EpochMarks(log, n) <= EpochDispatches(log, n) + (if notifications[n].status.Delivering? then 1 else 0)
  }

  /** Attempt rows and log items speak only of existing notifications. */
  predicate Known(s: State) {
    && (forall i :: 0 <= i < |s.db.attempts| ==> s.db.attempts[i].nid in s.db.notifications)
    && (forall i :: 0 <= i < |s.log| && (s.log[i].WasReset? || s.log[i].WasMarked?) ==>
          s.log[i].nid in s.db.notifications)
  }

  ghost predicate Guarded(s: State) {
    && Exclusive(s.db.notifications, s.workers)
    && MarksCover(s.log, s.workers)
    && DispatchesCovered(s.db.notifications, s.log)
    && Known(s)
  }

  // ----- the projection

  function LedgerOf(s: State, nid: Uuid): L.Ledger
    requires nid in s.db.notifications
  {
    L.Ledger(
      s.db.notifications[nid],
      AttemptsOf(s.db.attempts, nid),
      |RowsOf(s.db.outbox, nid)|,
      CountResets(s.log, nid),
      CountMarks(s.log, nid),
      EpochMarks(s.log, nid),
      EpochDispatches(s.log, nid))
  }

  ghost predicate LedgersSound(s: State) {
    forall nid :: nid in s.db.notifications ==> L.Sound(LedgerOf(s, nid))
  }

  ghost predicate Inv(s: State) {
    && Shape(s)
    && Guarded(s)
    && LedgersSound(s)
  }

  lemma InitialInv(now: Time, policy: RetryPolicy)
    ensures Inv(Initial(now, policy))
  {
  }

  /** The move of the sequential machine that a step amounts to for one notification. */
  function MoveOf(s: State, step: Step, nid: Uuid): L.Move {
    match step
    case ManualRetry(n, row) =>
      if n == nid && RetryTx(s.db, n, row, s.now).err.None? then L.Reset else L.Stay
    case MarkDelivering(w) =>
      var phase := WorkerOf(s, w).phase;
      if phase.Loaded? && phase.task.id == nid && MarkDeliveringTx(s.db, nid).err.None? then L.Mark else L.Stay
    case Deliver(w, _) =>
      var phase := WorkerOf(s, w).phase;
      if phase.Marked? && phase.task.id == nid then L.Dispatch else L.Stay
    case Record(w, row) =>
      var phase := WorkerOf(s, w).phase;
      if phase.Concluded? && phase.task.id == nid && RecordTx(s.db, nid, phase.conclusion, row, s.now).err.None?
      then RecordMove(nid, phase.conclusion)
      else L.Stay
    case _ => L.Stay
  }

  function RecordMove(nid: Uuid, conclusion: Conclusion): L.Move {
    match conclusion
    case Success(attempt) => L.Succeed(NewAttempt(nid, attempt, AttemptSucceeded))
    case Failure(failure) =>
      if failure.Reschedules() then
        L.Reschedule(NewAttempt(nid, failure.attempt, AttemptRetrying), failure.nextAttemptAt.value)
      else
        L.GiveUp(NewAttempt(nid, failure.attempt, AttemptFailed))
  }

  lemma RowAdded(outbox: map<Uuid, OutboxRow>, id: Uuid, row: OutboxRow, nid: Uuid)
    requires id !in outbox
    ensures |RowsOf(outbox[id := row], nid)| == |RowsOf(outbox, nid)| + if row.nid == nid then 1 else 0
  {
    var more := RowsOf(outbox[id := row], nid);
    assert more == RowsOf(outbox, nid) + if row.nid == nid then {id} else {};
  }

  lemma RowsSame(outbox: map<Uuid, OutboxRow>, outbox': map<Uuid, OutboxRow>, nid: Uuid)
    requires outbox.Keys == outbox'.Keys
    requires forall id :: id in outbox ==> outbox'[id].nid == outbox[id].nid
    ensures RowsOf(outbox', nid) == RowsOf(outbox, nid)
  {
    assert forall id :: id in outbox <==> id in outbox.Keys;
    assert forall id :: id in outbox' <==> id in outbox'.Keys;
  }

  /** The ledger entries a committed manual retry makes. */
  lemma RetryBooks(db: Db, nid: Uuid, row: Uuid, now: Time, n: Uuid)
    requires RetryTx(db, nid, row, now).err.None? && row !in db.outbox && n in db.notifications
    ensures var after := RetryTx(db, nid, row, now).db;
            && n in after.notifications && after.attempts == db.attempts
            && |RowsOf(after.outbox, n)| == |RowsOf(db.outbox, n)| + (if nid == n then 1 else 0)
            && (n != nid ==> after.notifications[n] == db.notifications[n])
  {
    RowAdded(db.outbox, row, NewOutboxRow(nid, now, now), n);
  }

  lemma ManualRetryRefines(s: State, nid: Uuid, row: Uuid, n: Uuid)
    requires Enabled(s, ManualRetry(nid, row)) && n in s.db.notifications
    ensures n in DoManualRetry(s, nid, row).db.notifications
    ensures L.Moves(LedgerOf(s, n), MoveOf(s, ManualRetry(nid, row), n), LedgerOf(DoManualRetry(s, nid, row), n))
  {
    var tx := RetryTx(s.db, nid, row, s.now);
    if tx.err.None? {
      RetryMoves(s, tx.db, nid, row, n);
    }
  }

  lemma RetryMoves(s: State, db: Db, nid: Uuid, row: Uuid, n: Uuid)
    requires n in s.db.notifications && row !in s.db.outbox
    requires RetryTx(s.db, nid, row, s.now) == Tx(db, None)
    ensures n in db.notifications
    ensures L.Moves(LedgerOf(s, n), if n == nid then L.Reset else L.Stay,
                    LedgerOf(s.(db := db, log := s.log + [WasReset(nid, row)]), n))
  {
    RetryBooks(s.db, nid, row, s.now, n);
    LogAppend(s.log, WasReset(nid, row), n);
    if n != nid {
      assert LedgerOf(s.(db := db, log := s.log + [WasReset(nid, row)]), n) == LedgerOf(s, n);
    }
  }

  lemma MarkRefines(s: State, w: nat, n: Uuid)
    requires Enabled(s, MarkDelivering(w)) && n in s.db.notifications
    ensures L.Moves(LedgerOf(s, n), MoveOf(s, MarkDelivering(w), n), LedgerOf(DoMarkDelivering(s, w), n))
  {
    LogAppend(s.log, WasMarked(WorkerOf(s, w).phase.task.id), n);
  }

  lemma DeliverRefines(s: State, w: nat, result: AttemptResult, n: Uuid)
    requires Enabled(s, Deliver(w, result)) && n in s.db.notifications
    requires FlightOk(s.db.notifications, s.workers[w]) && MarksCover(s.log, s.workers)
    ensures L.Moves(LedgerOf(s, n), MoveOf(s, Deliver(w, result), n), LedgerOf(DoDeliver(s, w, result), n))
  {
    assert Covers(s.log, s.workers[w]);
    LogAppend(s.log, WasDispatched(s.workers[w].phase.task.id, result), n);
  }

  /** The ledger entries a successful record makes. */
  lemma RecordBooks(db: Db, nid: Uuid, conclusion: Conclusion, row: Uuid, now: Time, n: Uuid)
    requires RecordTx(db, nid, conclusion, row, now).err.None? && (conclusion.Reschedules() ==> row !in db.outbox)
    ensures var after := RecordTx(db, nid, conclusion, row, now).db;
            var move := RecordMove(nid, conclusion);
            && AttemptsOf(after.attempts, n) ==
               (if nid == n then AttemptsOf(db.attempts, n) + [move.attempt] else AttemptsOf(db.attempts, n))
            && |RowsOf(after.outbox, n)| == |RowsOf(db.outbox, n)| + (if nid == n && move.Reschedule? then 1 else 0)
  {
    AttemptsOfAppend(db.attempts, RecordMove(nid, conclusion).attempt, n);
    if conclusion.Reschedules() {
      RowAdded(db.outbox, row, NewOutboxRow(nid, conclusion.failure.nextAttemptAt.value, now), n);
    }
  }

  lemma RecordRefines(s: State, w: nat, row: Uuid, n: Uuid)
    requires Enabled(s, Record(w, row)) && n in s.db.notifications
    requires s.cursor <= |s.stream| && WorkerOk(s, WorkerOf(s, w)) && Covers(s.log, WorkerOf(s, w))
    ensures n in DoRecord(s, w, row).db.notifications
    ensures L.Moves(LedgerOf(s, n), MoveOf(s, Record(w, row), n), LedgerOf(DoRecord(s, w, row), n))
  {
    var phase := WorkerOf(s, w).phase;
    var nid := phase.task.id;
    var tx := RecordTx(s.db, nid, phase.conclusion, row, s.now);
    if tx.err.None? {
      var next := if phase.conclusion.Failure? then phase.conclusion.failure.nextAttemptAt else None;
      var item := WasRecorded(nid, phase.decidedAt, next, if phase.conclusion.Reschedules() then Some(row) else None);
      RecordMoves(s, tx.db, item, nid, phase.conclusion, row, n);
      assert DoRecord(s, w, row).log == s.log + [item];
    }
  }

  /** A committed record is the ledger's move, seen on any state with those tables and that log. */
  lemma RecordMoves(s: State, db: Db, item: LogItem, nid: Uuid, conclusion: Conclusion, row: Uuid, n: Uuid)
    requires n in s.db.notifications && item.WasRecorded? && (conclusion.Reschedules() ==> row !in s.db.outbox)
    requires RecordTx(s.db, nid, conclusion, row, s.now) == Tx(db, None)
    requires EpochDispatches(s.log, nid) == EpochMarks(s.log, nid)
    requires conclusion.Reschedules() ==> conclusion.Attempt().number < s.db.notifications[nid].maxAttempts
    requires conclusion.Failure? ==> (conclusion.failure.terminal <==> conclusion.failure.nextAttemptAt.None?)
    ensures n in db.notifications
    ensures L.Moves(LedgerOf(s, n), if n == nid then RecordMove(nid, conclusion) else L.Stay,
                    LedgerOf(s.(db := db, log := s.log + [item]), n))
  {
    RecordBooks(s.db, nid, conclusion, row, s.now, n);
    LogAppend(s.log, item, n);
    if n == nid {
      RecordRow(s.db, nid, conclusion, row, s.now);
    } else {
      assert db.notifications[n] == s.db.notifications[n];
      assert LedgerOf(s.(db := db, log := s.log + [item]), n) == LedgerOf(s, n);
    }
  }

  /** The notification row a committed record leaves. */
  lemma RecordRow(db: Db, nid: Uuid, conclusion: Conclusion, row: Uuid, now: Time)
    requires RecordTx(db, nid, conclusion, row, now).err.None?
    requires conclusion.Failure? ==> (conclusion.failure.terminal <==> conclusion.failure.nextAttemptAt.None?)
    ensures var before := db.notifications[nid];
            var a := RecordMove(nid, conclusion).attempt;
            && before.status.Delivering?
            && a.number == before.attemptCount + 1
            && RecordTx(db, nid, conclusion, row, now).db.notifications[nid] ==
               match RecordMove(nid, conclusion)
               case Reschedule(_, at) => Notification(Retrying, a.number, before.maxAttempts, L.MessageOf(a), Some(at))
               case GiveUp(_) => Notification(Failed, a.number, before.maxAttempts, L.MessageOf(a), None)
               case _ => Notification(Succeeded, a.number, before.maxAttempts, "", None)
  {
  }

  /** Relays change outbox rows but not whose they are, and log nothing a ledger counts. */
  lemma ClaimRefines(s: State, r: nat, locker: string, events: seq<Event>, n: Uuid)
    requires n in s.db.notifications
    ensures LedgerOf(DoClaim(s, r, locker, events), n) == LedgerOf(s, n)
  {
    RowsSame(s.db.outbox, DoClaim(s, r, locker, events).db.outbox, n);
    LogAppend(s.log, WereClaimed(EventIds(events), r, locker, s.now), n);
  }

  lemma MarkPublishedRefines(s: State, r: nat, n: Uuid)
    requires Enabled(s, MarkPublished(r)) && n in s.db.notifications
    ensures LedgerOf(DoMarkPublished(s, r), n) == LedgerOf(s, n)
  {
    RowsSame(s.db.outbox, DoMarkPublished(s, r).db.outbox, n);
    LogAppend(s.log, WasPublished(RelayOf(s, r).batch[0].id), n);
  }

  lemma MarkFailedRefines(s: State, r: nat, n: Uuid)
    requires Enabled(s, MarkFailed(r)) && n in s.db.notifications
    ensures LedgerOf(DoMarkFailed(s, r), n) == LedgerOf(s, n)
  {
    RowsSame(s.db.outbox, DoMarkFailed(s, r).db.outbox, n);
    LogAppend(s.log, WasReleased(RelayOf(s, r).batch[0].id), n);
  }

  lemma CreateStutters(s: State, nid: Uuid, row: Uuid, maxAttempts: int, n: Uuid)
    requires Enabled(s, Create(nid, row, maxAttempts)) && n in s.db.notifications
    ensures LedgerOf(Apply(s, Create(nid, row, maxAttempts)), n) == LedgerOf(s, n)
  {
    LogAppend(s.log, WasCreated(nid, row), n);
    RowAdded(s.db.outbox, row, NewOutboxRow(nid, s.now, s.now), n);
  }

  lemma CreateIsFresh(s: State, nid: Uuid, row: Uuid, maxAttempts: int)
    requires Enabled(s, Create(nid, row, maxAttempts)) && RowsOk(s.db) && Known(s)
    ensures L.Fresh(LedgerOf(Apply(s, Create(nid, row, maxAttempts)), nid))
  {
    LogAppend(s.log, WasCreated(nid, row), nid);
    RowAdded(s.db.outbox, row, NewOutboxRow(nid, s.now, s.now), nid);
    assert RowsOf(s.db.outbox, nid) == {};
    NoAttempts(s.db.attempts, nid);
    NoLog(s.log, nid);
  }

  lemma {:induction false} NoAttempts(attempts: seq<Attempt>, nid: Uuid)
    requires forall i :: 0 <= i < |attempts| ==> attempts[i].nid != nid
    ensures AttemptsOf(attempts, nid) == []
  {
    if attempts != [] {
      NoAttempts(attempts[..|attempts| - 1], nid);
    }
  }

  lemma {:induction false} NoLog(log: seq<LogItem>, nid: Uuid)
    requires forall i :: 0 <= i < |log| && (log[i].WasReset? || log[i].WasMarked?) ==> log[i].nid != nid
    ensures CountMarks(log, nid) == CountResets(log, nid) == 0
  {
    if log != [] {
      NoLog(log[..|log| - 1], nid);
    }
  }

  /** Steps that commit no transaction of a ledger's concern. */
  predicate Quiet(step: Step) {
    step.Tick? || step.Append? || step.AppendError? || step.RelayCrash? || step.Read? || step.AutoClaim?
    || step.AckMalformed? || step.Load? || step.Ack? || step.Abandon? || step.WorkerCrash?
  }

  lemma QuietSteps(s: State, step: Step)
    requires Enabled(s, step) && Quiet(step)
    ensures Apply(s, step).db == s.db && Apply(s, step).log == s.log
  {
  }

  lemma QuietRefines(s: State, step: Step, nid: Uuid)
    requires Enabled(s, step) && Quiet(step) && nid in s.db.notifications
    ensures nid in Apply(s, step).db.notifications
    ensures MoveOf(s, step, nid) == L.Stay && LedgerOf(Apply(s, step), nid) == LedgerOf(s, nid)
  {
    QuietSteps(s, step);
  }

  /** Refinement: for a notification that exists, every step is its move of the sequential machine. */
  lemma StepRefines(s: State, step: Step, nid: Uuid)
    requires WorkersOk(s) && Guarded(s) && Enabled(s, step) && nid in s.db.notifications
    ensures nid in Apply(s, step).db.notifications
    ensures L.Moves(LedgerOf(s, nid), MoveOf(s, step, nid), LedgerOf(Apply(s, step), nid))
  {
    if Quiet(step) {
      QuietRefines(s, step, nid);
    } else if step.Claim? || step.MarkPublished? || step.MarkFailed? {
      RelayRefines(s, step, nid);
    } else {
      match step {
        case Create(n, row, maxAttempts) => CreateStutters(s, n, row, maxAttempts, nid);
        case ManualRetry(n, row) => ManualRetryRefines(s, n, row, nid);
        case MarkDelivering(w) => MarkRefines(s, w, nid);
        case Deliver(w, result) => DeliverRefines(s, w, result, nid);
        case Record(w, row) =>
          WorkerOfFine(s, w);
          assert Covers(s.log, s.workers[w]);
          RecordRefines(s, w, row, nid);
      }
    }
  }

  lemma WorkerOfFine(s: State, w: nat)
    requires WorkersOk(s)
    ensures WorkerOk(s, WorkerOf(s, w))
  {
  }

  lemma RelayRefines(s: State, step: Step, nid: Uuid)
    requires Enabled(s, step) && nid in s.db.notifications
    requires step.Claim? || step.MarkPublished? || step.MarkFailed?
    ensures nid in Apply(s, step).db.notifications
    ensures MoveOf(s, step, nid) == L.Stay && LedgerOf(Apply(s, step), nid) == LedgerOf(s, nid)
  {
    match step {
      case Claim(r, locker, _, _, events) => ClaimRefines(s, r, locker, events, nid);
      case MarkPublished(r) => MarkPublishedRefines(s, r, nid);
      case MarkFailed(r) => MarkFailedRefines(s, r, nid);
    }
  }

  /**
   * A notification appears only by creation: with fresh books and the
   * max_attempts asked for, and with a pending outbox row of its own that is due now.
   */
  lemma AppearsFresh(s: State, step: Step, nid: Uuid)
    requires RowsOk(s.db) && Known(s) && Enabled(s, step)
    requires nid !in s.db.notifications && nid in Apply(s, step).db.notifications
    ensures step.Create? && step.nid == nid && L.Fresh(LedgerOf(Apply(s, step), nid))
    ensures Apply(s, step).db.notifications[nid].maxAttempts == step.maxAttempts
    ensures step.row !in s.db.outbox && step.row in Apply(s, step).db.outbox
    ensures var row := Apply(s, step).db.outbox[step.row];
            row.nid == nid && row.status.OutboxPending? && row.scheduledAt == s.now && row.createdAt == s.now
  {
    OnlyCreateAdds(s, step, nid);
    CreateIsFresh(s, step.nid, step.row, step.maxAttempts);
  }

  lemma OnlyCreateAdds(s: State, step: Step, nid: Uuid)
    requires Enabled(s, step) && nid !in s.db.notifications && nid in Apply(s, step).db.notifications
    ensures step.Create? && step.nid == nid
  {
  }

  lemma StepKeepsLedger(s: State, step: Step, nid: Uuid)
    requires Shape(s) && Guarded(s) && Enabled(s, step)
    requires nid in s.db.notifications ==> L.Sound(LedgerOf(s, nid))
    requires nid in Apply(s, step).db.notifications
    ensures L.Sound(LedgerOf(Apply(s, step), nid))
  {
    if nid in s.db.notifications {
      StepRefines(s, step, nid);
      L.MovesKeepSound(LedgerOf(s, nid), MoveOf(s, step, nid), LedgerOf(Apply(s, step), nid));
    } else {
      AppearsFresh(s, step, nid);
      L.FreshIsSound(LedgerOf(Apply(s, step), nid));
    }
  }

  lemma StepKeepsLedgers(s: State, step: Step)
    requires Inv(s) && Enabled(s, step)
    ensures LedgersSound(Apply(s, step))
  {
    forall nid | nid in Apply(s, step).db.notifications
      ensures L.Sound(LedgerOf(Apply(s, step), nid))
    {
      StepKeepsLedger(s, step, nid);
    }
  }

  // ----- exclusion and the rest of the invariant

  /** With the workers unchanged, it is enough that delivering notifications keep their status and counts. */
  lemma BystandersKept(s: State, t: State)
    requires Guarded(s) && t.workers == s.workers && Known(t) && DispatchesCovered(t.db.notifications, t.log)
    requires forall n :: n in s.db.notifications && s.db.notifications[n].status.Delivering? ==>
               && n in t.db.notifications && t.db.notifications[n].status.Delivering?
               && EpochMarks(t.log, n) == EpochMarks(s.log, n)
               && EpochDispatches(t.log, n) == EpochDispatches(s.log, n)
    ensures Guarded(t)
  {
    forall w | w in t.workers
      ensures FlightOk(t.db.notifications, t.workers[w])
    {
      assert FlightOk(s.db.notifications, s.workers[w]);
    }
    forall w | w in t.workers
      ensures Covers(t.log, t.workers[w])
    {
      assert FlightOk(s.db.notifications, s.workers[w]) && Covers(s.log, s.workers[w]);
    }
  }

  lemma CreateKeepsGuarded(s: State, nid: Uuid, row: Uuid, maxAttempts: int)
    requires Guarded(s) && Enabled(s, Create(nid, row, maxAttempts))
    ensures Guarded(Apply(s, Create(nid, row, maxAttempts)))
  {
    forall n {
      LogAppend(s.log, WasCreated(nid, row), n);
    }
    BystandersKept(s, Apply(s, Create(nid, row, maxAttempts)));
  }

  lemma ManualRetryKeepsGuarded(s: State, nid: Uuid, row: Uuid)
    requires Guarded(s)
    ensures Guarded(DoManualRetry(s, nid, row))
  {
    var tx := RetryTx(s.db, nid, row, s.now);
    if tx.err.None? {
      var t := DoManualRetry(s, nid, row);
      assert t == s.(db := tx.db, log := s.log + [WasReset(nid, row)]);
      forall n {
        LogAppend(s.log, WasReset(nid, row), n);
      }
      BystandersKept(s, t);
    }
  }

  /** Log items of relays count for no ledger. */
  lemma RelayLogKeepsGuarded(s: State, t: State, item: LogItem)
    requires Guarded(s) && t.workers == s.workers
    requires t.db.notifications == s.db.notifications && t.db.attempts == s.db.attempts
    requires t.log == s.log + [item] && (item.WereClaimed? || item.WasPublished? || item.WasReleased?)
    ensures Guarded(t)
  {
    forall n {
      LogAppend(s.log, item, n);
    }
    BystandersKept(s, t);
  }

  /** A worker that sheds its flight, or never had one, disturbs nobody. */
  lemma SheddingKept(s: State, t: State, w: nat)
    requires Guarded(s) && t.db == s.db && t.log == s.log
    requires w in t.workers && t.workers == s.workers[w := t.workers[w]]
    requires Flight(t.workers[w]).None?
    ensures Guarded(t)
  {
  }

  lemma MarkKeepsGuarded(s: State, w: nat)
    requires Guarded(s) && Enabled(s, MarkDelivering(w))
    ensures Guarded(DoMarkDelivering(s, w))
  {
    var t := DoMarkDelivering(s, w);
    var nid := WorkerOf(s, w).phase.task.id;
    if MarkDeliveringTx(s.db, nid).err.Some? {
      SheddingKept(s, t, w);
    } else {
      MarkKeepsFlights(s, w);
      MarkKeepsCover(s, t, w, nid);
    }
  }

  lemma MarkKeepsCover(s: State, t: State, w: nat, nid: Uuid)
    requires MarksCover(s.log, s.workers) && DispatchesCovered(s.db.notifications, s.log)
    requires forall v :: v in s.workers ==> FlightOk(s.db.notifications, s.workers[v])
    requires nid in s.db.notifications && !s.db.notifications[nid].status.Delivering?
    requires nid in t.db.notifications && t.db.notifications[nid].status.Delivering?
    requires t.db.notifications == s.db.notifications[nid := t.db.notifications[nid]]
    requires t.log == s.log + [WasMarked(nid)]
    requires w in t.workers && t.workers == s.workers[w := t.workers[w]]
    requires t.workers[w].phase.Marked? && t.workers[w].phase.task.id == nid
    ensures MarksCover(t.log, t.workers) && DispatchesCovered(t.db.notifications, t.log)
  {
    forall n {
      LogAppend(s.log, WasMarked(nid), n);
    }
    forall v | v in t.workers
      ensures Covers(t.log, t.workers[v])
    {
      if v != w {
        assert FlightOk(s.db.notifications, s.workers[v]) && Covers(s.log, s.workers[v]);
      }
    }
  }

  lemma MarkKeepsFlights(s: State, w: nat)
    requires Exclusive(s.db.notifications, s.workers) && Enabled(s, MarkDelivering(w))
    requires MarkDeliveringTx(s.db, WorkerOf(s, w).phase.task.id).err.None?
    ensures Exclusive(DoMarkDelivering(s, w).db.notifications, DoMarkDelivering(s, w).workers)
  {
    var t := DoMarkDelivering(s, w);
    forall v | v in t.workers
      ensures FlightOk(t.db.notifications, t.workers[v])
      ensures v != w ==> Flight(t.workers[v]) != Flight(t.workers[w])
    {
      if v != w {
        assert FlightOk(s.db.notifications, s.workers[v]);
      }
    }
  }

  lemma DeliverKeepsGuarded(s: State, w: nat, result: AttemptResult)
    requires Guarded(s) && Enabled(s, Deliver(w, result))
    ensures Guarded(DoDeliver(s, w, result))
  {
    var t := DoDeliver(s, w, result);
    DeliverKeepsFlights(s, w, result);
    DeliverKeepsCover(s.log, s.workers, t.workers, w, result);
    forall n | n in t.db.notifications
      ensures EpochDispatches(t.log, n) <= EpochMarks(t.log, n)
      ensures EpochMarks(t.log, n) <= EpochDispatches(t.log, n) + if t.db.notifications[n].status.Delivering? then 1 else 0
    {
      LogAppend(s.log, WasDispatched(WorkerOf(s, w).phase.task.id, result), n);
      assert Covers(s.log, s.workers[w]) && FlightOk(s.db.notifications, s.workers[w]);
    }
  }

  lemma DeliverKeepsFlights(s: State, w: nat, result: AttemptResult)
    requires Exclusive(s.db.notifications, s.workers) && Enabled(s, Deliver(w, result))
    ensures Exclusive(s.db.notifications, DoDeliver(s, w, result).workers)
  {
    var t := DoDeliver(s, w, result);
    assert forall v :: v in t.workers ==> Flight(t.workers[v]) == Flight(s.workers[v]);
  }

  lemma DeliverKeepsCover(log: seq<LogItem>, before: map<nat, Worker>, after: map<nat, Worker>, w: nat, result: AttemptResult)
    requires w in before && before[w].phase.Marked? && MarksCover(log, before)
    requires forall v :: v in before && v != w && Flight(before[v]).Some? ==> Flight(before[v]) != Flight(before[w])
    requires w in after && after == before[w := after[w]]
    requires after[w].phase.Concluded? && after[w].phase.task == before[w].phase.task
    ensures MarksCover(log + [WasDispatched(before[w].phase.task.id, result)], after)
  {
    var item := WasDispatched(before[w].phase.task.id, result);
    forall v | v in after
      ensures Covers(log + [item], after[v])
    {
      assert Covers(log, before[v]);
      assert Flight(before[w]) == Some(item.nid);
      if Flight(after[v]).Some? {
        LogAppend(log, item, Flight(after[v]).value);
      }
    }
  }

  lemma RecordKeepsGuarded(s: State, w: nat, row: Uuid)
    requires Guarded(s) && Enabled(s, Record(w, row))
    ensures Guarded(DoRecord(s, w, row))
  {
    var t := DoRecord(s, w, row);
    var phase := WorkerOf(s, w).phase;
    if RecordTx(s.db, phase.task.id, phase.conclusion, row, s.now).err.Some? {
      SheddingKept(s, t, w);
    } else {
      RecordKeepsFlights(s, w, row);
      RecordKeepsCover(s, w, row);
      RecordKeepsKnown(s, w, row);
    }
  }

  lemma RecordKeepsKnown(s: State, w: nat, row: Uuid)
    requires Known(s) && Enabled(s, Record(w, row))
    ensures Known(DoRecord(s, w, row))
  {
  }

  lemma RecordKeepsCover(s: State, w: nat, row: Uuid)
    requires MarksCover(s.log, s.workers) && DispatchesCovered(s.db.notifications, s.log)
    requires Enabled(s, Record(w, row))
    requires RecordTx(s.db, WorkerOf(s, w).phase.task.id, WorkerOf(s, w).phase.conclusion, row, s.now).err.None?
    ensures var t := DoRecord(s, w, row);
            MarksCover(t.log, t.workers) && DispatchesCovered(t.db.notifications, t.log)
  {
    var t := DoRecord(s, w, row);
    assert Covers(s.log, s.workers[w]);
    RecordLogKeepsCover(s, t, w, WorkerOf(s, w).phase.task.id, t.log[|s.log|]);
  }

  lemma RecordLogKeepsCover(s: State, t: State, w: nat, nid: Uuid, item: LogItem)
    requires MarksCover(s.log, s.workers) && DispatchesCovered(s.db.notifications, s.log)
    requires EpochDispatches(s.log, nid) == EpochMarks(s.log, nid)
    requires t.db.notifications.Keys == s.db.notifications.Keys
    requires forall n :: n in s.db.notifications && n != nid ==> t.db.notifications[n] == s.db.notifications[n]
    requires t.log == s.log + [item] && item.WasRecorded?
    requires w in t.workers && t.workers == s.workers[w := t.workers[w]] && t.workers[w].phase.Settled?
    ensures MarksCover(t.log, t.workers) && DispatchesCovered(t.db.notifications, t.log)
  {
    forall n {
      LogAppend(s.log, item, n);
    }
    forall v | v in t.workers
      ensures Covers(t.log, t.workers[v])
    {
      if v != w {
        assert Covers(s.log, s.workers[v]);
      }
    }
    assert forall n :: n in t.db.notifications <==> n in t.db.notifications.Keys;
  }

  lemma RecordKeepsFlights(s: State, w: nat, row: Uuid)
    requires Exclusive(s.db.notifications, s.workers) && Enabled(s, Record(w, row))
    requires RecordTx(s.db, WorkerOf(s, w).phase.task.id, WorkerOf(s, w).phase.conclusion, row, s.now).err.None?
    ensures Exclusive(DoRecord(s, w, row).db.notifications, DoRecord(s, w, row).workers)
  {
    var t := DoRecord(s, w, row);
    assert Flight(s.workers[w]) == Some(s.workers[w].phase.task.id);
    forall v | v in t.workers
      ensures FlightOk(t.db.notifications, t.workers[v])
    {
      if v != w {
        assert FlightOk(s.db.notifications, s.workers[v]);
        assert Flight(s.workers[v]) != Flight(s.workers[w]);
      }
    }
  }

  lemma RelayKeepsGuarded(s: State, step: Step)
    requires Guarded(s) && Enabled(s, step)
    requires step.Claim? || step.MarkPublished? || step.MarkFailed?
    ensures Guarded(Apply(s, step))
  {
    match step {
      case Claim(r, locker, _, _, events) =>
        RelayLogKeepsGuarded(s, Apply(s, step), WereClaimed(EventIds(events), r, locker, s.now));
      case MarkPublished(r) =>
        var relay := RelayOf(s, r);
        if MarkPublishedTx(s.db, relay.batch[0].id, relay.phase.streamId, relay.locker).err.None? {
          RelayLogKeepsGuarded(s, Apply(s, step), WasPublished(relay.batch[0].id));
        }
      case MarkFailed(r) =>
        var relay := RelayOf(s, r);
        if MarkFailedTx(s.db, relay.batch[0].id, relay.phase.reason, relay.locker).err.None? {
          RelayLogKeepsGuarded(s, Apply(s, step), WasReleased(relay.batch[0].id));
        }
    }
  }

  lemma QuietKeepsGuarded(s: State, step: Step)
    requires Guarded(s) && Enabled(s, step) && Quiet(step)
    ensures Guarded(Apply(s, step))
  {
    var t := Apply(s, step);
    QuietSteps(s, step);
    if step.Tick? || step.Append? || step.AppendError? || step.RelayCrash? {
      assert t.workers == s.workers;
    } else {
      assert t.workers == s.workers[step.w := t.workers[step.w]];
      SheddingKept(s, t, step.w);
    }
  }

  lemma StepKeepsGuarded(s: State, step: Step)
    requires Guarded(s) && Enabled(s, step)
    ensures Guarded(Apply(s, step))
  {
    if Quiet(step) {
      QuietKeepsGuarded(s, step);
    } else if step.Claim? || step.MarkPublished? || step.MarkFailed? {
      RelayKeepsGuarded(s, step);
    } else {
      match step {
        case Create(nid, row, maxAttempts) => CreateKeepsGuarded(s, nid, row, maxAttempts);
        case ManualRetry(nid, row) => ManualRetryKeepsGuarded(s, nid, row);
        case MarkDelivering(w) => MarkKeepsGuarded(s, w);
        case Deliver(w, result) => DeliverKeepsGuarded(s, w, result);
        case Record(w, row) => RecordKeepsGuarded(s, w, row);
      }
    }
  }

  lemma StepKeepsInv(s: State, step: Step)
    requires Inv(s) && Enabled(s, step)
    ensures Inv(Apply(s, step))
  {
    StepKeepsShape(s, step);
    StepKeepsGuarded(s, step);
    StepKeepsLedgers(s, step);
  }

  lemma {:induction false} RunKeepsInv(s: State, steps: seq<Step>, t: State)
    requires Inv(s) && Run(s, steps, t)
    ensures Inv(t)
    decreases |steps|
  {
    if steps != [] {
      StepKeepsInv(s, steps[0]);
      RunKeepsInv(Apply(s, steps[0]), steps[1..], t);
    }
  }

  /** The invariant holds in every reachable state. */
  lemma ReachableInv(t: State)
    requires Reachable(t)
    ensures Inv(t)
  {
    var now, policy, steps :| Run(Initial(now, policy), steps, t);
    InitialInv(now, policy);
    RunKeepsInv(Initial(now, policy), steps, t);
  }
}

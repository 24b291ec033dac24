/**
 * The three PostgreSQL tables and what each transaction of the repository
 * (internal/notification/ent_repository.go) and of the outbox store
 * (internal/outbox/postgres_store.go) does to them.
 */
module Tables {
  import opened Common
  import opened Uuids
  import opened Message
  import opened Retry
  import opened Delivery

  const LEASE: Time := 300 * SECOND

  datatype Notification = Notification(
    status: Status, attemptCount: int, maxAttempts: int,
    lastError: string, nextAttemptAt: Option<Time>)

  datatype AttemptStatus = AttemptSucceeded | AttemptRetrying | AttemptFailed

  datatype Attempt = Attempt(
    nid: Uuid, number: int, status: AttemptStatus,
    httpStatus: Option<int>, error: Option<string>)

  /** OutboxFailed is in the schema although no code writes it. */
  datatype OutboxStatus = OutboxPending | OutboxPublishing | OutboxPublished | OutboxFailed

  datatype OutboxRow = OutboxRow(
    nid: Uuid, eventType: string, status: OutboxStatus, scheduledAt: Time, createdAt: Time,
    streamId: Option<nat>, lockedBy: string, lockedAt: Option<Time>, lastError: string)

  datatype Db = Db(
    notifications: map<Uuid, Notification>,
    attempts: seq<Attempt>,
    outbox: map<Uuid, OutboxRow>)

  /** The database after a transaction, and the error its caller gets. */
  datatype Tx = Tx(db: Db, err: Option<Error>)

  function NewOutboxRow(nid: Uuid, scheduledAt: Time, now: Time): OutboxRow {
    OutboxRow(nid, EVENT_TYPE_NOTIFICATION_DELIVERY, OutboxPending, scheduledAt, now, None, "", None, "")
  }

  function NewAttempt(nid: Uuid, recorded: RecordedAttempt, status: AttemptStatus): Attempt {
    Attempt(nid, recorded.number, status,
            if recorded.statusCode > 0 then Some(recorded.statusCode) else None,
            if recorded.errorMessage != "" then Some(recorded.errorMessage) else None)
  }

  // ----- internal/notification/ent_repository.go

  function CreateTx(db: Db, nid: Uuid, row: Uuid, maxAttempts: int, now: Time): Db {
    db.(notifications := db.notifications[nid := Notification(Pending, 0, maxAttempts, "", None)],
        outbox := db.outbox[row := NewOutboxRow(nid, now, now)])
  }

  function RetryTx(db: Db, nid: Uuid, row: Uuid, now: Time): Tx {
    if nid !in db.notifications then Tx(db, Some(ErrNotFound))
    else if !db.notifications[nid].status.Failed? then Tx(db, Some(ErrConflict))
    else
      var current := db.notifications[nid];
      var reset := current.(status := Pending, attemptCount := 0, lastError := "", nextAttemptAt := None);
      Tx(db.(notifications := db.notifications[nid := reset],
             outbox := db.outbox[row := NewOutboxRow(nid, now, now)]), None)
  }

  function TaskOf(nid: Uuid, n: Notification): Task {
    Task(nid, n.status, n.attemptCount, n.maxAttempts)
  }

  function MarkDeliveringTx(db: Db, nid: Uuid): Tx {
    if nid in db.notifications && db.notifications[nid].status.Live() then
      var marked := db.notifications[nid].(status := Delivering, nextAttemptAt := None);
      Tx(db.(notifications := db.notifications[nid := marked]), None)
    else Tx(db, Some(ErrConflict))
  }

  /** The WHERE clause of both record updates. */
  predicate RecordMatches(db: Db, nid: Uuid, number: int) {
    && nid in db.notifications
    && db.notifications[nid].status.Delivering?
    && db.notifications[nid].attemptCount == number - 1
  }

  function RecordSuccessTx(db: Db, nid: Uuid, recorded: RecordedAttempt): Tx {
    if RecordMatches(db, nid, recorded.number) then
      var done := db.notifications[nid].(status := Succeeded, attemptCount := recorded.number,
                                         lastError := "", nextAttemptAt := None);
      Tx(db.(notifications := db.notifications[nid := done],
             attempts := db.attempts + [NewAttempt(nid, recorded, AttemptSucceeded)]), None)
    else Tx(db, Some(ErrConflict))
  }

  function RecordFailureTx(db: Db, nid: Uuid, failure: RecordedFailure, row: Uuid, now: Time): Tx {
    if RecordMatches(db, nid, failure.attempt.number) then
      var again := failure.Reschedules();
      var updated := db.notifications[nid].(
        status := if again then Retrying else Failed,
        attemptCount := failure.attempt.number,
        lastError := failure.attempt.errorMessage,
        nextAttemptAt := failure.nextAttemptAt);
      var attempt := NewAttempt(nid, failure.attempt, if again then AttemptRetrying else AttemptFailed);
      Tx(Db(db.notifications[nid := updated],
            db.attempts + [attempt],
            if again then db.outbox[row := NewOutboxRow(nid, failure.nextAttemptAt.value, now)]
            else db.outbox), None)
    else Tx(db, Some(ErrConflict))
  }

  function RecordTx(db: Db, nid: Uuid, conclusion: Conclusion, row: Uuid, now: Time): Tx {
    match conclusion
    case Success(attempt) => RecordSuccessTx(db, nid, attempt)
    case Failure(failure) => RecordFailureTx(db, nid, failure, row, now)
  }

  // ----- internal/outbox/postgres_store.go

  /** Due, and either unclaimed or claimed more than five minutes ago. */
  predicate Eligible(row: OutboxRow, now: Time) {
    && row.scheduledAt <= now
    && (row.status.OutboxPending? ||
        (row.status.OutboxPublishing? && row.lockedAt.Some? && row.lockedAt.value < now - LEASE))
  }

  function EligibleRows(outbox: map<Uuid, OutboxRow>, now: Time): set<Uuid> {
    set id | id in outbox && Eligible(outbox[id], now)
  }

  /** The claim order: by scheduled_at, then by created_at. */
  predicate Before(a: OutboxRow, b: OutboxRow) {
    a.scheduledAt < b.scheduledAt || (a.scheduledAt == b.scheduledAt && a.createdAt < b.createdAt)
  }

  function EffectiveLimit(limit: int): (l: nat)
    ensures l > 0
  {
    if limit <= 0 then 50 else limit
  }

  /**
   * `picked` is a first `limit` of the eligible rows that no other transaction
   * has locked (`locked`); rows equal on both sort keys may come in any order.
   */
  ghost predicate IsClaim(outbox: map<Uuid, OutboxRow>, now: Time, limit: int, locked: set<Uuid>, picked: set<Uuid>) {
    var open := EligibleRows(outbox, now) - locked;
    && picked <= open
    && |picked| <= EffectiveLimit(limit)
    && (picked == open || |picked| == EffectiveLimit(limit))
    && forall p, q :: p in picked && q in open - picked ==> !Before(outbox[q], outbox[p])
  }

  function LockRow(row: OutboxRow, locker: string, now: Time): OutboxRow {
    row.(status := OutboxPublishing, lockedBy := locker, lockedAt := Some(now), lastError := "")
  }

  function ClaimTx(db: Db, picked: set<Uuid>, locker: string, now: Time): Db {
    db.(outbox := map id | id in db.outbox ::
          if id in picked then LockRow(db.outbox[id], locker, now) else db.outbox[id])
  }

  /** The WHERE clause of MarkPublished and MarkFailed. */
  predicate Holds(db: Db, id: Uuid, locker: string) {
    id in db.outbox && db.outbox[id].status.OutboxPublishing? && db.outbox[id].lockedBy == locker
  }

  function MarkPublishedTx(db: Db, id: Uuid, streamId: nat, locker: string): Tx {
    if Holds(db, id, locker) then
      var row := db.outbox[id].(status := OutboxPublished, streamId := Some(streamId), lockedBy := "", lockedAt := None);
      Tx(db.(outbox := db.outbox[id := row]), None)
    else Tx(db, Some(ErrLostClaim))
  }

  function MarkFailedTx(db: Db, id: Uuid, reason: string, locker: string): Tx {
    if Holds(db, id, locker) then
      var row := db.outbox[id].(status := OutboxPending, lastError := reason, lockedBy := "", lockedAt := None);
      Tx(db.(outbox := db.outbox[id := row]), None)
    else Tx(db, Some(ErrLostClaim))
  }

  function EventOf(id: Uuid, row: OutboxRow): Event {
    Event(id, row.nid, row.eventType, row.scheduledAt)
  }

  /** `events` lists the picked rows, each once, in any order. */
  ghost predicate Lists(outbox: map<Uuid, OutboxRow>, picked: set<Uuid>, events: seq<Event>) {
    && (forall e :: e in events ==> e.id in picked && e.id in outbox && e == EventOf(e.id, outbox[e.id]))
    && (forall id :: id in picked ==> exists e :: e in events && e.id == id)
    && (forall i, j :: 0 <= i < j < |events| ==> events[i].id != events[j].id)
  }

  // ----- table views

  /** One notification's attempt rows, in commit order. */
  function AttemptsOf(attempts: seq<Attempt>, nid: Uuid): (history: seq<Attempt>) {
    if attempts == [] then []
    else
      var last := attempts[|attempts| - 1];
      AttemptsOf(attempts[..|attempts| - 1], nid) + if last.nid == nid then [last] else []
  }

  lemma AttemptsOfAppend(attempts: seq<Attempt>, a: Attempt, nid: Uuid)
    ensures AttemptsOf(attempts + [a], nid) == AttemptsOf(attempts, nid) + if a.nid == nid then [a] else []
  {
    assert (attempts + [a])[..|attempts|] == attempts;
  }

  function RowsOf(outbox: map<Uuid, OutboxRow>, nid: Uuid): set<Uuid> {
    set id | id in outbox && outbox[id].nid == nid
  }
}

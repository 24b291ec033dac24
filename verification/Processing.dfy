/**
 * What one undisturbed call of Processor.Process does to the tables
 * (internal/delivery/processor.go): load, mark, dispatch, record.
 */
module Processing {
  import opened Common
  import opened Uuids
  import opened Retry
  import opened Delivery
  import opened Tables

  datatype Processed = Processed(db: Db, err: Option<Error>, dispatched: bool)

  function Process(db: Db, policy: RetryPolicy, nid: Uuid, result: AttemptResult, row: Uuid, now: Time): Processed {
    if nid !in db.notifications then Processed(db, Some(ErrNotFound), false)
    else
      var task := TaskOf(nid, db.notifications[nid]);
      if task.status.Terminal() then Processed(db, None, false)
      else
        var marked := MarkDeliveringTx(db, nid);
        if marked.err.Some? then Processed(db, marked.err, false)
        else
          var recorded := RecordTx(marked.db, nid, Conclude(policy, task, result, now), row, now);
          Processed(recorded.db, recorded.err, true)
  }

  /** On a pending or retrying notification Process is the mark, and then the record of what was concluded. */
  lemma LiveProcess(db: Db, policy: RetryPolicy, nid: Uuid, result: AttemptResult, row: Uuid, now: Time)
    requires nid in db.notifications && db.notifications[nid].status.Live()
    ensures var marked := MarkDeliveringTx(db, nid);
            var conclusion := Conclude(policy, TaskOf(nid, db.notifications[nid]), result, now);
            && marked.err.None? && marked.db != db
            && Process(db, policy, nid, result, row, now) ==
               Processed(RecordTx(marked.db, nid, conclusion, row, now).db,
                         RecordTx(marked.db, nid, conclusion, row, now).err, true)
            && RecordTx(marked.db, nid, conclusion, row, now).db != db
  {
    assert MarkDeliveringTx(db, nid).db.notifications[nid].status.Delivering?;
  }

  /** The attempt row carries what the dispatcher answered. */
  predicate RecordsAnswer(a: Attempt, nid: Uuid, number: int, result: AttemptResult) {
    && a.nid == nid && a.number == number
    && a.httpStatus == (if result.statusCode > 0 then Some(result.statusCode) else None)
    && (result.err.Some? && result.err.value != "" ==> a.error == Some(result.err.value))
  }

  /** What a call that a failing database cut short can leave behind: nothing, the mark alone, or everything. */
  predicate CutShort(before: Db, after: Db, policy: RetryPolicy, nid: Uuid, result: AttemptResult, row: Uuid, now: Time) {
    || after == before
    || after == MarkDeliveringTx(before, nid).db
    || after == Process(before, policy, nid, result, row, now).db
  }

  /**
   * Undisturbed, Process errs exactly when the notification is missing or
   * already delivering; it dispatches exactly when it is pending or retrying.
   */
  lemma ProcessOutcome(db: Db, policy: RetryPolicy, nid: Uuid, result: AttemptResult, row: Uuid, now: Time)
    ensures var p := Process(db, policy, nid, result, row, now);
            && (p.err == Some(ErrNotFound) <==> nid !in db.notifications)
            && (p.err == Some(ErrConflict) <==> nid in db.notifications && db.notifications[nid].status.Delivering?)
            && (p.err.None? || p.err == Some(ErrNotFound) || p.err == Some(ErrConflict))
            && (p.dispatched <==> nid in db.notifications && db.notifications[nid].status.Live())
            && (!p.dispatched ==> p.db == db)
  {
    if nid in db.notifications && db.notifications[nid].status.Live() {
      ConclusionSound(policy, TaskOf(nid, db.notifications[nid]), result, now);
    }
  }

  /** How a dispatched call ends, and when the next attempt is due. */
  lemma ProcessStatus(db: Db, policy: RetryPolicy, nid: Uuid, result: AttemptResult, row: Uuid, now: Time)
    requires nid in db.notifications && (db.notifications[nid].status.Pending? || db.notifications[nid].status.Retrying?)
    requires db.notifications[nid].maxAttempts >= 1
    ensures var before := db.notifications[nid];
            var p := Process(db, policy, nid, result, row, now).db;
            && nid in p.notifications
            && var after := p.notifications[nid];
               && after.attemptCount == before.attemptCount + 1
               && (after.status == Succeeded <==> result.err.None? && 200 <= result.statusCode <= 299)
               && (after.status == Retrying <==>
                     && !(result.err.None? && 200 <= result.statusCode <= 299)
                     && before.attemptCount + 1 < before.maxAttempts
                     && (result.err.Some? || result.statusCode in {408, 409, 425, 429} || 500 <= result.statusCode <= 599))
               && after.nextAttemptAt ==
                  (if after.status == Retrying then Some(now + Delay(policy, before.attemptCount + 1)) else None)
               && after.status in {Succeeded, Retrying, Failed}
  {
    ConclusionSound(policy, TaskOf(nid, db.notifications[nid]), result, now);
  }

  /**
   * A dispatched call moves only its own notification and adds one attempt row
   * with the dispatcher's status code and error. The notification ends succeeded
   * on a clean 2xx; else retrying if attempts remain and the cause is a transport
   * error, 408, 409, 425, 429 or 5xx, with a new pending outbox row due at the next
   * attempt, the backoff of this attempt away; else failed.
   */
  lemma ProcessEffect(db: Db, policy: RetryPolicy, nid: Uuid, result: AttemptResult, row: Uuid, now: Time)
    requires nid in db.notifications && (db.notifications[nid].status.Pending? || db.notifications[nid].status.Retrying?)
    requires db.notifications[nid].maxAttempts >= 1
    ensures var before := db.notifications[nid];
            var p := Process(db, policy, nid, result, row, now).db;
            var after := p.notifications[nid];
            && p.notifications == db.notifications[nid := after]
            && after.attemptCount == before.attemptCount + 1
            && after.maxAttempts == before.maxAttempts
            && (after.status.Succeeded? <==> result.err.None? && 200 <= result.statusCode <= 299)
            && (after.status.Retrying? <==>
                  && !(result.err.None? && 200 <= result.statusCode <= 299)
                  && before.attemptCount + 1 < before.maxAttempts
                  && (result.err.Some? || result.statusCode in {408, 409, 425, 429} || 500 <= result.statusCode <= 599))
            && (after.status.Succeeded? || after.status.Failed? || after.status.Retrying?)
            && (after.status.Retrying? ==> after.nextAttemptAt == Some(now + Delay(policy, before.attemptCount + 1)))
            && (!after.status.Retrying? ==> after.nextAttemptAt.None?)
            && (after.status.Succeeded? ==> after.lastError == "")
            && (result.err.Some? ==> after.lastError == result.err.value)
    ensures var before := db.notifications[nid];
            var p := Process(db, policy, nid, result, row, now).db;
            var after := p.notifications[nid];
            && (after.status.Retrying? ==>
                  p.outbox == db.outbox[row := OutboxRow(
                    nid, "notification.delivery_requested", OutboxPending,
                    now + Delay(policy, before.attemptCount + 1), now, None, "", None, "")])
            && (!after.status.Retrying? ==> p.outbox == db.outbox)
    ensures var p := Process(db, policy, nid, result, row, now).db;
            && |p.attempts| == |db.attempts| + 1 && p.attempts[..|db.attempts|] == db.attempts
            && RecordsAnswer(p.attempts[|db.attempts|], nid, db.notifications[nid].attemptCount + 1, result)
            && (match p.attempts[|db.attempts|].status
                case AttemptSucceeded => p.notifications[nid].status.Succeeded?
                case AttemptRetrying => p.notifications[nid].status.Retrying?
                case AttemptFailed => p.notifications[nid].status.Failed?)
  {
    ConclusionSound(policy, TaskOf(nid, db.notifications[nid]), result, now);
  }
}

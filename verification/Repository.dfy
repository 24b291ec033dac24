/**
 * The repository of internal/notification/ent_repository.go over mutable
 * tables: each method runs the source's statements in order and is proved to be
 * the transaction of the same name in Tables, or, when a database call fails, to
 * be that transaction or nothing at all.
 */
module Repository {
  import opened Common
  import opened Uuids
  import opened Delivery
  import opened Tables

  /** The PostgreSQL database all components share; `faults` counts the calls that failed. */
  class Database {
    var notifications: map<Uuid, Notification>
    var attempts: seq<Attempt>
    var outbox: map<Uuid, OutboxRow>
    var faults: nat

    constructor ()
      ensures Contents() == Db(map[], [], map[]) && faults == 0
    {
      notifications, attempts, outbox, faults := map[], [], map[], 0;
    }

    function Contents(): Db
      reads this
    {
      Db(notifications, attempts, outbox)
    }

    /** Sends one statement or query; it may fail. */
    method Send() returns (err: Option<Error>)
      modifies this`faults
      ensures err.None? || Faulted(err)
      ensures faults == old(faults) + FaultCount(err)
    {
      if * {
        faults := faults + 1;
        return Some(ErrTransport("statement"));
      }
      return None;
    }

    method Rollback(saved: Db)
      modifies this`notifications, this`attempts, this`outbox
      ensures Contents() == saved
    {
      notifications, attempts, outbox := saved.notifications, saved.attempts, saved.outbox;
    }

    /** On an error the caller cannot tell whether the transaction took effect. */
    method Commit(saved: Db) returns (err: Option<Error>)
      modifies this
      ensures err.None? || Faulted(err)
      ensures faults == old(faults) + FaultCount(err)
      ensures err.None? ==> Contents() == old(Contents())
      ensures err.Some? ==> Contents() == old(Contents()) || Contents() == saved
    {
      err := Send();
      if err.Some? {
        if * {
          Rollback(saved);
        }
      }
    }
  }

  class EntRepository {
    const db: Database

    constructor (db: Database)
      ensures this.db == db
    {
      this.db := db;
    }

    /** The ids are fresh, as uuid.New promises. */
    method CreateNotification(nid: Uuid, row: Uuid, maxAttempts: int, now: Time) returns (err: Option<Error>)
      requires nid !in db.notifications && row !in db.outbox
      modifies db
      ensures db.faults == old(db.faults) + FaultCount(err)
      ensures err.None? ==>
                && db.notifications == old(db.notifications)[nid := Notification(Pending, 0, maxAttempts, "", None)]
                && db.outbox == old(db.outbox)[row := OutboxRow(nid, "notification.delivery_requested", OutboxPending, now, now, None, "", None, "")]
                && db.attempts == old(db.attempts)
      ensures err.None? ==> db.Contents() == CreateTx(old(db.Contents()), nid, row, maxAttempts, now)
      ensures err.Some? ==>
                && Faulted(err)
                && (db.Contents() == old(db.Contents()) ||
                    db.Contents() == CreateTx(old(db.Contents()), nid, row, maxAttempts, now))
    {
      var saved := db.Contents();
      err := db.Send();
      if err.Some? {
        return;
      }
      db.notifications := db.notifications[nid := Notification(Pending, 0, maxAttempts, "", None)];
      err := db.Send();
      if err.Some? {
        db.Rollback(saved);
        return;
      }
      db.outbox := db.outbox[row := NewOutboxRow(nid, now, now)];
      err := db.Commit(saved);
    }

    /** The attempt history of one notification, oldest first. */
    method ListDeliveryAttempts(nid: Uuid) returns (err: Option<Error>, history: seq<Attempt>)
      modifies db`faults
      ensures db.faults == old(db.faults) + FaultCount(err)
      ensures err.None? ==> history == AttemptsOf(db.attempts, nid)
      ensures err.Some? ==> Faulted(err) && history == []
    {
      history := [];
      err := db.Send();
      if err.Some? {
        return;
      }
      var i := 0;
      while i < |db.attempts|
        invariant 0 <= i <= |db.attempts| && db.faults == old(db.faults)
        invariant history == AttemptsOf(db.attempts[..i], nid)
      {
        assert db.attempts[..i + 1] == db.attempts[..i] + [db.attempts[i]];
        AttemptsOfAppend(db.attempts[..i], db.attempts[i], nid);
        if db.attempts[i].nid == nid {
          history := history + [db.attempts[i]];
        }
        i := i + 1;
      }
      assert db.attempts[..i] == db.attempts;
    }

    /** The final read of the updated row can fail as well, after the commit. */
    method RetryFailedNotification(nid: Uuid, row: Uuid, now: Time) returns (err: Option<Error>)
      requires row !in db.outbox
      modifies db
      ensures db.faults == old(db.faults) + FaultCount(err)
      ensures !Faulted(err) ==>
                && (err == Some(ErrNotFound) <==> nid !in old(db.notifications))
                && (err == Some(ErrConflict) <==> nid in old(db.notifications) && old(db.notifications)[nid].status != Failed)
                && (err.None? <==> nid in old(db.notifications) && old(db.notifications)[nid].status == Failed)
      ensures err.None? ==>
                && db.notifications == old(db.notifications)[nid :=
                     Notification(Pending, 0, old(db.notifications)[nid].maxAttempts, "", None)]
                && db.outbox == old(db.outbox)[row := OutboxRow(nid, "notification.delivery_requested", OutboxPending, now, now, None, "", None, "")]
                && db.attempts == old(db.attempts)
      ensures !Faulted(err) ==> Tx(db.Contents(), err) == RetryTx(old(db.Contents()), nid, row, now)
      ensures Faulted(err) ==>
                || db.Contents() == old(db.Contents())
                || db.Contents() == RetryTx(old(db.Contents()), nid, row, now).db
    {
      var saved := db.Contents();
      err := db.Send();
      if err.Some? {
        return;
      }
      if nid !in db.notifications {
        return Some(ErrNotFound);
      }
      var current := db.notifications[nid];
      if current.status != Failed {
        return Some(ErrConflict);
      }
      err := db.Send();
      if err.Some? {
        return;
      }
      var affected := 0;
      if db.notifications[nid].status == Failed {
        db.notifications := db.notifications[nid :=
          current.(status := Pending, attemptCount := 0, lastError := "", nextAttemptAt := None)];
        affected := 1;
      }
      if affected != 1 {
        return Some(ErrConflict);
      }
      err := db.Send();
      if err.Some? {
        db.Rollback(saved);
        return;
      }
      db.outbox := db.outbox[row := NewOutboxRow(nid, now, now)];
      err := db.Commit(saved);
      if err.Some? {
        return;
      }
      err := db.Send();
    }

    method LoadForDelivery(nid: Uuid) returns (err: Option<Error>, task: Option<Task>)
      modifies db`faults
      ensures db.faults == old(db.faults) + FaultCount(err)
      ensures Faulted(err) || err == if nid in db.notifications then None else Some(ErrNotFound)
      ensures err.None? ==>
                var n := db.notifications[nid]; task == Some(Task(nid, n.status, n.attemptCount, n.maxAttempts))
      ensures err.Some? ==> task == None
    {
      task := None;
      err := db.Send();
      if err.Some? {
        return;
      }
      if nid !in db.notifications {
        return Some(ErrNotFound), None;
      }
      var got := db.notifications[nid];
      return None, Some(Task(nid, got.status, got.attemptCount, got.maxAttempts));
    }

    /** One statement and its own transaction. */
    method MarkDelivering(nid: Uuid) returns (err: Option<Error>)
      modifies db
      ensures db.faults == old(db.faults) + FaultCount(err)
      ensures !Faulted(err) ==> err.None? || err == Some(ErrConflict)
      ensures !Faulted(err) ==>
                (err.None? <==>
                   nid in old(db.notifications) && old(db.notifications)[nid].status in {Pending, Retrying})
      ensures err.None? ==>
                var n := old(db.notifications)[nid];
                && db.notifications == old(db.notifications)[nid :=
                     Notification(Delivering, n.attemptCount, n.maxAttempts, n.lastError, None)]
                && db.outbox == old(db.outbox) && db.attempts == old(db.attempts)
      ensures !Faulted(err) ==> Tx(db.Contents(), err) == MarkDeliveringTx(old(db.Contents()), nid)
      ensures Faulted(err) ==>
                db.Contents() == old(db.Contents()) || db.Contents() == MarkDeliveringTx(old(db.Contents()), nid).db
    {
      var saved := db.Contents();
      var affected := 0;
      if nid in db.notifications && (db.notifications[nid].status == Pending || db.notifications[nid].status == Retrying) {
        db.notifications := db.notifications[nid :=
          db.notifications[nid].(status := Delivering, nextAttemptAt := None)];
        affected := 1;
      }
      err := db.Commit(saved);
      if err.Some? {
        return;
      }
      if affected != 1 {
        return Some(ErrConflict);
      }
      return None;
    }

    method RecordSuccess(nid: Uuid, attempt: RecordedAttempt) returns (err: Option<Error>)
      modifies db
      ensures db.faults == old(db.faults) + FaultCount(err)
      ensures !Faulted(err) ==> err.None? || err == Some(ErrConflict)
      ensures !Faulted(err) ==>
                (err.None? <==>
                   && nid in old(db.notifications) && old(db.notifications)[nid].status == Delivering
                   && old(db.notifications)[nid].attemptCount + 1 == attempt.number)
      ensures err.None? ==>
                && db.notifications == old(db.notifications)[nid :=
                     Notification(Succeeded, attempt.number, old(db.notifications)[nid].maxAttempts, "", None)]
                && db.attempts == old(db.attempts) + [NewAttempt(nid, attempt, AttemptSucceeded)]
                && db.outbox == old(db.outbox)
      ensures !Faulted(err) ==> Tx(db.Contents(), err) == RecordSuccessTx(old(db.Contents()), nid, attempt)
      ensures Faulted(err) ==>
                db.Contents() == old(db.Contents()) || db.Contents() == RecordSuccessTx(old(db.Contents()), nid, attempt).db
    {
      var saved := db.Contents();
      err := db.Send();
      if err.Some? {
        return;
      }
      var affected := 0;
      if && nid in db.notifications
         && db.notifications[nid].status == Delivering
         && db.notifications[nid].attemptCount == attempt.number - 1
      {
        db.notifications := db.notifications[nid :=
          db.notifications[nid].(status := Succeeded, attemptCount := attempt.number,
                                 lastError := "", nextAttemptAt := None)];
        affected := 1;
      }
      if affected != 1 {
        return Some(ErrConflict);
      }
      err := CreateAttempt(nid, attempt, AttemptSucceeded);
      if err.Some? {
        db.Rollback(saved);
        return;
      }
      err := db.Commit(saved);
    }

    method RecordFailure(nid: Uuid, failure: RecordedFailure, row: Uuid, now: Time) returns (err: Option<Error>)
      modifies db
      ensures db.faults == old(db.faults) + FaultCount(err)
      ensures !Faulted(err) ==> err.None? || err == Some(ErrConflict)
      ensures !Faulted(err) ==>
                (err.None? <==>
                   && nid in old(db.notifications) && old(db.notifications)[nid].status == Delivering
                   && old(db.notifications)[nid].attemptCount + 1 == failure.attempt.number)
      ensures err.None? ==>
                var again := !failure.terminal && failure.nextAttemptAt.Some?;
                && db.notifications == old(db.notifications)[nid :=
                     Notification(if again then Retrying else Failed, failure.attempt.number,
                                  old(db.notifications)[nid].maxAttempts, failure.attempt.errorMessage,
                                  failure.nextAttemptAt)]
                && db.attempts == old(db.attempts) +
                     [NewAttempt(nid, failure.attempt, if again then AttemptRetrying else AttemptFailed)]
                && (again ==> db.outbox == old(db.outbox)[row := OutboxRow(nid, "notification.delivery_requested", OutboxPending, failure.nextAttemptAt.value, now, None, "", None, "")])
                && (!again ==> db.outbox == old(db.outbox))
      ensures !Faulted(err) ==> Tx(db.Contents(), err) == RecordFailureTx(old(db.Contents()), nid, failure, row, now)
      ensures Faulted(err) ==>
                || db.Contents() == old(db.Contents())
                || db.Contents() == RecordFailureTx(old(db.Contents()), nid, failure, row, now).db
    {
      var saved := db.Contents();
      err := db.Send();
      if err.Some? {
        return;
      }
      var status, notificationStatus := AttemptFailed, Failed;
      if !failure.terminal && failure.nextAttemptAt.Some? {
        status, notificationStatus := AttemptRetrying, Retrying;
      }
      var affected := 0;
      if && nid in db.notifications
         && db.notifications[nid].status == Delivering
         && db.notifications[nid].attemptCount == failure.attempt.number - 1
      {
        var updated := db.notifications[nid].(
          status := notificationStatus, attemptCount := failure.attempt.number,
          lastError := failure.attempt.errorMessage);
        updated := updated.(nextAttemptAt := failure.nextAttemptAt);
        db.notifications := db.notifications[nid := updated];
        affected := 1;
      }
      if affected != 1 {
        return Some(ErrConflict);
      }
      err := CreateAttempt(nid, failure.attempt, status);
      if err.Some? {
        db.Rollback(saved);
        return;
      }
      if !failure.terminal && failure.nextAttemptAt.Some? {
        err := db.Send();
        if err.Some? {
          db.Rollback(saved);
          return;
        }
        db.outbox := db.outbox[row := NewOutboxRow(nid, failure.nextAttemptAt.value, now)];
      }
      err := db.Commit(saved);
    }

    method CreateAttempt(nid: Uuid, recorded: RecordedAttempt, status: AttemptStatus) returns (err: Option<Error>)
      modifies db`attempts, db`faults
      ensures db.faults == old(db.faults) + FaultCount(err)
      ensures err.None? ==>
                && |db.attempts| == |old(db.attempts)| + 1 && db.attempts[..|old(db.attempts)|] == old(db.attempts)
                && var a := db.attempts[|old(db.attempts)|];
                   && a.nid == nid && a.number == recorded.number && a.status == status
                   && (recorded.statusCode > 0 ==> a.httpStatus == Some(recorded.statusCode))
                   && (recorded.statusCode <= 0 ==> a.httpStatus == None)
                   && (recorded.errorMessage != "" ==> a.error == Some(recorded.errorMessage))
                   && (recorded.errorMessage == "" ==> a.error == None)
      ensures err.None? ==> db.attempts == old(db.attempts) + [NewAttempt(nid, recorded, status)]
      ensures err.Some? ==> Faulted(err) && db.attempts == old(db.attempts)
    {
      var attempt := Attempt(nid, recorded.number, status, None, None);
      if recorded.statusCode > 0 {
        attempt := attempt.(httpStatus := Some(recorded.statusCode));
      }
      if recorded.errorMessage != "" {
        attempt := attempt.(error := Some(recorded.errorMessage));
      }
      err := db.Send();
      if err.Some? {
        return;
      }
      db.attempts := db.attempts + [attempt];
    }
  }
}

/** No outcome without a delivery: what the tables say of a notification is what the dispatcher last answered. */
module Evidence {
  import opened Common
  import opened Uuids
  import opened Retry
  import opened Delivery
  import opened Tables
  import opened Pipeline
  import opened PipelineShape
  import opened PipelineRefinement

  /** The dispatcher's last answer for the notification since its creation or last manual retry. */
  function LastResult(log: seq<LogItem>, nid: Uuid): Option<AttemptResult> {
    if log == [] || StartsEpoch(log[|log| - 1], nid) then None
    else if Dispatches(log[|log| - 1], nid) then Some(log[|log| - 1].result)
    else LastResult(log[..|log| - 1], nid)
  }

  lemma LastResultAppend(log: seq<LogItem>, item: LogItem, nid: Uuid)
    ensures LastResult(log + [item], nid) ==
            if StartsEpoch(item, nid) then None
            else if Dispatches(item, nid) then Some(item.result)
            else LastResult(log, nid)
  {
    assert (log + [item])[..|log|] == log;
  }

  predicate AttestedWorker(policy: RetryPolicy, log: seq<LogItem>, worker: Worker) {
    worker.phase.Concluded? ==>
      var task := worker.phase.task;
      && LastResult(log, task.id).Some?
      && worker.phase.conclusion == Conclude(policy, task, LastResult(log, task.id).value, worker.phase.decidedAt)
  }

  predicate HasOutcome(status: Status) {
    status.Succeeded? || status.Failed? || status.Retrying?
  }

  /** The cause of a failure may pass. */
  predicate Transient(result: AttemptResult) {
    result.err.Some? || result.statusCode in {408, 409, 425, 429} || 500 <= result.statusCode <= 599
  }

  /** The last attempt row carries the answer. */
  predicate Carried(history: seq<Attempt>, number: int, result: AttemptResult) {
    && history != []
    && history[|history| - 1].number == number
    && history[|history| - 1].httpStatus == (if result.statusCode > 0 then Some(result.statusCode) else None)
    && (result.err.Some? && result.err.value != "" ==> history[|history| - 1].error == Some(result.err.value))
  }

  predicate AttestedRow(n: Notification, history: seq<Attempt>, log: seq<LogItem>, nid: Uuid) {
    HasOutcome(n.status) ==>
      && LastResult(log, nid).Some?
      && var result := LastResult(log, nid).value;
         && (n.status.Succeeded? <==> result.Succeeded())
         && (n.status.Retrying? <==> !result.Succeeded() && n.attemptCount < n.maxAttempts && Transient(result))
         && Carried(history, n.attemptCount, result)
  }

  predicate Attested(s: State) {
    && (forall w :: w in s.workers ==> AttestedWorker(s.policy, s.log, s.workers[w]))
    && (forall n :: n in s.db.notifications ==>
          AttestedRow(s.db.notifications[n], AttemptsOf(s.db.attempts, n), s.log, n))
  }

  /** One more log item that is no dispatch attests what it attested before, if only epochs of others start. */
  lemma ItemKeepsAttested(s: State, t: State, item: LogItem)
    requires Attested(s) && Exclusive(s.db.notifications, s.workers)
    requires t.policy == s.policy && t.workers == s.workers && t.db.attempts == s.db.attempts
    requires t.log == s.log + [item] && !item.WasDispatched?
    requires forall n :: n in t.db.notifications && HasOutcome(t.db.notifications[n].status) ==>
               n in s.db.notifications && t.db.notifications[n] == s.db.notifications[n] && !StartsEpoch(item, n)
    requires forall n :: n in s.db.notifications && s.db.notifications[n].status.Delivering? ==> !StartsEpoch(item, n)
    ensures Attested(t)
  {
    forall n {
      LastResultAppend(s.log, item, n);
    }
    forall w | w in t.workers
      ensures AttestedWorker(t.policy, t.log, t.workers[w])
    {
      assert AttestedWorker(s.policy, s.log, s.workers[w]) && FlightOk(s.db.notifications, s.workers[w]);
    }
    forall n | n in t.db.notifications
      ensures AttestedRow(t.db.notifications[n], AttemptsOf(t.db.attempts, n), t.log, n)
    {
      assert n in s.db.notifications ==> AttestedRow(s.db.notifications[n], AttemptsOf(s.db.attempts, n), s.log, n);
    }
  }

  lemma ApiKeepsAttested(s: State, step: Step)
    requires Attested(s) && Guarded(s) && Enabled(s, step) && (step.Create? || step.ManualRetry?)
    ensures Attested(Apply(s, step))
  {
    var t := Apply(s, step);
    if t.log != s.log {
      ItemKeepsAttested(s, t, t.log[|s.log|]);
    }
  }

  lemma RelayItems(s: State, step: Step)
    requires Enabled(s, step) && (step.Claim? || step.MarkPublished? || step.MarkFailed?)
    ensures var t := Apply(s, step);
            && t.policy == s.policy && t.workers == s.workers
            && t.db.notifications == s.db.notifications && t.db.attempts == s.db.attempts
            && (t.log == s.log ||
                (|t.log| == |s.log| + 1 && t.log == s.log + [t.log[|s.log|]] &&
                 (t.log[|s.log|].WereClaimed? || t.log[|s.log|].WasPublished? || t.log[|s.log|].WasReleased?)))
  {
  }

  lemma SameTablesAttested(s: State, t: State)
    requires Attested(s) && Exclusive(s.db.notifications, s.workers)
    requires t.policy == s.policy && t.workers == s.workers
    requires t.db.notifications == s.db.notifications && t.db.attempts == s.db.attempts
    requires t.log == s.log ||
             (|t.log| == |s.log| + 1 && t.log == s.log + [t.log[|s.log|]] &&
              (t.log[|s.log|].WereClaimed? || t.log[|s.log|].WasPublished? || t.log[|s.log|].WasReleased?))
    ensures Attested(t)
  {
    if t.log != s.log {
      ItemKeepsAttested(s, t, t.log[|s.log|]);
    }
  }

  lemma RelayKeepsAttested(s: State, step: Step)
    requires Attested(s) && Exclusive(s.db.notifications, s.workers) && Enabled(s, step)
    requires step.Claim? || step.MarkPublished? || step.MarkFailed?
    ensures Attested(Apply(s, step))
  {
    RelayItems(s, step);
    SameTablesAttested(s, Apply(s, step));
  }

  /** A worker that concludes nothing leaves the evidence of the others alone. */
  lemma WorkerKeepsAttested(s: State, t: State, w: nat)
    requires Attested(s) && t.policy == s.policy && t.db == s.db && t.log == s.log
    requires w in t.workers && t.workers == s.workers[w := t.workers[w]] && !t.workers[w].phase.Concluded?
    ensures Attested(t)
  {
  }

  lemma QuietKeepsAttested(s: State, step: Step)
    requires Attested(s) && Enabled(s, step) && Quiet(step)
    ensures Attested(Apply(s, step))
  {
    var t := Apply(s, step);
    QuietSteps(s, step);
    if !(step.Tick? || step.Append? || step.AppendError? || step.RelayCrash?) {
      assert t.workers == s.workers[step.w := t.workers[step.w]];
      WorkerKeepsAttested(s, t, step.w);
    }
  }

  lemma MarkKeepsAttested(s: State, w: nat)
    requires Attested(s) && Enabled(s, MarkDelivering(w))
    ensures Attested(DoMarkDelivering(s, w))
  {
    var nid := WorkerOf(s, w).phase.task.id;
    forall n {
      LastResultAppend(s.log, WasMarked(nid), n);
    }
  }

  lemma DeliverKeepsAttested(s: State, w: nat, result: AttemptResult)
    requires Attested(s) && Exclusive(s.db.notifications, s.workers) && Enabled(s, Deliver(w, result))
    ensures Attested(DoDeliver(s, w, result))
  {
    var t := DoDeliver(s, w, result);
    var nid := s.workers[w].phase.task.id;
    forall n {
      LastResultAppend(s.log, WasDispatched(nid, result), n);
    }
    assert FlightOk(s.db.notifications, s.workers[w]) && Flight(s.workers[w]) == Some(nid);
    forall v | v in t.workers
      ensures AttestedWorker(t.policy, t.log, t.workers[v])
    {
      if v != w {
        assert AttestedWorker(s.policy, s.log, s.workers[v]) && Flight(s.workers[v]) != Flight(s.workers[w]);
      }
    }
    forall n | n in t.db.notifications
      ensures AttestedRow(t.db.notifications[n], AttemptsOf(t.db.attempts, n), t.log, n)
    {
      assert AttestedRow(s.db.notifications[n], AttemptsOf(s.db.attempts, n), s.log, n);
    }
  }

  /** What a committed record of an answer leaves. */
  lemma RecordedOutcome(db: Db, policy: RetryPolicy, task: Task, result: AttemptResult, decidedAt: Time, row: Uuid, now: Time)
    requires var c := Conclude(policy, task, result, decidedAt); RecordTx(db, task.id, c, row, now).err.None?
    requires task.id in db.notifications && db.notifications[task.id].maxAttempts == task.maxAttempts >= 1
    ensures var tx := RecordTx(db, task.id, Conclude(policy, task, result, decidedAt), row, now).db;
            && task.id in tx.notifications && tx.notifications.Keys == db.notifications.Keys
            && (forall n :: n in db.notifications && n != task.id ==> tx.notifications[n] == db.notifications[n])
            && (forall n :: n != task.id ==> AttemptsOf(tx.attempts, n) == AttemptsOf(db.attempts, n))
            && var after := tx.notifications[task.id];
               && (after.status.Succeeded? <==> result.Succeeded())
               && (after.status.Retrying? <==>
                     !result.Succeeded() && after.attemptCount < after.maxAttempts && Transient(result))
               && Carried(AttemptsOf(tx.attempts, task.id), after.attemptCount, result)
  {
    ConclusionSound(policy, task, result, decidedAt);
    var tx := RecordTx(db, task.id, Conclude(policy, task, result, decidedAt), row, now).db;
    var a := tx.attempts[|db.attempts|];
    assert tx.attempts == db.attempts + [a];
    forall n {
      AttemptsOfAppend(db.attempts, a, n);
    }
  }

  lemma RecordKeepsAttested(s: State, w: nat, row: Uuid)
    requires Attested(s) && WorkersOk(s) && LimitsOk(s.db.notifications) && Enabled(s, Record(w, row))
    ensures Attested(DoRecord(s, w, row))
  {
    var t := DoRecord(s, w, row);
    var phase := s.workers[w].phase;
    if RecordTx(s.db, phase.task.id, phase.conclusion, row, s.now).err.Some? {
      WorkerKeepsAttested(s, t, w);
    } else {
      WorkerOfFine(s, w);
      assert AttestedWorker(s.policy, s.log, s.workers[w]);
      RecordedOutcome(s.db, s.policy, phase.task, LastResult(s.log, phase.task.id).value, phase.decidedAt, row, s.now);
      var item := t.log[|s.log|];
      assert t.log == s.log + [item];
      RecordItemKeepsAttested(s, t, w, phase.task.id, item);
    }
  }

  lemma RecordItemKeepsAttested(s: State, t: State, w: nat, nid: Uuid, item: LogItem)
    requires Attested(s) && t.policy == s.policy && t.log == s.log + [item] && item.WasRecorded?
    requires nid in t.db.notifications && t.db.notifications.Keys == s.db.notifications.Keys
    requires forall n :: n in s.db.notifications && n != nid ==> t.db.notifications[n] == s.db.notifications[n]
    requires forall n :: n != nid ==> AttemptsOf(t.db.attempts, n) == AttemptsOf(s.db.attempts, n)
    requires LastResult(s.log, nid).Some?
    requires AttestedRow(t.db.notifications[nid], AttemptsOf(t.db.attempts, nid), s.log, nid)
    requires w in t.workers && t.workers == s.workers[w := t.workers[w]] && !t.workers[w].phase.Concluded?
    ensures Attested(t)
  {
    forall n {
      LastResultAppend(s.log, item, n);
    }
    forall n | n in t.db.notifications
      ensures AttestedRow(t.db.notifications[n], AttemptsOf(t.db.attempts, n), t.log, n)
    {
      assert n in s.db.notifications.Keys && AttestedRow(s.db.notifications[n], AttemptsOf(s.db.attempts, n), s.log, n);
    }
    forall v | v in t.workers
      ensures AttestedWorker(t.policy, t.log, t.workers[v])
    {
      if v != w {
        assert AttestedWorker(s.policy, s.log, s.workers[v]);
      }
    }
  }

  lemma StepKeepsAttested(s: State, step: Step)
    requires Attested(s) && Guarded(s) && WorkersOk(s) && LimitsOk(s.db.notifications) && Enabled(s, step)
    ensures Attested(Apply(s, step))
  {
    if Quiet(step) {
      QuietKeepsAttested(s, step);
    } else if step.Claim? || step.MarkPublished? || step.MarkFailed? {
      RelayKeepsAttested(s, step);
    } else {
      match step {
        case Create(_, _, _) => ApiKeepsAttested(s, step);
        case ManualRetry(_, _) => ApiKeepsAttested(s, step);
        case MarkDelivering(w) => MarkKeepsAttested(s, w);
        case Deliver(w, result) => DeliverKeepsAttested(s, w, result);
        case Record(w, row) => RecordKeepsAttested(s, w, row);
      }
    }
  }

  lemma {:induction false} RunKeepsAttested(s: State, steps: seq<Step>, t: State)
    requires Attested(s) && Inv(s) && Run(s, steps, t)
    ensures Attested(t)
    decreases |steps|
  {
    if steps != [] {
      StepKeepsAttested(s, steps[0]);
      StepKeepsInv(s, steps[0]);
      RunKeepsAttested(Apply(s, steps[0]), steps[1..], t);
    }
  }

  lemma {:induction false} ResultsAreDispatches(log: seq<LogItem>, nid: Uuid)
    ensures LastResult(log, nid).Some? <==> EpochDispatches(log, nid) > 0
  {
    if log != [] {
      ResultsAreDispatches(log[..|log| - 1], nid);
    }
  }

  /**
   * At least once, and for the right reason: a notification with an outcome has
   * had an answered Deliver call since creation or the last manual retry. The last
   * answer decides: succeeded exactly for a clean 2xx; otherwise retrying exactly
   * if attempts are left and it was a transport error, 408, 409, 425, 429 or 5xx,
   * and else failed. The last attempt row carries its status code and error.
   */
  lemma OutcomeIsDelivered(s: State, nid: Uuid)
    requires Reachable(s) && nid in s.db.notifications
    requires s.db.notifications[nid].status in {Succeeded, Failed, Retrying}
    ensures EpochDispatches(s.log, nid) > 0 && LastResult(s.log, nid).Some?
    ensures var n, result := s.db.notifications[nid], LastResult(s.log, nid).value;
            && (n.status.Succeeded? <==> result.err.None? && 200 <= result.statusCode <= 299)
            && (n.status.Retrying? <==>
                  && !(result.err.None? && 200 <= result.statusCode <= 299)
                  && n.attemptCount < n.maxAttempts
                  && (result.err.Some? || result.statusCode in {408, 409, 425, 429} || 500 <= result.statusCode <= 599))
    ensures var history, result := AttemptsOf(s.db.attempts, nid), LastResult(s.log, nid).value;
            && history != []
            && var last := history[|history| - 1];
               && last.number == s.db.notifications[nid].attemptCount
               && last.httpStatus == (if result.statusCode > 0 then Some(result.statusCode) else None)
               && (result.err.Some? && result.err.value != "" ==> last.error == Some(result.err.value))
  {
    var now, policy, steps :| Run(Initial(now, policy), steps, s);
    InitialInv(now, policy);
    RunKeepsAttested(Initial(now, policy), steps, s);
    assert AttestedRow(s.db.notifications[nid], AttemptsOf(s.db.attempts, nid), s.log, nid);
    ResultsAreDispatches(s.log, nid);
  }
}

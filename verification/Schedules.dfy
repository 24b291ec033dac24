/** next_attempt_at, the outbox schedule and the worker's decision time agree. */
module Schedules {
  import opened Common
  import opened Uuids
  import opened Retry
  import opened Delivery
  import opened Tables
  import opened Pipeline
  import opened PipelineShape
  import opened PipelineRefinement

  /** When the worker decided on the outcome last recorded for the notification. */
  function LastDecision(log: seq<LogItem>, nid: Uuid): Option<Time> {
    if log == [] then None
    else
      var last := log[|log| - 1];
      if last.WasRecorded? && last.nid == nid then Some(last.decidedAt)
      else LastDecision(log[..|log| - 1], nid)
  }

  lemma LastDecisionAppend(log: seq<LogItem>, item: LogItem, nid: Uuid)
    ensures LastDecision(log + [item], nid) ==
            if item.WasRecorded? && item.nid == nid then Some(item.decidedAt) else LastDecision(log, nid)
  {
    assert (log + [item])[..|log|] == log;
  }

  /** A scheduled next attempt is the due time of the newest row, the backoff of the last attempt after its decision. */
  predicate Scheduled(policy: RetryPolicy, db: Db, log: seq<LogItem>, nid: Uuid)
    requires nid in db.notifications
  {
    var next := db.notifications[nid].nextAttemptAt;
    next.Some? ==>
      && Newest(log, nid).Some?
      && Newest(log, nid).value in db.outbox
      && db.outbox[Newest(log, nid).value].scheduledAt == next.value
      && LastDecision(log, nid).Some?
      && next.value == LastDecision(log, nid).value + Delay(policy, db.notifications[nid].attemptCount)
  }

  predicate Coherent(s: State) {
    forall nid :: nid in s.db.notifications ==> Scheduled(s.policy, s.db, s.log, nid)
  }

  /** A log item that records nothing and opens no epoch leaves the schedule alone. */
  lemma ItemKeepsSchedule(s: State, t: State, item: LogItem, nid: Uuid)
    requires nid in s.db.notifications && Scheduled(s.policy, s.db, s.log, nid)
    requires Grows(s, t) && t.log == s.log + [item]
    requires (item.WasRecorded? || item.WasCreated? || item.WasReset?) ==> item.nid != nid
    requires t.db.notifications[nid].nextAttemptAt.Some? ==>
               && t.db.notifications[nid].nextAttemptAt == s.db.notifications[nid].nextAttemptAt
               && t.db.notifications[nid].attemptCount == s.db.notifications[nid].attemptCount
    ensures Scheduled(t.policy, t.db, t.log, nid)
  {
    LogAppend(s.log, item, nid);
    LastDecisionAppend(s.log, item, nid);
  }

  lemma RecordKeepsSchedule(s: State, w: nat, row: Uuid, nid: Uuid)
    requires WorkersOk(s) && Enabled(s, Record(w, row))
    requires nid in s.db.notifications && Scheduled(s.policy, s.db, s.log, nid)
    ensures nid in DoRecord(s, w, row).db.notifications
    ensures Scheduled(s.policy, DoRecord(s, w, row).db, DoRecord(s, w, row).log, nid)
  {
    var phase := WorkerOf(s, w).phase;
    var t := DoRecord(s, w, row);
    if RecordTx(s.db, phase.task.id, phase.conclusion, row, s.now).err.None? {
      RecordGrows(s, w, row);
      var item := t.log[|s.log|];
      assert t.log == s.log + [item];
      if nid == phase.task.id {
        WorkerOfFine(s, w);
        OutcomeIsScheduled(s.policy, s.db, s.log, item, phase.task, phase.conclusion, row, s.now);
      } else {
        ItemKeepsSchedule(s, t, item, nid);
      }
    }
  }

  /** A committed record schedules the very attempt it asked for. */
  lemma OutcomeIsScheduled(policy: RetryPolicy, db: Db, log: seq<LogItem>, item: LogItem, task: Task,
                           conclusion: Conclusion, row: Uuid, now: Time)
    requires RecordTx(db, task.id, conclusion, row, now).err.None?
    requires item.WasRecorded? && item.nid == task.id && ConclusionOk(policy, task, conclusion, item.decidedAt)
    requires item.added == if conclusion.Reschedules() then Some(row) else None
    ensures var after := RecordTx(db, task.id, conclusion, row, now).db;
            task.id in after.notifications && Scheduled(policy, after, log + [item], task.id)
  {
    LogAppend(log, item, task.id);
    LastDecisionAppend(log, item, task.id);
  }

  lemma ManualRetryKeepsSchedule(s: State, n: Uuid, row: Uuid, nid: Uuid)
    requires Enabled(s, ManualRetry(n, row))
    requires nid in s.db.notifications && Scheduled(s.policy, s.db, s.log, nid)
    ensures nid in DoManualRetry(s, n, row).db.notifications
    ensures Scheduled(s.policy, DoManualRetry(s, n, row).db, DoManualRetry(s, n, row).log, nid)
  {
    if RetryTx(s.db, n, row, s.now).err.None? && nid != n {
      ApiGrows(s, ManualRetry(n, row));
      ItemKeepsSchedule(s, DoManualRetry(s, n, row), WasReset(n, row), nid);
    }
  }

  /** Steps whose log item, if any, neither records nor opens an epoch. */
  predicate Neutral(step: Step) {
    step.Claim? || step.MarkPublished? || step.MarkFailed? || step.MarkDelivering? || step.Deliver?
  }

  lemma NeutralItems(s: State, step: Step, nid: Uuid)
    requires Enabled(s, step) && Neutral(step) && nid in s.db.notifications
    ensures var t := Apply(s, step);
            && nid in t.db.notifications
            && (t.db.notifications[nid].nextAttemptAt.Some? ==>
                  && t.db.notifications[nid].nextAttemptAt == s.db.notifications[nid].nextAttemptAt
                  && t.db.notifications[nid].attemptCount == s.db.notifications[nid].attemptCount)
            && ((t.log == s.log && t.db == s.db) ||
                (|t.log| == |s.log| + 1 && t.log == s.log + [t.log[|s.log|]] &&
                 var item := t.log[|s.log|]; !item.WasRecorded? && !item.WasCreated? && !item.WasReset?))
  {
  }

  lemma NeutralKeepsSchedule(s: State, step: Step, nid: Uuid)
    requires Enabled(s, step) && Neutral(step)
    requires nid in s.db.notifications && Scheduled(s.policy, s.db, s.log, nid)
    ensures nid in Apply(s, step).db.notifications
    ensures Scheduled(s.policy, Apply(s, step).db, Apply(s, step).log, nid)
  {
    var t := Apply(s, step);
    NeutralItems(s, step, nid);
    if t.log != s.log {
      StepGrows(s, step);
      ItemKeepsSchedule(s, t, t.log[|s.log|], nid);
    }
  }

  lemma StepKeepsSchedule(s: State, step: Step, nid: Uuid)
    requires WorkersOk(s) && Enabled(s, step)
    requires nid in s.db.notifications && Scheduled(s.policy, s.db, s.log, nid)
    ensures nid in Apply(s, step).db.notifications
    ensures Scheduled(s.policy, Apply(s, step).db, Apply(s, step).log, nid)
  {
    if Quiet(step) {
      QuietSteps(s, step);
    } else if Neutral(step) {
      NeutralKeepsSchedule(s, step, nid);
    } else {
      match step {
        case Create(n, row, _) =>
          ApiGrows(s, step);
          ItemKeepsSchedule(s, Apply(s, step), WasCreated(n, row), nid);
        case ManualRetry(n, row) => ManualRetryKeepsSchedule(s, n, row, nid);
        case Record(w, row) => RecordKeepsSchedule(s, w, row, nid);
      }
    }
  }

  lemma StepCoherent(s: State, step: Step)
    requires WorkersOk(s) && RowsOk(s.db) && Known(s) && Coherent(s) && Enabled(s, step)
    ensures Coherent(Apply(s, step))
  {
    var t := Apply(s, step);
    assert t.policy == s.policy;
    forall nid | nid in t.db.notifications
      ensures Scheduled(t.policy, t.db, t.log, nid)
    {
      if nid in s.db.notifications {
        StepKeepsSchedule(s, step, nid);
      } else {
        AppearsFresh(s, step, nid);
      }
    }
  }

  lemma {:induction false} RunCoherent(s: State, steps: seq<Step>, t: State)
    requires Inv(s) && Coherent(s) && Run(s, steps, t)
    ensures Coherent(t)
    decreases |steps|
  {
    if steps != [] {
      StepCoherent(s, steps[0]);
      StepKeepsInv(s, steps[0]);
      RunCoherent(Apply(s, steps[0]), steps[1..], t);
    }
  }

  /**
   * next_attempt_at is set exactly while retrying. It is then the due time of the
   * newest outbox row and lies the delay of the last attempt after the recording
   * worker's decision: positive for a safe policy, and min(base * 2^(n-1), cap)
   * after attempt n if moreover the base does not exceed the cap.
   */
  lemma ScheduleCoherence(s: State, nid: Uuid)
    requires Reachable(s) && nid in s.db.notifications
    ensures s.db.notifications[nid].nextAttemptAt.Some? <==> s.db.notifications[nid].status.Retrying?
    ensures s.db.notifications[nid].status.Retrying? ==>
              var n := s.db.notifications[nid];
              && Newest(s.log, nid).Some? && Newest(s.log, nid).value in s.db.outbox
              && s.db.outbox[Newest(s.log, nid).value].scheduledAt == n.nextAttemptAt.value
              && LastDecision(s.log, nid).Some?
              && n.nextAttemptAt.value == LastDecision(s.log, nid).value + Delay(s.policy, n.attemptCount)
              && (s.policy.Safe() ==> LastDecision(s.log, nid).value < n.nextAttemptAt.value)
              && (s.policy.Safe() && s.policy.Base() <= s.policy.Cap() ==>
                    n.nextAttemptAt.value == LastDecision(s.log, nid).value + CappedBackoff(s.policy, n.attemptCount))
  {
    ReachableInv(s);
    var now, policy, steps :| Run(Initial(now, policy), steps, s);
    InitialInv(now, policy);
    RunCoherent(Initial(now, policy), steps, s);
    if s.policy.Safe() {
      DelayClosedForm(s.policy, s.db.notifications[nid].attemptCount);
    }
  }
}

/** The worker's Process method (internal/delivery/processor.go) over mutable tables. */
module Processors {
  import opened Common
  import opened Uuids
  import opened Retry
  import opened Delivery
  import opened Tables
  import opened Repository
  import opened Processing

  /** The HTTP dispatcher: any answer at all, one per call. */
  class Dispatcher {
    var calls: seq<Task>
    var answers: seq<AttemptResult>

    constructor ()
      ensures calls == [] && answers == []
    {
      calls, answers := [], [];
    }

    method Deliver(task: Task) returns (result: AttemptResult)
      modifies this
      ensures calls == old(calls) + [task]
      ensures answers == old(answers) + [result]
    {
      result := *;
      calls, answers := calls + [task], answers + [result];
    }
  }

  class Processor {
    const repository: EntRepository
    const dispatcher: Dispatcher
    const policy: RetryPolicy

    constructor (repository: EntRepository, dispatcher: Dispatcher, policy: RetryPolicy)
      ensures this.repository == repository && this.dispatcher == dispatcher && this.policy == policy
    {
      this.repository := repository;
      this.dispatcher := dispatcher;
      this.policy := policy;
    }

    /** Decide and its delay loop, as the worker runs them. */
    method DecideRetry(result: AttemptResult, attemptNumber: int, maxAttempts: int) returns (decision: RetryDecision)
      ensures decision == Decide(policy, result, attemptNumber, maxAttempts)
      ensures decision.retry <==>
                attemptNumber < maxAttempts &&
                (result.err.Some? || result.statusCode in {408, 409, 425, 429} || 500 <= result.statusCode <= 599)
      ensures decision.delay == if decision.retry then Delay(policy, attemptNumber) else 0
    {
      if attemptNumber >= maxAttempts {
        return RetryDecision(false, true, 0);
      }
      if result.err.Some? || IsRetryableStatus(result.statusCode) {
        var delay := ComputeDelay(policy, attemptNumber);
        return RetryDecision(true, false, delay);
      }
      if result.Is2xx() {
        return RetryDecision(false, false, 0);
      }
      return RetryDecision(false, true, 0);
    }

    /**
     * With nobody else at work, one call is Processing.Process of whatever the
     * dispatcher answers, or what a failing database leaves of it. The dispatcher
     * is called at most once, with the loaded snapshot of a pending or retrying
     * notification, and without a database error always for such a one.
     */
    method Process(nid: Uuid, row: Uuid, now: Time)
      returns (err: Option<Error>, ghost dispatched: bool, ghost answer: AttemptResult)
      modifies repository.db, dispatcher
      ensures repository.db.faults == old(repository.db.faults) + FaultCount(err)
      ensures var p := Processing.Process(old(repository.db.Contents()), policy, nid, answer, row, now);
              && (!Faulted(err) ==> repository.db.Contents() == p.db && err == p.err && dispatched == p.dispatched)
              && (Faulted(err) ==> CutShort(old(repository.db.Contents()), repository.db.Contents(),
                                                       policy, nid, answer, row, now))
      ensures dispatched ==>
                && nid in old(repository.db.notifications) && old(repository.db.notifications)[nid].status.Live()
                && dispatcher.answers == old(dispatcher.answers) + [answer]
                && (repository.db.Contents() != old(repository.db.Contents()))
                && var task := TaskOf(nid, old(repository.db.notifications)[nid]);
                   dispatcher.calls == old(dispatcher.calls) + [task.(maxAttempts := EffectiveMaxAttempts(task))]
      ensures dispatched && !Faulted(err) && old(repository.db.notifications)[nid].maxAttempts >= 1 ==>
                && nid in repository.db.notifications
                && var before, after := old(repository.db.notifications)[nid], repository.db.notifications[nid];
                   && after.attemptCount == before.attemptCount + 1
                   && (after.status == Succeeded <==> answer.err.None? && 200 <= answer.statusCode <= 299)
                   && (after.status == Retrying <==>
                         && !(answer.err.None? && 200 <= answer.statusCode <= 299)
                         && before.attemptCount + 1 < before.maxAttempts
                         && (answer.err.Some? || answer.statusCode in {408, 409, 425, 429} ||
                             500 <= answer.statusCode <= 599))
                   && after.nextAttemptAt ==
                      (if after.status == Retrying then Some(now + Delay(policy, before.attemptCount + 1)) else None)
                   && after.status in {Succeeded, Retrying, Failed}
      ensures !dispatched ==>
                && dispatcher.answers == old(dispatcher.answers) && dispatcher.calls == old(dispatcher.calls)
                && (repository.db.Contents() == old(repository.db.Contents()) ||
                    repository.db.Contents() == MarkDeliveringTx(old(repository.db.Contents()), nid).db)
    {
      answer, dispatched := AttemptResult(0, None), false;
      var loaded;
      err, loaded := repository.LoadForDelivery(nid);
      if err.Some? {
        return;
      }
      var task := loaded.value;
      if task.status == Succeeded || task.status == Failed {
        return;
      }
      if task.maxAttempts == 0 {
        task := task.(maxAttempts := 5);
      }
      err := repository.MarkDelivering(nid);
      if err.Some? {
        return;
      }
      var attemptNumber := task.attempt + 1;
      var result := dispatcher.Deliver(task);
      answer, dispatched := result, true;
      LiveProcess(old(repository.db.Contents()), policy, nid, result, row, now);
      if old(repository.db.notifications)[nid].maxAttempts >= 1 {
        ProcessStatus(old(repository.db.Contents()), policy, nid, result, row, now);
      }
      err := RecordOutcome(nid, loaded.value, attemptNumber, task.maxAttempts, result, row, now);
    }

    /** The rest of Process: decide, and record success or failure. `loaded` is the snapshot it works on. */
    method RecordOutcome(nid: Uuid, ghost loaded: Task, attemptNumber: int, maxAttempts: int, result: AttemptResult,
                         row: Uuid, now: Time)
      returns (err: Option<Error>)
      requires attemptNumber == loaded.attempt + 1 && maxAttempts == EffectiveMaxAttempts(loaded)
      modifies repository.db
      ensures repository.db.faults == old(repository.db.faults) + FaultCount(err)
      ensures var tx := RecordTx(old(repository.db.Contents()), nid, Conclude(policy, loaded, result, now), row, now);
              if Faulted(err)
              then repository.db.Contents() == old(repository.db.Contents()) || repository.db.Contents() == tx.db
              else Tx(repository.db.Contents(), err) == tx
    {
      var recorded := RecordedAttempt(attemptNumber, result.statusCode, ErrorMessage(result));
      if result.err.None? && 200 <= result.statusCode <= 299 {
        assert Conclude(policy, loaded, result, now) == Success(recorded);
        err := repository.RecordSuccess(nid, recorded);
        return;
      }
      var decision := DecideRetry(result, attemptNumber, maxAttempts);
      var failure := RecordedFailure(recorded, decision.terminal, None);
      if decision.retry {
        failure := failure.(nextAttemptAt := Some(now + decision.delay));
      }
      assert Conclude(policy, loaded, result, now) == Failure(failure);
      err := repository.RecordFailure(nid, failure, row, now);
    }
  }
}

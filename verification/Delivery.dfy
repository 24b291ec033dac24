/**
 * The worker's pure decisions (internal/delivery/types.go and processor.go):
 * from a loaded snapshot and one transport result to what gets recorded.
 */
module Delivery {
  import opened Common
  import opened Uuids
  import opened Retry

  datatype Status = Pending | Delivering | Succeeded | Retrying | Failed {
    predicate Terminal() {
      Succeeded? || Failed?
    }

    /** The statuses MarkDelivering accepts. */
    predicate Live() {
      Pending? || Retrying?
    }
  }

  /** The snapshot a worker loads; URL, headers and body never change and are omitted. */
  datatype Task = Task(id: Uuid, status: Status, attempt: int, maxAttempts: int)

  datatype RecordedAttempt = RecordedAttempt(number: int, statusCode: int, errorMessage: string)

  datatype RecordedFailure = RecordedFailure(attempt: RecordedAttempt, terminal: bool, nextAttemptAt: Option<Time>) {
    /** RecordFailure schedules another attempt exactly under this condition. */
    predicate Reschedules() {
      !terminal && nextAttemptAt.Some?
    }
  }

  datatype Conclusion = Success(attempt: RecordedAttempt) | Failure(failure: RecordedFailure) {
    function Attempt(): RecordedAttempt {
      if Success? then attempt else failure.attempt
    }

    predicate Reschedules() {
      Failure? && failure.Reschedules()
    }
  }

  function Digits(n: nat): (text: string)
    ensures text != ""
  {
    var last := [('0' as int + n % 10) as char];
    if n < 10 then last else Digits(n / 10) + last
  }

  function Decimal(n: int): string {
    if n < 0 then "-" + Digits(-n) else Digits(n)
  }

  function ErrorMessage(result: AttemptResult): string {
    if result.err.Some? then result.err.value
    else if result.statusCode == 0 then "no HTTP response"
    else if result.Is2xx() then ""
    else "unexpected HTTP status " + Decimal(result.statusCode)
  }

  /** A failed attempt is recorded without a message only if the transport error itself had none. */
  lemma FailureHasMessage(result: AttemptResult)
    ensures ErrorMessage(result) == "" <==> result.Succeeded() || result.err == Some("")
    ensures result.err.Some? ==> ErrorMessage(result) == result.err.value
    ensures result.err.None? && result.statusCode == 0 ==> ErrorMessage(result) == "no HTTP response"
  {
    if result.err.None? && !result.Is2xx() && result.statusCode != 0 {
      assert |ErrorMessage(result)| >= |"unexpected HTTP status "|;
    }
  }

  function EffectiveMaxAttempts(task: Task): int {
    if task.maxAttempts == 0 then 5 else task.maxAttempts
  }

  /** Everything Process computes between the dispatcher's answer and the record call. */
  function Conclude(policy: RetryPolicy, task: Task, result: AttemptResult, now: Time): Conclusion {
    var recorded := RecordedAttempt(task.attempt + 1, result.statusCode, ErrorMessage(result));
    if result.Succeeded() then Success(recorded)
    else
      var decision := Decide(policy, result, task.attempt + 1, EffectiveMaxAttempts(task));
      Failure(RecordedFailure(recorded, decision.terminal,
                              if decision.retry then Some(now + decision.delay) else None))
  }

  /**
   * What is recorded: the dispatcher's status code and error under the next
   * attempt number, as a success exactly for a clean 2xx. A recorded failure has a
   * next attempt exactly when attempts are left and the cause is transient, and is
   * terminal otherwise; the next attempt is the backoff of this attempt away.
   */
  lemma ConclusionSound(policy: RetryPolicy, task: Task, result: AttemptResult, now: Time)
    ensures var c := Conclude(policy, task, result, now);
            && c.Attempt().number == task.attempt + 1
            && c.Attempt().statusCode == result.statusCode
            && (result.err.Some? ==> c.Attempt().errorMessage == result.err.value)
            && (c.Success? <==> result.err.None? && 200 <= result.statusCode <= 299)
            && (c.Failure? ==>
                  && (c.failure.terminal <==> c.failure.nextAttemptAt.None?)
                  && (c.failure.nextAttemptAt.Some? <==>
                        && task.attempt + 1 < (if task.maxAttempts == 0 then 5 else task.maxAttempts)
                        && (result.err.Some? || result.statusCode in {408, 409, 425, 429} ||
                            500 <= result.statusCode <= 599))
                  && (c.failure.nextAttemptAt.Some? ==>
                        c.failure.nextAttemptAt.value == now + Delay(policy, task.attempt + 1))
                  && (c.failure.nextAttemptAt.Some? && policy.Safe() ==> c.failure.nextAttemptAt.value > now))
  {
    if !result.Succeeded() {
      DecideFailure(policy, result, task.attempt + 1, EffectiveMaxAttempts(task));
    }
  }
}

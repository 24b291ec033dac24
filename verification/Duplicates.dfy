/**
 * What a second delivery of one message can do: dispatch a retry early, or, with
 * a snapshot loaded before the failure, strand the notification.
 */
module Duplicates {
  import opened Common
  import opened Uuids
  import opened Retry
  import opened Delivery
  import opened Tables
  import opened Pipeline
  import opened Processing
  import opened Calm
  import opened Progress
  import opened Orphans
  import opened Earliness

  const FIRST_ENV := Env(0, "relay", 50, 0, 10, CLAIM_IDLE, k => AttemptResult(500, None))
  const SECOND_ENV := Env(0, "relay", 50, 1, 10, CLAIM_IDLE, k => AttemptResult(500, None))

  /** The idle time after which cmd/worker/main.go reclaims. */
  const CLAIM_IDLE: nat := 30 * SECOND

  /** Worker 0 is slow with its message: it has held it for the whole idle time. */
  lemma SlowWorker() returns (s: State)
    ensures Reachable(s) && s.db.notifications == map[7 := Notification(Pending, 0, 5, "", None)]
    ensures s.db.outbox.Keys == {9} && s.policy == DEFAULT_RETRY_POLICY
    ensures AtMessage(s, 0, 7) && s.workers.Keys == {0}
    ensures WorkerOf(s, 0).batch[0] in s.pel && s.now - s.pel[WorkerOf(s, 0).batch[0]].since == CLAIM_IDLE
  {
    var s0 := FirstMessageRead();
    CalmTick(s0, CLAIM_IDLE, FIRST_ENV);
    s := s0.(now := s0.now + CLAIM_IDLE);
    ReachableCalmly(s0, s, FIRST_ENV);
  }

  /** Worker 1 reclaims all that is idle. */
  function Reclaim(s: State): Step {
    AutoClaim(1, |s.stream|, CLAIM_IDLE, |s.stream|)
  }

  /** Worker 1 has reclaimed the message of worker 0. */
  lemma HandedTwice(s0: State) returns (s: State)
    requires Reachable(s0) && s0.db.notifications == map[7 := Notification(Pending, 0, 5, "", None)]
    requires s0.db.outbox.Keys == {9} && s0.policy == DEFAULT_RETRY_POLICY
    requires AtMessage(s0, 0, 7) && s0.workers.Keys == {0}
    requires WorkerOf(s0, 0).batch[0] in s0.pel && s0.now - s0.pel[WorkerOf(s0, 0).batch[0]].since == CLAIM_IDLE
    ensures Enabled(s0, Reclaim(s0)) && s == Apply(s0, Reclaim(s0)) && Reachable(s)
    ensures s.db.notifications == s0.db.notifications && s.db.outbox.Keys == {9} && s.policy == DEFAULT_RETRY_POLICY
    ensures AtMessage(s, 0, 7) && AtMessage(s, 1, 7) && s.workers.Keys == {0, 1}
  {
    ReachableStep(s0, Reclaim(s0));
    s := DoAutoClaim(s0, 1, CLAIM_IDLE, |s0.stream|);
    Reclaims(s0);
    OnlyMessage(s, 1);
  }

  lemma Reclaims(s: State)
    requires AtMessage(s, 0, 7) && s.workers.Keys == {0}
    requires WorkerOf(s, 0).batch[0] in s.pel && s.now - s.pel[WorkerOf(s, 0).batch[0]].since == CLAIM_IDLE
    ensures var t := DoAutoClaim(s, 1, CLAIM_IDLE, |s.stream|);
            && AtMessage(t, 0, 7) && Busy(t, 1) && WorkerOf(t, 1).phase.Idle?
            && t.workers.Keys == {0, 1} && t.db == s.db && t.policy == s.policy
  {
    assert WorkerOf(s, 0).batch[0] in IdlePage(s.pel, 0, |s.stream|, s.now, CLAIM_IDLE);
  }

  /** A first attempt answered with 500 is rescheduled two seconds on. */
  lemma FirstFailureWaits(db: Db, now: Time)
    requires db.notifications == map[7 := Notification(Pending, 0, 5, "", None)]
    ensures var p := Process(db, DEFAULT_RETRY_POLICY, 7, AttemptResult(500, None), 10, now).db;
            && 7 in p.notifications && p.notifications[7].status.Retrying? && p.notifications[7].attemptCount == 1
            && p.notifications[7].nextAttemptAt == Some(now + 2 * SECOND)
  {
    var task := Task(7, Pending, 0, 5);
    assert Decide(DEFAULT_RETRY_POLICY, AttemptResult(500, None), 1, 5) == RetryDecision(true, false, 2 * SECOND);
  }

  lemma {:induction false} CalmRunsBy(s: State, steps: seq<Step>, t: State, env: Env)
    requires CalmRun(s, steps, t, env)
    ensures RunsBy(s, steps, t, env.minIdle)
    decreases |steps|
  {
    if steps != [] {
      CalmRunsBy(Apply(s, steps[0]), steps[1..], t, env);
      assert steps == [steps[0]] + steps[1..];
      RunsAfterStep(s, steps[0], steps[1..], t, env.minIdle);
    }
  }

  lemma CalmlyRunsBy(s: State, t: State, env: Env) returns (steps: seq<Step>)
    requires Calmly(s, t, env)
    ensures RunsBy(s, steps, t, env.minIdle)
  {
    steps :| CalmRun(s, steps, t, env);
    CalmRunsBy(s, steps, t, env);
  }

  /** Worker 0 fails on its copy of the message, and then worker 1 loads its own. */
  lemma FailsThenLoads(s: State) returns (t: State, u: State)
    requires s.db.notifications == map[7 := Notification(Pending, 0, 5, "", None)]
    requires s.db.outbox.Keys == {9} && s.policy == DEFAULT_RETRY_POLICY
    requires AtMessage(s, 0, 7) && AtMessage(s, 1, 7)
    ensures Calmly(s, t, FIRST_ENV) && Calmly(t, u, SECOND_ENV) && MarksEarly(u, 1)
  {
    t := HandleLive(s, FIRST_ENV, 7, 10);
    FirstFailureWaits(s.db, s.now);
    assert AtMessage(t, 1, 7);
    CalmLoad(t, SECOND_ENV, 7);
    u := Load1(t, 1, 7);
  }

  /**
   * A retry is dispatched early: from a state with a single worker, by a run in
   * which every reclaim waits for the thirty idle seconds.
   */
  lemma EarlyDispatchHappens()
    ensures exists s, steps, t, w ::
              Reachable(s) && |s.workers.Keys| == 1 && RunsBy(s, steps, t, CLAIM_IDLE) && MarksEarly(t, w)
  {
    var s0 := SlowWorker();
    var s := HandedTwice(s0);
    var t, u := FailsThenLoads(s);
    var first := CalmlyRunsBy(s, t, FIRST_ENV);
    var second := CalmlyRunsBy(t, u, SECOND_ENV);
    RunsOn(s, first, t, second, u, CLAIM_IDLE);
    RunsAfterStep(s0, Reclaim(s0), first + second, u, CLAIM_IDLE);
  }

  /** Worker 1 has loaded the notification before the first attempt and marks it after that has failed. */
  lemma StaleMark() returns (s: State)
    ensures Reachable(s) && s.workers.Keys == {0, 1}
    ensures 7 in s.db.notifications && s.db.notifications[7].status.Retrying? && s.db.notifications[7].attemptCount == 1
    ensures Busy(s, 1) && WorkerOf(s, 1).phase == Loaded(Task(7, Pending, 0, 5))
    ensures FlownTask(WorkerOf(s, 0)).None?
  {
    var before := SlowWorker();
    var s0 := HandedTwice(before);
    CalmLoad(s0, SECOND_ENV, 7);
    var s1 := Load1(s0, 1, 7);
    ReachableCalmly(s0, s1, SECOND_ENV);
    s := HandleLive(s1, FIRST_ENV, 7, 10);
    ReachableCalmly(s1, s, FIRST_ENV);
    FirstFailureWaits(s1.db, s1.now);
  }

  /** No crash is needed to strand a notification: a worker with a stale snapshot does it by its mark. */
  lemma StaleSnapshotStrands()
    ensures exists s, w, nid: Uuid ::
              && Reachable(s) && !Stuck(s, nid) && Enabled(s, MarkDelivering(w))
              && Stuck(Apply(s, MarkDelivering(w)), nid)
  {
    var s := StaleMark();
    assert Enabled(s, MarkDelivering(1)) && !Stuck(s, 7);
    var t := DoMarkDelivering(s, 1);
    assert t == Apply(s, MarkDelivering(1));
    assert t.workers == s.workers[1 := WorkerOf(s, 1).(phase := Marked(Task(7, Pending, 0, 5)))];
    assert t.workers.Keys == {0, 1};
    assert Stuck(t, 7);
  }
}

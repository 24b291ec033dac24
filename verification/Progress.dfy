/**
 * Progress. Every undisturbed run of enough laps finishes everything that is not
 * stuck, and from idle there always are such runs.
 */
module Progress {
  import opened Common
  import opened Uuids
  import opened Tables
  import opened Pipeline
  import opened PipelineShape
  import opened PipelineRefinement
  import opened NoLostWork
  import opened Potential
  import opened Calm
  import opened Rounds
  import opened Laps
  import opened Guarantees

  // ----- every run

  lemma LapKeepsRow(s: State, before: seq<Step>, u: State, after: seq<Step>, t: State, n: Uuid, env: Env)
    requires Reachable(s) && WorkerIdle(s, env) && Lap(s, before, u, after, t, env) && n in s.db.notifications
    ensures Reachable(t) && Visited(s, t, n) && t.db.notifications.Keys == s.db.notifications.Keys
    ensures n in t.db.notifications && RowDuring(s.db.notifications[n], t.db.notifications[n], false, env)
  {
    LapVisits(s, before, u, after, t, n, env);
    assert RowDuring(s.db.notifications[n], t.db.notifications[n], Flight(WorkerOf(t, env.worker)) == Some(n), env);
  }

  /** Every lap with 2xx answers brings every pending or retrying notification to succeeded. */
  lemma LapSucceeds(s: State, before: seq<Step>, u: State, after: seq<Step>, t: State, n: Uuid, env: Env)
    requires Reachable(s) && WorkerIdle(s, env) && Lap(s, before, u, after, t, env) && AllOk(env)
    requires n in s.db.notifications && s.db.notifications[n].status.Live()
    ensures n in t.db.notifications && t.db.notifications[n].status.Succeeded?
  {
    LapKeepsRow(s, before, u, after, t, n, env);
  }

  /** A lap makes a live notification lighter or terminal, and leaves the others alone. */
  lemma RowWeighsLess(a: Notification, b: Notification, env: Env)
    requires RowDuring(a, b, false, env) && (!a.status.Terminal() ==> 0 <= a.attemptCount < a.maxAttempts)
    requires a.status.Live() ==> a.attemptCount < b.attemptCount
    ensures a.status.Live() ==> Weight(b) < Weight(a) && !b.status.Delivering?
    ensures !a.status.Live() ==> b == a
  {
  }

  ghost predicate LapTo(s: State, t: State, env: Env) {
    exists before, u, after :: Lap(s, before, u, after, t, env)
  }

  /** Laps one after the other: each state is one lap on from the one before. */
  ghost predicate LapChain(states: seq<State>, env: Env) {
    |states| > 0 && forall j :: 0 <= j < |states| - 1 ==> LapTo(states[j], states[j + 1], env)
  }

  lemma LapIsCalm(s: State, t: State, env: Env)
    requires LapTo(s, t, env)
    ensures Calmly(s, t, env)
  {
    var before, u, after :| Lap(s, before, u, after, t, env);
    CalmConcat(s, before, u, after, t, env);
  }

  lemma LapToLowers(s: State, t: State, n: Uuid, env: Env)
    requires Reachable(s) && WorkerIdle(s, env) && LapTo(s, t, env) && n in s.db.notifications
    ensures Reachable(t) && WorkerIdle(t, env) && n in t.db.notifications
    ensures var a, b := s.db.notifications[n], t.db.notifications[n];
            && (a.status.Live() ==> Weight(b) < Weight(a) && !b.status.Delivering?)
            && (!a.status.Live() ==> b == a)
  {
    var before, u, after :| Lap(s, before, u, after, t, env);
    LapKeepsRow(s, before, u, after, t, n, env);
    ReachableAffords(s);
    RowWeighsLess(s.db.notifications[n], t.db.notifications[n], env);
  }

  /** What is not live stays as it is in an undisturbed run. */
  lemma StaysAsItIs(s: State, t: State, n: Uuid, env: Env)
    requires Reachable(s) && WorkerIdle(s, env) && Calmly(s, t, env)
    requires n in s.db.notifications && !s.db.notifications[n].status.Live()
    ensures n in t.db.notifications && t.db.notifications[n] == s.db.notifications[n]
    ensures t.db.notifications.Keys == s.db.notifications.Keys
  {
    var steps :| CalmRun(s, steps, t, env);
    DuringStarts(s, env);
    RunKeepsDuring(s, s, steps, t, env);
    assert RowDuring(s.db.notifications[n], t.db.notifications[n], Flight(WorkerOf(t, env.worker)) == Some(n), env);
  }

  /** One notification after j laps: each has cost it an attempt as long as it was live. */
  ghost predicate Drained(s: State, t: State, n: Uuid, j: nat, env: Env)
    requires n in s.db.notifications
  {
    && Reachable(t) && WorkerIdle(t, env) && n in t.db.notifications
    && (t.db.notifications[n].status.Delivering? <==> s.db.notifications[n].status.Delivering?)
    && (t.db.notifications[n].status.Live() ==> Weight(t.db.notifications[n]) + j <= Weight(s.db.notifications[n]))
  }

  lemma LapDrains(s: State, t: State, u: State, n: Uuid, j: nat, env: Env)
    requires n in s.db.notifications && Drained(s, t, n, j, env) && LapTo(t, u, env)
    ensures Drained(s, u, n, j + 1, env)
  {
    LapToLowers(t, u, n, env);
  }

  lemma {:induction false} LapsDrain(states: seq<State>, j: nat, n: Uuid, env: Env)
    requires LapChain(states, env) && j < |states|
    requires Reachable(states[0]) && WorkerIdle(states[0], env) && n in states[0].db.notifications
    ensures Drained(states[0], states[j], n, j, env)
  {
    if j > 0 {
      LapsDrain(states, j - 1, n, env);
      assert LapTo(states[j - 1], states[j - 1 + 1], env);
      LapDrains(states[0], states[j - 1], states[j], n, j - 1, env);
    }
  }

  /**
   * Drain of one notification: EVERY undisturbed run of as many laps as it had
   * attempts left, and perhaps of some steps more, ends with it terminal, if and
   * only if it was not delivering at the start; whatever the dispatcher answers
   * and whatever else is stuck.
   */
  lemma NotificationDrains(states: seq<State>, t: State, n: Uuid, env: Env)
    requires LapChain(states, env) && Calmly(states[|states| - 1], t, env)
    requires Reachable(states[0]) && WorkerIdle(states[0], env) && n in states[0].db.notifications
    requires |states| > Weight(states[0].db.notifications[n])
    ensures n in t.db.notifications
    ensures t.db.notifications[n].status.Terminal() <==> !states[0].db.notifications[n].status.Delivering?
  {
    var last := states[|states| - 1];
    LapsDrain(states, |states| - 1, n, env);
    ReachableAffords(last);
    assert !last.db.notifications[n].status.Live();
    StaysAsItIs(last, t, n, env);
  }

  /** No notification ever has more than twenty attempts left. */
  lemma WeightAtMost20(s: State, n: Uuid)
    requires Reachable(s) && n in s.db.notifications
    ensures Weight(s.db.notifications[n]) <= 20
  {
    ReachableLossless(s);
    AttemptBound(s, n);
  }

  lemma {:induction false} LapsAreCalm(states: seq<State>, j: nat, env: Env)
    requires LapChain(states, env) && j < |states|
    ensures Calmly(states[0], states[j], env)
  {
    if j == 0 {
      CalmNone(states[0], env);
    } else {
      LapsAreCalm(states, j - 1, env);
      assert LapTo(states[j - 1], states[j - 1 + 1], env);
      LapIsCalm(states[j - 1], states[j], env);
      CalmTrans(states[0], states[j - 1], states[j], env);
    }
  }

  /**
   * Drain: EVERY undisturbed run of twenty laps, and perhaps of some steps more,
   * from any reachable state with the worker idle ends with every notification
   * terminal that was not delivering, having made no more Deliver calls than
   * attempts were left; whatever the dispatcher answers.
   */
  lemma FaultFreeDrain(states: seq<State>, t: State, env: Env)
    requires LapChain(states, env) && Calmly(states[|states| - 1], t, env) && |states| > 20
    requires Reachable(states[0]) && WorkerIdle(states[0], env)
    ensures forall n :: n in states[0].db.notifications ==>
              && n in t.db.notifications
              && (t.db.notifications[n].status.Terminal() <==> !states[0].db.notifications[n].status.Delivering?)
    ensures Dispatched(t.log) <= Dispatched(states[0].log) + Total(states[0].db.notifications)
  {
    var s, last := states[0], states[|states| - 1];
    forall n | n in s.db.notifications
      ensures n in t.db.notifications
      ensures t.db.notifications[n].status.Terminal() <==> !s.db.notifications[n].status.Delivering?
    {
      WeightAtMost20(s, n);
      NotificationDrains(states, t, n, env);
    }
    LapsAreCalm(states, |states| - 1, env);
    CalmTrans(s, last, t, env);
    CalmlyPaidFor(s, t, env);
  }

  lemma CalmlyPaidFor(s: State, t: State, env: Env)
    requires Reachable(s) && WorkerIdle(s, env) && Calmly(s, t, env)
    ensures Dispatched(t.log) <= Dispatched(s.log) + Total(s.db.notifications)
  {
    var steps :| CalmRun(s, steps, t, env);
    DispatchesArePaidFor(s, steps, t, env);
  }

  // ----- some run

  lemma ReachableCalmly(s: State, t: State, env: Env)
    requires Reachable(s) && Calmly(s, t, env)
    ensures Reachable(t)
  {
    var steps :| CalmRun(s, steps, t, env);
    CalmIsRun(s, steps, t, env);
    ReachableRun(s, steps, t);
  }

  lemma ReachableFits(s: State, env: Env)
    requires Reachable(s) && Fundable(s, env)
    ensures Fit(s, env) && s.cursor <= |s.stream|
  {
    ReachableAffords(s);
    ReachableReads(s);
  }

  /** With everything published, each live notification has an entry still to be read or reclaimed. */
  lemma LiveHasEntry(s: State, n: Uuid) returns (i: nat)
    requires Reachable(s) && Unpublished(s.db.outbox) == {}
    requires n in s.db.notifications && s.db.notifications[n].status.Live()
    ensures i < |s.stream| && s.stream[i].event.nid == n
    ensures i >= s.cursor || i in s.pel
  {
    NewestIsKnown(s, n);
    assert Newest(s.log, n).value !in Unpublished(s.db.outbox);
    i := NewestHasEntry(s, n);
  }

  /** The relay's half of a lap. */
  lemma WaitAndPublish(s: State, env: Env) returns (t: State)
    requires Reachable(s) && RelayIdle(s, env) && WorkerIdle(s, env)
    ensures Calmly(s, t, env) && Reachable(t) && RelayIdle(t, env) && WorkerIdle(t, env)
    ensures t.db.notifications == s.db.notifications && t.db.outbox.Keys == s.db.outbox.Keys
    ensures Dispatched(t.log) == Dispatched(s.log)
    ensures t.cursor == s.cursor && t.pel == s.pel && t.workers == s.workers && t.policy == s.policy
    ensures Unpublished(t.db.outbox) == {}
    ensures forall i :: i in t.pel ==> IdleEnough(t, i, env)
  {
    ReachableRows(s);
    var d := LongEnough(s, env);
    CalmTick(s, d, env);
    var s1 := s.(now := s.now + d);
    t := PublishAll(s1, env);
    CalmTrans(s, s1, t, env);
    ReachableCalmly(s, t, env);
  }

  lemma ReachableRows(s: State)
    requires Reachable(s)
    ensures RowsOk(s.db)
  {
    ReachableLossless(s);
  }

  /** The worker's half of a lap: a scan, then reading to the end. */
  lemma ScanAndRead(u: State, env: Env) returns (step: Step, t: State)
    requires Fit(u, env) && WorkerIdle(u, env) && u.cursor <= |u.stream| && env.readCount > 0
    ensures step.AutoClaim? && Enabled(u, step) && Allowed(u, step, env) && Calmly(Apply(u, step), t, env)
    ensures t.relays == u.relays && t.stream == u.stream && WorkerIdle(t, env) && Evolved(u, t, env)
    ensures t.cursor == |t.stream|
  {
    var s1;
    step, s1 := ScanAll(u, env);
    FitKept(u, s1, env);
    t := ReadAll(s1, env);
    CalmTrans(Apply(u, step), s1, t, env);
    EvolvedTrans(u, s1, t, env);
  }

  /** From idle there is a lap, and it ends idle. */
  lemma SomeLap(s: State, env: Env) returns (before: seq<Step>, u: State, after: seq<Step>, t: State)
    requires Reachable(s) && RelayIdle(s, env) && WorkerIdle(s, env) && env.readCount > 0 && Fundable(s, env)
    ensures Lap(s, before, u, after, t, env)
    ensures Reachable(t) && RelayIdle(t, env) && WorkerIdle(t, env) && Fundable(t, env)
  {
    u := WaitAndPublish(s, env);
    ReachableFits(u, env);
    var step;
    step, t := ScanAndRead(u, env);
    before :| CalmRun(s, before, u, env);
    var rest :| CalmRun(Apply(u, step), rest, t, env);
    after := [step] + rest;
    assert after[1..] == rest;
    CalmIsRun(u, after, t, env);
    ReachableRun(u, after, t);
    AllPublished(s.db.outbox, u.db.outbox);
  }

  lemma AllPublished(before: map<Uuid, OutboxRow>, after: map<Uuid, OutboxRow>)
    requires after.Keys == before.Keys && Unpublished(after) == {}
    ensures forall row :: row in before ==> row in after && after[row].status.OutboxPublished?
  {
    forall row | row in before
      ensures row in after && after[row].status.OutboxPublished?
    {
      assert row in after.Keys && row !in Unpublished(after);
    }
  }

  lemma SomeLapTo(s: State, env: Env) returns (t: State)
    requires Reachable(s) && RelayIdle(s, env) && WorkerIdle(s, env) && env.readCount > 0 && Fundable(s, env)
    ensures LapTo(s, t, env)
    ensures Reachable(t) && RelayIdle(t, env) && WorkerIdle(t, env) && Fundable(t, env)
  {
    var before, u, after;
    before, u, after, t := SomeLap(s, env);
  }

  /** From idle there are runs of any number of laps, as long as there are row ids. */
  lemma {:induction false} LapsHappen(s: State, k: nat, env: Env) returns (states: seq<State>)
    requires Reachable(s) && RelayIdle(s, env) && WorkerIdle(s, env) && env.readCount > 0 && Fundable(s, env)
    ensures LapChain(states, env) && |states| == k + 1 && states[0] == s
    decreases k
  {
    if k == 0 {
      states := [s];
    } else {
      var v := SomeLapTo(s, env);
      var rest := LapsHappen(v, k - 1, env);
      states := [s] + rest;
      LapsPrepend(s, rest, env);
    }
  }

  lemma LapsPrepend(s: State, rest: seq<State>, env: Env)
    requires LapChain(rest, env) && LapTo(s, rest[0], env)
    ensures LapChain([s] + rest, env)
  {
    var states := [s] + rest;
    forall j | 0 <= j < |states| - 1
      ensures LapTo(states[j], states[j + 1], env)
    {
      if j > 0 {
        assert LapTo(rest[j - 1], rest[j - 1 + 1], env);
      }
    }
  }

  /**
   * Progress: whatever crashed, was duplicated or went stale before, one idle
   * relay and one idle worker can bring every pending or retrying notification
   * to succeeded, undisturbed and with 2xx answers, whatever their batch sizes.
   */
  lemma EveryLiveNotificationCanSucceed(s: State, env: Env)
    requires Reachable(s) && RelayIdle(s, env) && WorkerIdle(s, env)
    requires env.readCount > 0 && AllOk(env)
    ensures exists steps, t :: CalmRun(s, steps, t, env) &&
              forall n :: n in s.db.notifications && s.db.notifications[n].status.Live() ==>
                n in t.db.notifications && t.db.notifications[n].status.Succeeded?
  {
    var before, u, after, t := SomeLap(s, env);
    CalmConcat(s, before, u, after, t, env);
    forall n | n in s.db.notifications && s.db.notifications[n].status.Live()
      ensures n in t.db.notifications && t.db.notifications[n].status.Succeeded?
    {
      LapSucceeds(s, before, u, after, t, n, env);
    }
  }
}

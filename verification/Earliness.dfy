/**
 * When a retry can be dispatched before its next_attempt_at. The worker never
 * looks at that column, so what counts is whether a message of the notification
 * can still reach a worker in time.
 */
module Earliness {
  import opened Common
  import opened Uuids
  import opened Message
  import opened Tables
  import opened Pipeline
  import opened PipelineShape
  import opened PipelineRefinement
  import opened Orphans
  import Schedules
  import Leases

  /** Worker w is about to mark a notification whose next attempt is not due yet, and will succeed. */
  predicate MarksEarly(s: State, w: nat) {
    && Busy(s, w) && WorkerOf(s, w).phase.Loaded?
    && var nid := WorkerOf(s, w).phase.task.id;
       && nid in s.db.notifications
       && s.db.notifications[nid].status.Live()
       && s.db.notifications[nid].nextAttemptAt.Some?
       && s.now < s.db.notifications[nid].nextAttemptAt.value
  }

  /** An early dispatch always comes from a message of an older outbox row. */
  lemma EarlyOnlyFromOlderRow(s: State, w: nat)
    requires Reachable(s) && MarksEarly(s, w)
    ensures Some(Current(s, w).event.id) != Newest(s.log, WorkerOf(s, w).phase.task.id)
  {
    var nid := WorkerOf(s, w).phase.task.id;
    Schedules.ScheduleCoherence(s, nid);
    Leases.NoEarlyPublish(s, WorkerOf(s, w).batch[0]);
  }

  // ----- what can happen before the next attempt is due

  /** The notification waits for its next attempt, due at `next`. */
  predicate Waits(s: State, nid: Uuid, next: Time) {
    && nid in s.db.notifications
    && s.db.notifications[nid].status.Retrying?
    && s.db.notifications[nid].nextAttemptAt == Some(next)
    && s.now < next
  }

  /** The worker has the entry in its batch and has not gone past loading it. */
  predicate Holding(worker: Worker, i: nat) {
    exists k :: 0 <= k < |worker.batch| && worker.batch[k] == i &&
                (k > 0 || worker.phase.Idle? || worker.phase.Loaded?)
  }

  /** The entry is unread, or can be reclaimed in time, or is in some worker's hands. */
  predicate InReach(s: State, i: nat, minIdle: Time, next: Time) {
    || i >= s.cursor
    || (i in s.pel && s.pel[i].since + minIdle < next)
    || exists w :: w in s.workers && Holding(s.workers[w], i)
  }

  predicate Looms(s: State, nid: Uuid, minIdle: Time, next: Time) {
    exists i: nat :: i < |s.stream| && s.stream[i].event.nid == nid && InReach(s, i, minIdle, next)
  }

  /** Workers reclaim what has been idle for `minIdle`. */
  predicate IdleRule(step: Step, minIdle: Time) {
    step.AutoClaim? ==> step.minIdle == minIdle
  }

  predicate OfWorkers(step: Step) {
    !(step.Create? || step.ManualRetry? || step.Claim? || step.Append? || step.AppendError?
      || step.MarkPublished? || step.MarkFailed? || step.RelayCrash?)
  }

  predicate AllOfWorkers(steps: seq<Step>) {
    forall k :: 0 <= k < |steps| ==> OfWorkers(steps[k])
  }

  ghost predicate RunsBy(s: State, steps: seq<Step>, t: State, minIdle: Time) {
    Run(s, steps, t) && forall k :: 0 <= k < |steps| ==> IdleRule(steps[k], minIdle)
  }

  /** In the end some worker is about to mark the notification, still waiting as in s. */
  predicate EndsEarly(s: State, t: State, w: nat, nid: Uuid) {
    && MarksEarly(t, w) && WorkerOf(t, w).phase.task.id == nid
    && nid in s.db.notifications && t.db.notifications[nid] == s.db.notifications[nid]
  }

  /** Workers alone, as time goes by, can dispatch the retry early. */
  ghost predicate WorkersCanMarkEarly(s: State, nid: Uuid, minIdle: Time) {
    exists steps, t, w :: RunsBy(s, steps, t, minIdle) && EndsEarly(s, t, w, nid) &&
                          AllOfWorkers(steps)
  }

  /** So can the whole system. */
  ghost predicate CanMarkEarly(s: State, nid: Uuid, minIdle: Time) {
    exists steps, t, w :: RunsBy(s, steps, t, minIdle) && EndsEarly(s, t, w, nid)
  }

  /** Relay r is about to append a message of the notification. */
  predicate Appends(s: State, r: nat, nid: Uuid) {
    RelayOf(s, r).batch != [] && RelayOf(s, r).phase.Ready? && RelayOf(s, r).batch[0].nid == nid
  }

  /** A relay can still append a message of the notification before the next attempt is due. */
  ghost predicate CanAppendInTime(s: State, nid: Uuid, minIdle: Time, next: Time) {
    exists steps, t, r :: RunsBy(s, steps, t, minIdle) && Waits(t, nid, next) && Appends(t, r, nid) &&
                          nid in s.db.notifications && t.db.notifications[nid] == s.db.notifications[nid]
  }

  lemma {:induction false} TimeOnlyGrows(s: State, steps: seq<Step>, t: State)
    requires Run(s, steps, t)
    ensures s.now <= t.now
    decreases |steps|
  {
    if steps != [] {
      StepGrows(s, steps[0]);
      TimeOnlyGrows(Apply(s, steps[0]), steps[1..], t);
    }
  }

  // ----- an entry out of reach stays out of reach

  lemma PageOutOfReach(s: State, step: Step, i: nat, minIdle: Time, next: Time)
    requires Enabled(s, step) && IdleRule(step, minIdle) && (step.Read? || step.AutoClaim?)
    requires s.now < next && !InReach(s, i, minIdle, next)
    ensures !InReach(Apply(s, step), i, minIdle, next)
  {
    var t := Apply(s, step);
    assert i !in t.workers[step.w].batch;
    forall w | w in t.workers
      ensures !Holding(t.workers[w], i)
    {
      if w == step.w {
        assert forall k :: 0 <= k < |t.workers[w].batch| ==> t.workers[w].batch[k] in t.workers[w].batch;
      }
    }
  }

  /** What a worker step other than fetching does to the worker's batch. */
  predicate MovesOn(before: Worker, after: Worker) {
    || after == IDLE_WORKER
    || (before.batch != [] && after == NextMessage(before))
    || (&& after.batch == before.batch && !after.phase.Idle?
        && (after.phase.Loaded? ==> before.phase.Idle?))
  }

  lemma WorkerMovesOn(s: State, step: Step)
    requires Enabled(s, step) && OfWorkers(step) && !step.Tick? && !step.Read? && !step.AutoClaim?
    ensures var t := Apply(s, step);
            && t.cursor == s.cursor && (forall i :: i in t.pel ==> i in s.pel && t.pel[i] == s.pel[i])
            && step.w in t.workers && t.workers == s.workers[step.w := t.workers[step.w]]
            && MovesOn(WorkerOf(s, step.w), t.workers[step.w])
  {
  }

  lemma HeldBefore(before: Worker, after: Worker, i: nat)
    requires Holding(after, i)
    requires MovesOn(before, after)
    ensures Holding(before, i)
  {
    var k :| 0 <= k < |after.batch| && after.batch[k] == i && (k > 0 || after.phase.Idle? || after.phase.Loaded?);
    if before.batch != [] && after == NextMessage(before) {
      assert before.batch[k + 1] == i;
    } else {
      assert before.batch[k] == i;
    }
  }

  lemma MovedOnOutOfReach(s: State, step: Step, i: nat, minIdle: Time, next: Time)
    requires Enabled(s, step) && OfWorkers(step) && !step.Tick? && !step.Read? && !step.AutoClaim?
    requires !InReach(s, i, minIdle, next)
    ensures !InReach(Apply(s, step), i, minIdle, next)
  {
    WorkerMovesOn(s, step);
    var before, after := WorkerOf(s, step.w), Apply(s, step).workers[step.w];
    if Holding(after, i) {
      HeldBefore(before, after, i);
    }
  }

  lemma StepOutOfReach(s: State, step: Step, i: nat, minIdle: Time, next: Time)
    requires Enabled(s, step) && IdleRule(step, minIdle) && s.now < next && !InReach(s, i, minIdle, next)
    ensures !InReach(Apply(s, step), i, minIdle, next)
  {
    if step.Read? || step.AutoClaim? {
      PageOutOfReach(s, step, i, minIdle, next);
    } else if OfWorkers(step) && !step.Tick? {
      MovedOnOutOfReach(s, step, i, minIdle, next);
    } else {
      OutsideGroup(s, step);
    }
  }

  lemma OutsideGroup(s: State, step: Step)
    requires Enabled(s, step) && (step.Tick? || !OfWorkers(step))
    ensures var t := Apply(s, step); t.cursor == s.cursor && t.pel == s.pel && t.workers == s.workers
  {
  }

  /** A worker that has loaded the notification holds an entry in reach. */
  lemma LoadedLooms(s: State, w: nat, nid: Uuid, minIdle: Time, next: Time)
    requires WorkersOk(s) && Busy(s, w) && WorkerOf(s, w).phase.Loaded? && WorkerOf(s, w).phase.task.id == nid
    ensures Looms(s, nid, minIdle, next)
  {
    WorkerOfFine(s, w);
    var i := s.workers[w].batch[0];
    assert Holding(s.workers[w], i) && InReach(s, i, minIdle, next);
  }

  lemma FlownDelivers(s: State, w: nat)
    requires Exclusive(s.db.notifications, s.workers) && WorkerOf(s, w).phase.Concluded?
    ensures var nid := WorkerOf(s, w).phase.task.id;
            nid in s.db.notifications && s.db.notifications[nid].status.Delivering?
  {
    assert FlightOk(s.db.notifications, s.workers[w]);
  }

  /** Only a step on a message in hand changes the row of a waiting notification. */
  lemma StepKeepsWaiting(s: State, step: Step, nid: Uuid, minIdle: Time, next: Time)
    requires WorkersOk(s) && Exclusive(s.db.notifications, s.workers) && Enabled(s, step)
    requires Waits(s, nid, next) && !Looms(s, nid, minIdle, next)
    ensures nid in Apply(s, step).db.notifications
    ensures Apply(s, step).db.notifications[nid] == s.db.notifications[nid]
  {
    if step.MarkDelivering? && WorkerOf(s, step.w).phase.task.id == nid {
      LoadedLooms(s, step.w, nid, minIdle, next);
    } else if step.Record? && WorkerOf(s, step.w).phase.task.id == nid {
      FlownDelivers(s, step.w);
    } else {
      RowUntouched(s, step, nid);
    }
  }

  lemma RowUntouched(s: State, step: Step, nid: Uuid)
    requires Enabled(s, step) && nid in s.db.notifications && s.db.notifications[nid].status.Retrying?
    requires step.MarkDelivering? || step.Record? ==> WorkerOf(s, step.w).phase.task.id != nid
    ensures nid in Apply(s, step).db.notifications
    ensures Apply(s, step).db.notifications[nid] == s.db.notifications[nid]
  {
  }

  /** A step that appends no message of the notification brings none into reach. */
  lemma StepLoomsNot(s: State, step: Step, nid: Uuid, minIdle: Time, next: Time)
    requires Enabled(s, step) && IdleRule(step, minIdle)
    requires s.now < next && !Looms(s, nid, minIdle, next)
    requires step.Append? || step.AppendError? ==> !Appends(s, step.r, nid)
    ensures !Looms(Apply(s, step), nid, minIdle, next)
  {
    var t := Apply(s, step);
    StreamStep(s, step);
    forall i: nat | i < |t.stream| && t.stream[i].event.nid == nid
      ensures !InReach(t, i, minIdle, next)
    {
      assert i < |s.stream| && !InReach(s, i, minIdle, next);
      StepOutOfReach(s, step, i, minIdle, next);
    }
  }

  lemma StreamStep(s: State, step: Step)
    requires Enabled(s, step)
    ensures s.stream <= Apply(s, step).stream
    ensures Apply(s, step).stream != s.stream ==>
              && (step.Append? || step.AppendError?)
              && Apply(s, step).stream == s.stream + [EntryFor(RelayOf(s, step.r).batch[0], s.now)]
              && RelayOf(s, step.r).phase.Ready?
  {
  }

  lemma AppendsNow(s: State, r: nat, nid: Uuid, minIdle: Time, next: Time)
    requires Waits(s, nid, next) && Appends(s, r, nid)
    ensures CanAppendInTime(s, nid, minIdle, next)
  {
    assert RunsBy(s, [], s, minIdle);
  }

  /** As long as no message looms and none can be appended, nothing changes that. */
  lemma StepStaysSafe(s: State, step: Step, nid: Uuid, minIdle: Time, next: Time)
    requires WorkersOk(s) && Exclusive(s.db.notifications, s.workers) && Enabled(s, step) && IdleRule(step, minIdle)
    requires Waits(s, nid, next) && !Looms(s, nid, minIdle, next) && Apply(s, step).now < next
    requires OfWorkers(step) || !CanAppendInTime(s, nid, minIdle, next)
    ensures Waits(Apply(s, step), nid, next) && !Looms(Apply(s, step), nid, minIdle, next)
    ensures CanAppendInTime(Apply(s, step), nid, minIdle, next) ==> CanAppendInTime(s, nid, minIdle, next)
  {
    StepKeepsWaiting(s, step, nid, minIdle, next);
    if (step.Append? || step.AppendError?) && Appends(s, step.r, nid) {
      AppendsNow(s, step.r, nid, minIdle, next);
    } else {
      StepLoomsNot(s, step, nid, minIdle, next);
      if CanAppendInTime(Apply(s, step), nid, minIdle, next) {
        AppendInTimeLater(s, step, nid, minIdle, next);
      }
    }
  }

  lemma WorkersFit(s: State)
    requires Reachable(s)
    ensures WorkersOk(s) && Exclusive(s.db.notifications, s.workers)
  {
    ReachableInv(s);
  }

  lemma RunsByTail(s: State, steps: seq<Step>, t: State, minIdle: Time)
    requires RunsBy(s, steps, t, minIdle) && steps != []
    ensures Enabled(s, steps[0]) && IdleRule(steps[0], minIdle)
    ensures RunsBy(Apply(s, steps[0]), steps[1..], t, minIdle)
    ensures Apply(s, steps[0]).now <= t.now
    ensures AllOfWorkers(steps) ==> OfWorkers(steps[0]) && AllOfWorkers(steps[1..])
  {
    TimeOnlyGrows(Apply(s, steps[0]), steps[1..], t);
  }

  lemma {:induction false} RunStaysSafe(s: State, steps: seq<Step>, t: State, nid: Uuid, minIdle: Time, next: Time)
    requires Reachable(s) && RunsBy(s, steps, t, minIdle) && t.now < next
    requires Waits(s, nid, next) && !Looms(s, nid, minIdle, next)
    requires AllOfWorkers(steps) || !CanAppendInTime(s, nid, minIdle, next)
    ensures Waits(t, nid, next) && !Looms(t, nid, minIdle, next)
    decreases |steps|
  {
    if steps != [] {
      RunsByTail(s, steps, t, minIdle);
      WorkersFit(s);
      ReachableStep(s, steps[0]);
      StepStaysSafe(s, steps[0], nid, minIdle, next);
      RunStaysSafe(Apply(s, steps[0]), steps[1..], t, nid, minIdle, next);
    }
  }

  lemma AppendInTimeLater(s: State, step: Step, nid: Uuid, minIdle: Time, next: Time)
    requires Enabled(s, step) && IdleRule(step, minIdle) && CanAppendInTime(Apply(s, step), nid, minIdle, next)
    requires nid in s.db.notifications && Apply(s, step).db.notifications[nid] == s.db.notifications[nid]
    ensures CanAppendInTime(s, nid, minIdle, next)
  {
    var u := Apply(s, step);
    var steps, t, r :| RunsBy(u, steps, t, minIdle) && Waits(t, nid, next) && Appends(t, r, nid) &&
                       nid in u.db.notifications && t.db.notifications[nid] == u.db.notifications[nid];
    RunsAfterStep(s, step, steps, t, minIdle);
  }

  lemma RunsAfterStep(s: State, step: Step, steps: seq<Step>, t: State, minIdle: Time)
    requires Enabled(s, step) && IdleRule(step, minIdle) && RunsBy(Apply(s, step), steps, t, minIdle)
    ensures RunsBy(s, [step] + steps, t, minIdle)
  {
    assert ([step] + steps)[1..] == steps;
  }

  lemma RunsOn(s: State, steps: seq<Step>, u: State, more: seq<Step>, t: State, minIdle: Time)
    requires RunsBy(s, steps, u, minIdle) && RunsBy(u, more, t, minIdle)
    ensures RunsBy(s, steps + more, t, minIdle)
  {
    RunConcat(s, steps, u, more, t);
  }

  // ----- an entry in reach can be used

  lemma EarlyLater(s: State, step: Step, nid: Uuid, minIdle: Time)
    requires Enabled(s, step) && IdleRule(step, minIdle) && OfWorkers(step)
    requires WorkersCanMarkEarly(Apply(s, step), nid, minIdle)
    requires nid in s.db.notifications && Apply(s, step).db.notifications == s.db.notifications
    ensures WorkersCanMarkEarly(s, nid, minIdle)
  {
    var u := Apply(s, step);
    var steps, t, w :| RunsBy(u, steps, t, minIdle) && EndsEarly(u, t, w, nid) &&
                       AllOfWorkers(steps);
    RunsAfterStep(s, step, steps, t, minIdle);
    assert AllOfWorkers([step] + steps) && EndsEarly(s, t, w, nid);
  }

  lemma EarlyAlready(s: State, w: nat, nid: Uuid, minIdle: Time)
    requires EndsEarly(s, s, w, nid)
    ensures WorkersCanMarkEarly(s, nid, minIdle)
  {
    assert RunsBy(s, [], s, minIdle) && AllOfWorkers([]);
  }

  lemma LoadsWaiting(s: State, w: nat, nid: Uuid, next: Time)
    requires Waits(s, nid, next) && Enabled(s, Load(w))
    requires ParseDeliveryMessage(Current(s, w).values).value.nid == nid
    ensures EndsEarly(DoLoad(s, w), DoLoad(s, w), w, nid)
    ensures DoLoad(s, w).db == s.db
  {
  }

  lemma LoadedNow(s: State, w: nat, nid: Uuid, minIdle: Time, next: Time)
    requires Shape(s) && Waits(s, nid, next) && Busy(s, w) && WorkerOf(s, w).phase.Idle?
    requires Current(s, w).event.nid == nid
    ensures WorkersCanMarkEarly(s, nid, minIdle)
  {
    CurrentParses(s, w);
    LoadsWaiting(s, w, nid, next);
    var t := DoLoad(s, w);
    EarlyAlready(t, w, nid, minIdle);
    assert Apply(s, Load(w)) == t;
    EarlyLater(s, Load(w), nid, minIdle);
  }

  /** A worker whose calls keep failing, on its way to the k-th message of its batch. */
  lemma {:induction false} ReachesMessage(s: State, w: nat, k: nat, nid: Uuid, minIdle: Time, next: Time)
    requires Reachable(s) && Waits(s, nid, next) && w in s.workers
    requires k < |s.workers[w].batch| && s.workers[w].batch[k] < |s.stream|
    requires s.stream[s.workers[w].batch[k]].event.nid == nid
    requires k > 0 || s.workers[w].phase.Idle?
    ensures WorkersCanMarkEarly(s, nid, minIdle)
    decreases k
  {
    if k == 0 {
      ReachableShape(s);
      LoadedNow(s, w, nid, minIdle, next);
    } else {
      ReachableStep(s, Abandon(w));
      var t := Apply(s, Abandon(w));
      assert t == Skip(s, w);
      assert t.workers[w].batch[k - 1] == s.workers[w].batch[k];
      ReachesMessage(t, w, k - 1, nid, minIdle, next);
      EarlyLater(s, Abandon(w), nid, minIdle);
    }
  }

  lemma HeldMarks(s: State, w: nat, i: nat, nid: Uuid, minIdle: Time, next: Time)
    requires Reachable(s) && Waits(s, nid, next) && i < |s.stream| && s.stream[i].event.nid == nid
    requires w in s.workers && Holding(s.workers[w], i)
    ensures WorkersCanMarkEarly(s, nid, minIdle)
  {
    var worker := s.workers[w];
    var k :| 0 <= k < |worker.batch| && worker.batch[k] == i && (k > 0 || worker.phase.Idle? || worker.phase.Loaded?);
    if k > 0 || worker.phase.Idle? {
      ReachesMessage(s, w, k, nid, minIdle, next);
    } else {
      ReachableShape(s);
      WorkerOfFine(s, w);
      EarlyAlready(s, w, nid, minIdle);
    }
  }

  lemma UnreadMarks(s: State, i: nat, nid: Uuid, minIdle: Time, next: Time)
    requires Reachable(s) && Waits(s, nid, next) && s.cursor <= i < |s.stream| && s.stream[i].event.nid == nid
    ensures WorkersCanMarkEarly(s, nid, minIdle)
  {
    var w := SomeUnusedId(s.workers);
    var step := Read(w, i - s.cursor + 1);
    ReachableStep(s, step);
    var t := Apply(s, step);
    assert t == DoRead(s, w, i - s.cursor + 1);
    assert t.workers[w].batch[i - s.cursor] == i;
    HeldMarks(t, w, i, nid, minIdle, next);
    EarlyLater(s, step, nid, minIdle);
  }

  lemma IdleMarks(s: State, i: nat, nid: Uuid, minIdle: Time, next: Time)
    requires Reachable(s) && Waits(s, nid, next) && i < |s.stream| && s.stream[i].event.nid == nid
    requires i in s.pel && s.now - s.pel[i].since >= minIdle
    ensures WorkersCanMarkEarly(s, nid, minIdle)
  {
    var w := SomeUnusedId(s.workers);
    var all := |s.stream|;
    var step := AutoClaim(w, all, minIdle, all);
    ReachableStep(s, step);
    var t := Apply(s, step);
    assert t == DoAutoClaim(s, w, minIdle, all);
    var page := IdlePage(s.pel, 0, all, s.now, minIdle);
    assert i in page && t.workers[w] == Worker(page, Idle, 0);
    HeldMarks(t, w, i, nid, minIdle, next);
    EarlyLater(s, step, nid, minIdle);
  }

  lemma PendingMarks(s: State, i: nat, nid: Uuid, minIdle: Time, next: Time)
    requires Reachable(s) && Waits(s, nid, next) && i < |s.stream| && s.stream[i].event.nid == nid
    requires i in s.pel && s.pel[i].since + minIdle < next
    ensures WorkersCanMarkEarly(s, nid, minIdle)
  {
    var wait: nat := if s.pel[i].since + minIdle <= s.now then 0 else s.pel[i].since + minIdle - s.now;
    ReachableStep(s, Tick(wait));
    IdleMarks(Apply(s, Tick(wait)), i, nid, minIdle, next);
    EarlyLater(s, Tick(wait), nid, minIdle);
  }

  lemma LoomingMarks(s: State, nid: Uuid, minIdle: Time, next: Time)
    requires Reachable(s) && Waits(s, nid, next) && Looms(s, nid, minIdle, next)
    ensures WorkersCanMarkEarly(s, nid, minIdle)
  {
    var i: nat :| i < |s.stream| && s.stream[i].event.nid == nid && InReach(s, i, minIdle, next);
    if i >= s.cursor {
      UnreadMarks(s, i, nid, minIdle, next);
    } else if i in s.pel && s.pel[i].since + minIdle < next {
      PendingMarks(s, i, nid, minIdle, next);
    } else {
      var w :| w in s.workers && Holding(s.workers[w], i);
      HeldMarks(s, w, i, nid, minIdle, next);
    }
  }

  /**
   * When the workers alone can dispatch a waiting retry early: exactly when an
   * entry of the notification is unread, or pending and reclaimable before the
   * next attempt is due, or held by a worker that has not marked it yet.
   */
  lemma WorkersMarkEarlyIffLooming(s: State, nid: Uuid, minIdle: Time, next: Time)
    requires Reachable(s) && Waits(s, nid, next)
    ensures WorkersCanMarkEarly(s, nid, minIdle) <==> Looms(s, nid, minIdle, next)
  {
    if Looms(s, nid, minIdle, next) {
      LoomingMarks(s, nid, minIdle, next);
    } else if WorkersCanMarkEarly(s, nid, minIdle) {
      var steps, t, w :| RunsBy(s, steps, t, minIdle) && EndsEarly(s, t, w, nid) &&
                         AllOfWorkers(steps);
      RunStaysSafe(s, steps, t, nid, minIdle, next);
      ReachableRun(s, steps, t);
      ReachableShape(t);
      LoadedLooms(t, w, nid, minIdle, next);
    }
  }

  /** The whole system can exactly if, moreover, a relay may append a message of the notification in time. */
  lemma MarkEarlyIffLoomingOrAppended(s: State, nid: Uuid, minIdle: Time, next: Time)
    requires Reachable(s) && Waits(s, nid, next)
    ensures CanMarkEarly(s, nid, minIdle) <==>
            Looms(s, nid, minIdle, next) || CanAppendInTime(s, nid, minIdle, next)
  {
    if Looms(s, nid, minIdle, next) {
      LoomingMarks(s, nid, minIdle, next);
    } else if CanAppendInTime(s, nid, minIdle, next) {
      AppendedMarks(s, nid, minIdle, next);
    } else if CanMarkEarly(s, nid, minIdle) {
      var steps, t, w :| RunsBy(s, steps, t, minIdle) && EndsEarly(s, t, w, nid);
      RunStaysSafe(s, steps, t, nid, minIdle, next);
      ReachableRun(s, steps, t);
      ReachableShape(t);
      LoadedLooms(t, w, nid, minIdle, next);
    }
  }

  lemma EarlyAfter(s: State, steps: seq<Step>, u: State, nid: Uuid, minIdle: Time)
    requires RunsBy(s, steps, u, minIdle) && CanMarkEarly(u, nid, minIdle)
    requires nid in s.db.notifications && nid in u.db.notifications
    requires u.db.notifications[nid] == s.db.notifications[nid]
    ensures CanMarkEarly(s, nid, minIdle)
  {
    var more, t, w :| RunsBy(u, more, t, minIdle) && EndsEarly(u, t, w, nid);
    RunsOn(s, steps, u, more, t, minIdle);
    assert EndsEarly(s, t, w, nid);
  }

  lemma AppendingMarks(s: State, r: nat, nid: Uuid, minIdle: Time, next: Time)
    requires Reachable(s) && Waits(s, nid, next) && Appends(s, r, nid)
    ensures CanMarkEarly(s, nid, minIdle)
  {
    ReachableStep(s, Append(r));
    ReachableShape(s);
    var t := Apply(s, Append(r));
    assert t == DoAppend(s, r) && InReach(t, |s.stream|, minIdle, next);
    LoomingMarks(t, nid, minIdle, next);
    assert RunsBy(t, [], t, minIdle);
    RunsAfterStep(s, Append(r), [], t, minIdle);
    EarlyAfter(s, [Append(r)] + [], t, nid, minIdle);
  }

  lemma AppendedMarks(s: State, nid: Uuid, minIdle: Time, next: Time)
    requires Reachable(s) && CanAppendInTime(s, nid, minIdle, next)
    ensures CanMarkEarly(s, nid, minIdle)
  {
    var steps, u, r :| RunsBy(s, steps, u, minIdle) && Waits(u, nid, next) && Appends(u, r, nid) &&
                       nid in s.db.notifications && u.db.notifications[nid] == s.db.notifications[nid];
    ReachableRun(s, steps, u);
    AppendingMarks(u, r, nid, minIdle, next);
    EarlyAfter(s, steps, u, nid, minIdle);
  }

  // ----- the condition on the state alone

  /** Whatever relays hold of the notification is at the front of their batches. */
  predicate AtFront(s: State, nid: Uuid) {
    forall r, k :: r in s.relays && 0 <= k < |s.relays[r].batch| && s.relays[r].batch[k].nid == nid ==> k == 0
  }

  /** A relay is about to append a message of the notification, or to release the row it holds of it. */
  predicate InHand(s: State, r: nat, nid: Uuid) {
    && r in s.relays && s.relays[r].batch != [] && s.relays[r].batch[0].nid == nid
    && (s.relays[r].phase.Ready? ||
        (s.relays[r].phase.Refused? && Holds(s.db, s.relays[r].batch[0].id, s.relays[r].locker)))
  }

  predicate RelayWaits(s: State, nid: Uuid) {
    exists r :: r in s.relays && InHand(s, r, nid)
  }

  /** A row of the notification can be claimed before `next`: it is pending, or its lease lapses in time. */
  predicate RowWaits(outbox: map<Uuid, OutboxRow>, nid: Uuid, next: Time) {
    exists id :: id in outbox && outbox[id].nid == nid && Eligible(outbox[id], next - 1)
  }

  predicate NothingToAppend(s: State, nid: Uuid, next: Time) {
    AtFront(s, nid) && !RelayWaits(s, nid) && !RowWaits(s.db.outbox, nid, next)
  }

  lemma EligibleStill(row: OutboxRow, now: Time, later: Time)
    requires Eligible(row, now) && now <= later
    ensures Eligible(row, later)
  {
  }

  /** Relays that hold something of the notification are as before, and its rows are as before or published. */
  lemma KeepsNothingToAppend(s: State, t: State, nid: Uuid, next: Time)
    requires NothingToAppend(s, nid, next)
    requires forall r, k :: r in t.relays && 0 <= k < |t.relays[r].batch| && t.relays[r].batch[k].nid == nid ==>
               r in s.relays && t.relays[r] == s.relays[r]
    requires forall id :: id in t.db.outbox && t.db.outbox[id].nid == nid ==>
               id in s.db.outbox && (t.db.outbox[id] == s.db.outbox[id] || t.db.outbox[id].status.OutboxPublished?)
    requires forall r :: r in s.relays && s.relays[r].batch != [] ==> EventOk(t.db.outbox, s.relays[r].batch[0])
    ensures NothingToAppend(t, nid, next)
  {
    if RelayWaits(t, nid) {
      var r :| r in t.relays && InHand(t, r, nid);
      InHandBefore(s, t, r, nid);
    }
  }

  lemma InHandBefore(s: State, t: State, r: nat, nid: Uuid)
    requires InHand(t, r, nid) && r in s.relays && t.relays[r] == s.relays[r]
    requires EventOk(t.db.outbox, t.relays[r].batch[0])
    requires forall id :: id in t.db.outbox && t.db.outbox[id].nid == nid ==>
               id in s.db.outbox && (t.db.outbox[id] == s.db.outbox[id] || t.db.outbox[id].status.OutboxPublished?)
    ensures InHand(s, r, nid)
  {
  }

  lemma ClaimTakesNone(s: State, step: Step, nid: Uuid, next: Time)
    requires Enabled(s, step) && step.Claim? && s.now < next && NothingToAppend(s, nid, next)
    ensures var t := Apply(s, step);
            && (forall k :: 0 <= k < |step.events| ==> step.events[k].nid != nid)
            && t.relays == s.relays[step.r := Relay(step.locker, step.events, Ready)]
            && forall id :: id in t.db.outbox && t.db.outbox[id].nid == nid ==>
                 id in s.db.outbox && t.db.outbox[id] == s.db.outbox[id]
  {
    forall id | id in EventIds(step.events)
      ensures id in s.db.outbox && s.db.outbox[id].nid != nid
    {
      EligibleStill(s.db.outbox[id], s.now, next - 1);
    }
    forall k | 0 <= k < |step.events|
      ensures step.events[k].nid != nid
    {
      assert step.events[k] in step.events && step.events[k].id in EventIds(step.events);
    }
  }

  /** A relay that marks changes no other row than its own, and holds nothing of the notification afterwards. */
  lemma MarkTakesNone(s: State, step: Step, nid: Uuid, next: Time)
    requires RelaysOk(s.db.outbox, s.stream, s.now, s.relays)
    requires Enabled(s, step) && (step.MarkPublished? || step.MarkFailed?) && NothingToAppend(s, nid, next)
    ensures var t := Apply(s, step);
            && step.r in t.relays && t.relays == s.relays[step.r := t.relays[step.r]]
            && (forall k :: 0 <= k < |t.relays[step.r].batch| ==> t.relays[step.r].batch[k].nid != nid)
            && forall id :: id in t.db.outbox && t.db.outbox[id].nid == nid ==>
                 id in s.db.outbox && (t.db.outbox[id] == s.db.outbox[id] || t.db.outbox[id].status.OutboxPublished?)
  {
    var relay := s.relays[step.r];
    assert RelayOk(s.db.outbox, s.stream, s.now, relay);
    assert EventOk(s.db.outbox, relay.batch[0]);
    if step.MarkFailed? && relay.batch[0].nid == nid {
      assert !InHand(s, step.r, nid);
    }
  }

  lemma AppendTakesNone(s: State, step: Step, nid: Uuid, next: Time)
    requires Enabled(s, step) && (step.Append? || step.AppendError? || step.RelayCrash?) && NothingToAppend(s, nid, next)
    ensures var t := Apply(s, step);
            && t.db == s.db && step.r in t.relays && t.relays == s.relays[step.r := t.relays[step.r]]
            && (forall k :: 0 <= k < |t.relays[step.r].batch| ==> t.relays[step.r].batch[k].nid != nid)
  {
    if !step.RelayCrash? {
      assert !InHand(s, step.r, nid);
    }
  }

  /** Steps of workers and the API give a waiting notification no new row. */
  lemma RowsOfWaiting(s: State, step: Step, nid: Uuid, id: Uuid)
    requires Enabled(s, step) && (OfWorkers(step) || step.Create? || step.ManualRetry?)
    requires nid in s.db.notifications && s.db.notifications[nid].status.Retrying?
    requires step.Record? ==> WorkerOf(s, step.w).phase.task.id != nid
    requires id in Apply(s, step).db.outbox && Apply(s, step).db.outbox[id].nid == nid
    ensures id in s.db.outbox && Apply(s, step).db.outbox[id] == s.db.outbox[id]
  {
  }

  lemma RelaysStay(s: State, step: Step)
    requires Enabled(s, step) && (OfWorkers(step) || step.Create? || step.ManualRetry?)
    ensures Apply(s, step).relays == s.relays
  {
  }

  lemma FrontsKept(s: State, step: Step)
    requires RelaysOk(s.db.outbox, s.stream, s.now, s.relays) && Enabled(s, step)
    ensures forall r :: r in s.relays && s.relays[r].batch != [] ==>
              EventOk(Apply(s, step).db.outbox, s.relays[r].batch[0])
  {
    StepGrows(s, step);
    forall r | r in s.relays && s.relays[r].batch != []
      ensures EventOk(Apply(s, step).db.outbox, s.relays[r].batch[0])
    {
      assert RelayOk(s.db.outbox, s.stream, s.now, s.relays[r]);
    }
  }

  lemma StepAppendsNothing(s: State, step: Step, nid: Uuid, next: Time)
    requires Exclusive(s.db.notifications, s.workers) && RelaysOk(s.db.outbox, s.stream, s.now, s.relays)
    requires Enabled(s, step) && Waits(s, nid, next) && NothingToAppend(s, nid, next)
    ensures NothingToAppend(Apply(s, step), nid, next)
  {
    var t := Apply(s, step);
    FrontsKept(s, step);
    if step.Claim? {
      ClaimTakesNone(s, step, nid, next);
    } else if step.MarkPublished? || step.MarkFailed? {
      MarkTakesNone(s, step, nid, next);
    } else if step.Append? || step.AppendError? || step.RelayCrash? {
      AppendTakesNone(s, step, nid, next);
    } else {
      if step.Record? {
        FlownDelivers(s, step.w);
      }
      RelaysStay(s, step);
      forall id | id in t.db.outbox && t.db.outbox[id].nid == nid
        ensures id in s.db.outbox && t.db.outbox[id] == s.db.outbox[id]
      {
        RowsOfWaiting(s, step, nid, id);
      }
    }
    KeepsNothingToAppend(s, t, nid, next);
  }

  /** Nothing looms, nothing can be appended, and no step changes that before the time. */
  predicate SafelyWaits(s: State, nid: Uuid, minIdle: Time, next: Time) {
    Waits(s, nid, next) && !Looms(s, nid, minIdle, next) && NothingToAppend(s, nid, next)
  }

  lemma StepSafelyWaits(s: State, step: Step, nid: Uuid, minIdle: Time, next: Time)
    requires WorkersOk(s) && Exclusive(s.db.notifications, s.workers)
    requires RelaysOk(s.db.outbox, s.stream, s.now, s.relays)
    requires Enabled(s, step) && IdleRule(step, minIdle)
    requires SafelyWaits(s, nid, minIdle, next) && Apply(s, step).now < next
    ensures SafelyWaits(Apply(s, step), nid, minIdle, next)
  {
    StepKeepsWaiting(s, step, nid, minIdle, next);
    assert step.Append? || step.AppendError? ==> !InHand(s, step.r, nid);
    StepLoomsNot(s, step, nid, minIdle, next);
    StepAppendsNothing(s, step, nid, next);
  }

  lemma RelaysFit(s: State)
    requires Reachable(s)
    ensures RelaysOk(s.db.outbox, s.stream, s.now, s.relays)
  {
    ReachableInv(s);
  }

  /**
   * A retry that waits safely is dispatched no earlier than it is due: in every
   * run, as long as the time has not come, it still waits and nobody is about to mark it.
   */
  lemma {:induction false} SafelyWaitsUntilDue(s: State, steps: seq<Step>, t: State, nid: Uuid, minIdle: Time, next: Time)
    requires Reachable(s) && SafelyWaits(s, nid, minIdle, next)
    requires RunsBy(s, steps, t, minIdle) && t.now < next
    ensures SafelyWaits(t, nid, minIdle, next) && t.db.notifications[nid] == s.db.notifications[nid]
    ensures forall w :: MarksEarly(t, w) ==> WorkerOf(t, w).phase.task.id != nid
    decreases |steps|
  {
    WorkersFit(s);
    if steps == [] {
      forall w | MarksEarly(t, w) && WorkerOf(t, w).phase.task.id == nid
        ensures false
      {
        LoadedLooms(t, w, nid, minIdle, next);
      }
    } else {
      RunsByTail(s, steps, t, minIdle);
      RelaysFit(s);
      ReachableStep(s, steps[0]);
      StepKeepsWaiting(s, steps[0], nid, minIdle, next);
      StepSafelyWaits(s, steps[0], nid, minIdle, next);
      SafelyWaitsUntilDue(Apply(s, steps[0]), steps[1..], t, nid, minIdle, next);
    }
  }

  // ----- and the other way round

  /** An eligible row can be claimed by a new relay, all others being locked just then. */
  lemma EligibleAppends(s: State, id: Uuid, nid: Uuid, minIdle: Time, next: Time)
    requires Waits(s, nid, next) && id in s.db.outbox && s.db.outbox[id].nid == nid && Eligible(s.db.outbox[id], s.now)
    ensures CanAppendInTime(s, nid, minIdle, next)
  {
    var r := SomeUnusedId(s.relays);
    var events := [EventOf(id, s.db.outbox[id])];
    var locked := EligibleRows(s.db.outbox, s.now) - {id};
    assert events[0] in events && EventIds(events) == {id};
    assert EligibleRows(s.db.outbox, s.now) - locked == {id};
    var step := Claim(r, "relay", 1, locked, events);
    assert Enabled(s, step);
    var t := Apply(s, step);
    assert t == DoClaim(s, r, "relay", events) && Appends(t, r, nid);
    AppendsNow(t, r, nid, minIdle, next);
    AppendInTimeLater(s, step, nid, minIdle, next);
  }

  lemma RowAppends(s: State, nid: Uuid, minIdle: Time, next: Time)
    requires Waits(s, nid, next) && RowWaits(s.db.outbox, nid, next)
    ensures CanAppendInTime(s, nid, minIdle, next)
  {
    var id :| id in s.db.outbox && s.db.outbox[id].nid == nid && Eligible(s.db.outbox[id], next - 1);
    var wait: nat := next - 1 - s.now;
    var t := Apply(s, Tick(wait));
    assert t == s.(now := next - 1);
    EligibleAppends(t, id, nid, minIdle, next);
    AppendInTimeLater(s, Tick(wait), nid, minIdle, next);
  }

  lemma RelayAppends(s: State, r: nat, nid: Uuid, minIdle: Time, next: Time)
    requires RelaysOk(s.db.outbox, s.stream, s.now, s.relays) && Waits(s, nid, next) && InHand(s, r, nid)
    ensures CanAppendInTime(s, nid, minIdle, next)
  {
    if s.relays[r].phase.Ready? {
      AppendsNow(s, r, nid, minIdle, next);
    } else {
      assert RelayOk(s.db.outbox, s.stream, s.now, s.relays[r]);
      var id := s.relays[r].batch[0].id;
      assert EventOk(s.db.outbox, s.relays[r].batch[0]);
      var t := Apply(s, MarkFailed(r));
      assert t == DoMarkFailed(s, r) && t.db.outbox[id].status.OutboxPending? && Eligible(t.db.outbox[id], t.now);
      EligibleAppends(t, id, nid, minIdle, next);
      AppendInTimeLater(s, MarkFailed(r), nid, minIdle, next);
    }
  }

  /**
   * When a waiting retry can be dispatched early, read off the state, provided no
   * relay holds an event of it behind another: exactly when one of its entries is
   * in reach of a worker, or a relay is about to append or release one of its
   * rows, or one of its rows can be claimed in time.
   */
  lemma MarkEarlyIff(s: State, nid: Uuid, minIdle: Time, next: Time)
    requires Reachable(s) && Waits(s, nid, next) && AtFront(s, nid)
    ensures CanMarkEarly(s, nid, minIdle) <==>
            Looms(s, nid, minIdle, next) || RelayWaits(s, nid) || RowWaits(s.db.outbox, nid, next)
  {
    MarkEarlyIffLoomingOrAppended(s, nid, minIdle, next);
    if RelayWaits(s, nid) {
      var r :| InHand(s, r, nid);
      RelaysFit(s);
      RelayAppends(s, r, nid, minIdle, next);
    } else if RowWaits(s.db.outbox, nid, next) {
      RowAppends(s, nid, minIdle, next);
    } else if !Looms(s, nid, minIdle, next) && CanMarkEarly(s, nid, minIdle) {
      var steps, t, w :| RunsBy(s, steps, t, minIdle) && EndsEarly(s, t, w, nid);
      SafelyWaitsUntilDue(s, steps, t, nid, minIdle, next);
    }
  }
}

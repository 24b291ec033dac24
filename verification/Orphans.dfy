/**
 * Why delivery is not unconditionally live: a delivering notification whose
 * worker is gone, or whose worker holds a stale attempt count, never moves again.
 */
module Orphans {
  import opened Common
  import opened Uuids
  import opened Retry
  import opened Delivery
  import opened Tables
  import opened Pipeline
  import opened PipelineShape
  import opened PipelineRefinement
  import opened Potential
  import opened Calm
  import opened Progress

  function FlownTask(worker: Worker): Option<Task> {
    match worker.phase
    case Marked(task) => Some(task)
    case Concluded(task, _, _) => Some(task)
    case _ => None
  }

  /** Some worker has marked the notification and its snapshot still has the current attempt count. */
  predicate Owned(s: State, nid: Uuid)
    requires nid in s.db.notifications
  {
    exists w :: w in s.workers && FlownTask(s.workers[w]).Some? &&
                FlownTask(s.workers[w]).value.id == nid &&
                FlownTask(s.workers[w]).value.attempt == s.db.notifications[nid].attemptCount
  }

  predicate Stuck(s: State, nid: Uuid) {
    nid in s.db.notifications && s.db.notifications[nid].status.Delivering? && !Owned(s, nid)
  }

  /** A flight is only ever taken up by marking, and only the marked worker records. */
  lemma UntouchedStaysStuck(s: State, t: State, nid: Uuid)
    requires Stuck(s, nid)
    requires nid in t.db.notifications && t.db.notifications[nid] == s.db.notifications[nid]
    requires forall w :: w in t.workers && FlownTask(t.workers[w]).Some? && FlownTask(t.workers[w]).value.id == nid ==>
               w in s.workers && FlownTask(s.workers[w]) == FlownTask(t.workers[w])
    ensures Stuck(t, nid)
  {
  }

  lemma RecordStaysStuck(s: State, w: nat, row: Uuid, nid: Uuid)
    requires WorkersOk(s) && Stuck(s, nid) && Enabled(s, Record(w, row))
    ensures Stuck(DoRecord(s, w, row), nid)
    ensures DoRecord(s, w, row).db.notifications[nid] == s.db.notifications[nid]
  {
    WorkerOfFine(s, w);
    var worker := s.workers[w];
    if worker.phase.task.id == nid {
      assert FlownTask(worker) == Some(worker.phase.task);
      assert !RecordMatches(s.db, nid, worker.phase.conclusion.Attempt().number);
    }
    UntouchedStaysStuck(s, DoRecord(s, w, row), nid);
  }

  lemma QuietFlights(s: State, step: Step, w: nat)
    requires Enabled(s, step) && Quiet(step)
    requires w in Apply(s, step).workers && FlownTask(Apply(s, step).workers[w]).Some?
    ensures w in s.workers && Apply(s, step).workers[w] == s.workers[w]
  {
  }

  lemma QuietStaysStuck(s: State, step: Step, nid: Uuid)
    requires Stuck(s, nid) && Enabled(s, step) && Quiet(step)
    ensures Stuck(Apply(s, step), nid)
    ensures Apply(s, step).db.notifications[nid] == s.db.notifications[nid]
  {
    var t := Apply(s, step);
    QuietSteps(s, step);
    forall w | w in t.workers && FlownTask(t.workers[w]).Some?
      ensures w in s.workers && t.workers[w] == s.workers[w]
    {
      QuietFlights(s, step, w);
    }
    UntouchedStaysStuck(s, t, nid);
  }

  /** The API and the relays move no worker, and touch no delivering notification. */
  lemma OutsideStaysStuck(s: State, step: Step, nid: Uuid)
    requires Stuck(s, nid) && Enabled(s, step)
    requires step.Create? || step.ManualRetry? || step.Claim? || step.MarkPublished? || step.MarkFailed?
    ensures Stuck(Apply(s, step), nid)
    ensures Apply(s, step).db.notifications[nid] == s.db.notifications[nid]
  {
    assert Apply(s, step).workers == s.workers;
    UntouchedStaysStuck(s, Apply(s, step), nid);
  }

  lemma MarkStaysStuck(s: State, w: nat, nid: Uuid)
    requires Stuck(s, nid) && Enabled(s, MarkDelivering(w))
    ensures Stuck(DoMarkDelivering(s, w), nid)
    ensures DoMarkDelivering(s, w).db.notifications[nid] == s.db.notifications[nid]
  {
    UntouchedStaysStuck(s, DoMarkDelivering(s, w), nid);
  }

  lemma DeliverStaysStuck(s: State, w: nat, result: AttemptResult, nid: Uuid)
    requires Stuck(s, nid) && Enabled(s, Deliver(w, result))
    ensures Stuck(DoDeliver(s, w, result), nid)
    ensures DoDeliver(s, w, result).db == s.db
  {
    UntouchedStaysStuck(s, DoDeliver(s, w, result), nid);
  }

  lemma StepStaysStuck(s: State, step: Step, nid: Uuid)
    requires WorkersOk(s) && Stuck(s, nid) && Enabled(s, step)
    ensures Stuck(Apply(s, step), nid)
    ensures Apply(s, step).db.notifications[nid] == s.db.notifications[nid]
  {
    if Quiet(step) {
      QuietStaysStuck(s, step, nid);
    } else {
      match step {
        case MarkDelivering(w) => MarkStaysStuck(s, w, nid);
        case Deliver(w, result) => DeliverStaysStuck(s, w, result, nid);
        case Record(w, row) => RecordStaysStuck(s, w, row, nid);
        case _ => OutsideStaysStuck(s, step, nid);
      }
    }
  }

  lemma {:induction false} StuckForever(s: State, steps: seq<Step>, t: State, nid: Uuid)
    requires Shape(s) && Stuck(s, nid) && Run(s, steps, t)
    ensures Stuck(t, nid) && t.db.notifications[nid] == s.db.notifications[nid]
    decreases |steps|
  {
    if steps != [] {
      var u := Apply(s, steps[0]);
      StepStaysStuck(s, steps[0], nid);
      StepKeepsShape(s, steps[0]);
      StuckForever(u, steps[1..], t, nid);
    }
  }

  /** An owner that has concluded can record. */
  lemma OwnerRecords(s: State, w: nat, row: Uuid, nid: Uuid)
    requires WorkersOk(s) && w in s.workers && s.workers[w].phase.Concluded? && row !in s.db.outbox
    requires nid in s.db.notifications && s.db.notifications[nid].status.Delivering?
    requires s.workers[w].phase.task.id == nid
    requires s.workers[w].phase.task.attempt == s.db.notifications[nid].attemptCount
    ensures Enabled(s, Record(w, row))
    ensures nid in DoRecord(s, w, row).db.notifications
    ensures !DoRecord(s, w, row).db.notifications[nid].status.Delivering?
  {
    WorkerOfFine(s, w);
    assert RecordMatches(s.db, nid, s.workers[w].phase.conclusion.Attempt().number);
  }

  lemma OwnerDelivers(s: State, w: nat, nid: Uuid) returns (t: State)
    requires Shape(s) && w in s.workers && s.workers[w].phase.Marked? && s.workers[w].phase.task.id == nid
    requires nid in s.db.notifications
    ensures Run(s, [Deliver(w, AttemptResult(200, None))], t)
    ensures Shape(t) && t.db == s.db && w in t.workers
    ensures t.workers[w].phase.Concluded? && t.workers[w].phase.task == s.workers[w].phase.task
  {
    WorkerOfFine(s, w);
    var result := AttemptResult(200, None);
    t := DoDeliver(s, w, result);
    assert t == Apply(s, Deliver(w, result));
    DeliverKeepsShape(s, w, result);
    assert Run(t, [Deliver(w, result)][1..], t);
  }

  lemma RecordingRun(s: State, w: nat, row: Uuid)
    requires Enabled(s, Record(w, row))
    ensures Run(s, [Record(w, row)], DoRecord(s, w, row))
  {
    assert Run(DoRecord(s, w, row), [Record(w, row)][1..], DoRecord(s, w, row));
  }

  lemma OwnedCanResolve(s: State, nid: Uuid) returns (steps: seq<Step>, t: State)
    requires Reachable(s) && nid in s.db.notifications && s.db.notifications[nid].status.Delivering?
    requires Owned(s, nid) && Room(s.db.outbox.Keys, 1)
    ensures Run(s, steps, t) && nid in t.db.notifications && !t.db.notifications[nid].status.Delivering?
  {
    ReachableShape(s);
    var row := RoomHasId(s.db.outbox.Keys, 1);
    var w :| w in s.workers && FlownTask(s.workers[w]).Some? && FlownTask(s.workers[w]).value.id == nid &&
             FlownTask(s.workers[w]).value.attempt == s.db.notifications[nid].attemptCount;
    var u, before := s, [];
    if s.workers[w].phase.Marked? {
      u := OwnerDelivers(s, w, nid);
      before := [Deliver(w, AttemptResult(200, None))];
    }
    OwnerRecords(u, w, row, nid);
    RecordingRun(u, w, row);
    t := DoRecord(u, w, row);
    steps := before + [Record(w, row)];
    RunConcat(s, before, u, [Record(w, row)], t);
  }

  lemma ReachableShape(s: State)
    requires Reachable(s)
    ensures Shape(s)
  {
    ReachableInv(s);
  }

  ghost predicate CanResolve(s: State, nid: Uuid) {
    exists steps, t :: Run(s, steps, t) && nid in t.db.notifications && !t.db.notifications[nid].status.Delivering?
  }

  /**
   * A delivering notification can ever leave that status exactly when a worker
   * has it in flight with the current attempt count. Otherwise every later
   * message for it conflicts, forever.
   */
  lemma DeliveringResolvesIffOwned(s: State, nid: Uuid)
    requires Reachable(s) && nid in s.db.notifications && s.db.notifications[nid].status.Delivering?
    requires Room(s.db.outbox.Keys, 1)
    ensures CanResolve(s, nid) <==> Owned(s, nid)
  {
    if Owned(s, nid) {
      var steps, t := OwnedCanResolve(s, nid);
    } else if CanResolve(s, nid) {
      ReachableShape(s);
      var steps, t :| Run(s, steps, t) && nid in t.db.notifications && !t.db.notifications[nid].status.Delivering?;
      StuckForever(s, steps, t, nid);
    }
  }

  ghost predicate CanFinish(s: State, nid: Uuid) {
    exists steps, t :: Run(s, steps, t) && nid in t.db.notifications && t.db.notifications[nid].status.Terminal()
  }

  lemma {:induction false} SomeUnusedId<T>(used: map<nat, T>) returns (id: nat)
    ensures forall k :: k in used ==> k < id
    decreases |used|
  {
    id := 0;
    if used != map[] {
      var k :| k in used;
      id := SomeUnusedId(used - {k});
      forall x | x in used
        ensures x < (if id <= k then k + 1 else id)
      {
        assert x == k || x in used - {k};
      }
      id := if id <= k then k + 1 else id;
    }
  }

  /** A new relay and a new worker can always be started to finish a live notification. */
  lemma LiveCanFinish(s: State, nid: Uuid) returns (steps: seq<Step>, t: State)
    requires Reachable(s) && nid in s.db.notifications && s.db.notifications[nid].status.Live()
    ensures Run(s, steps, t) && nid in t.db.notifications && t.db.notifications[nid].status.Succeeded?
  {
    var r := SomeUnusedId(s.relays);
    var w := SomeUnusedId(s.workers);
    var env := Env(r, "relay", 50, w, 10, 0, k => AttemptResult(200, None));
    EveryLiveNotificationCanSucceed(s, env);
    steps, t :| CalmRun(s, steps, t, env) &&
      forall n :: n in s.db.notifications && s.db.notifications[n].status.Live() ==>
        n in t.db.notifications && t.db.notifications[n].status.Succeeded?;
    CalmIsRun(s, steps, t, env);
  }

  /**
   * A notification can still be finished exactly when it is not stuck: not
   * delivering, or delivering and owned with the current attempt count.
   */
  lemma FinishableIffNotStuck(s: State, nid: Uuid)
    requires Reachable(s) && nid in s.db.notifications && Room(s.db.outbox.Keys, 1)
    ensures CanFinish(s, nid) <==> !Stuck(s, nid)
  {
    if Stuck(s, nid) {
      if CanFinish(s, nid) {
        ReachableShape(s);
        var steps, t :| Run(s, steps, t) && nid in t.db.notifications && t.db.notifications[nid].status.Terminal();
        StuckForever(s, steps, t, nid);
      }
    } else if s.db.notifications[nid].status.Terminal() {
      assert Run(s, [], s);
    } else {
      var before, u := [], s;
      if s.db.notifications[nid].status.Delivering? {
        before, u := OwnedCanResolve(s, nid);
        ReachableRun(s, before, u);
      } else {
        assert Run(s, before, u);
      }
      FinishAfter(s, before, u, nid);
    }
  }

  lemma FinishAfter(s: State, before: seq<Step>, u: State, nid: Uuid)
    requires Run(s, before, u) && Reachable(u)
    requires nid in u.db.notifications && !u.db.notifications[nid].status.Delivering?
    ensures CanFinish(s, nid)
  {
    if u.db.notifications[nid].status.Live() {
      var steps, t := LiveCanFinish(u, nid);
      RunConcat(s, before, u, steps, t);
    }
  }

  // ----- such notifications occur

  const QUIET_ENV := Env(0, "relay", 50, 0, 10, 0, k => AttemptResult(200, None))

  /** One notification, and its message published but not yet read. */
  lemma FirstMessagePublished() returns (s: State)
    ensures Reachable(s) && s.db.notifications == map[7 := Notification(Pending, 0, 5, "", None)]
    ensures s.db.outbox.Keys == {9} && s.policy == DEFAULT_RETRY_POLICY
    ensures s.workers == map[] && s.pel == map[] && s.cursor == 0 < |s.stream|
  {
    var s0 := Initial(0, DEFAULT_RETRY_POLICY);
    assert Run(s0, [], s0);
    ReachableStep(s0, Create(7, 9, 5));
    s := WaitAndPublish(Apply(s0, Create(7, 9, 5)), QUIET_ENV);
    var i := LiveHasEntry(s, 7);
  }

  /** One notification, published, and its message handed to worker 0. */
  lemma FirstMessageRead() returns (s: State)
    ensures Reachable(s) && s.db.notifications == map[7 := Notification(Pending, 0, 5, "", None)]
    ensures s.workers.Keys == {0} && AtMessage(s, 0, 7)
    ensures s.db.outbox.Keys == {9} && s.policy == DEFAULT_RETRY_POLICY
    ensures WorkerOf(s, 0).batch[0] in s.pel && s.pel[WorkerOf(s, 0).batch[0]].since == s.now
  {
    var s0 := FirstMessagePublished();
    CalmRead(s0, QUIET_ENV);
    s := DoRead(s0, 0, 10);
    ReachableCalmly(s0, s, QUIET_ENV);
    assert Current(s, 0) == s.stream[0];
    OnlyMessage(s, 0);
  }

  /** With one notification, every message is for it. */
  lemma OnlyMessage(s: State, w: nat)
    requires Reachable(s) && s.db.notifications.Keys == {7} && Busy(s, w) && WorkerOf(s, w).phase.Idle?
    ensures AtMessage(s, w, 7)
  {
    ReachableFitsAll(s);
    assert Current(s, w).event.nid in s.db.notifications.Keys;
    assert Names(Current(s, w).values, Current(s, w).event.nid);
  }

  lemma ReachableFitsAll(s: State)
    requires Reachable(s)
    ensures Readable(s) && s.cursor <= |s.stream|
  {
    assert AllOk(QUIET_ENV);
    ReachableFits(s, QUIET_ENV);
  }

  /** A worker crash between MarkDelivering and the record strands a notification that was not stuck before. */
  lemma CrashStrands()
    ensures exists s, w, nid: Uuid ::
              Reachable(s) && !Stuck(s, nid) && Stuck(Apply(s, WorkerCrash(w)), nid)
  {
    var s := FirstMessageRead();
    var t := LoadAndMark(s, QUIET_ENV, 7);
    ReachableCalmly(s, t, QUIET_ENV);
    assert Owned(t, 7) by {
      assert FlownTask(t.workers[0]) == Some(Task(7, Pending, 0, 5));
    }
    var u := Apply(t, WorkerCrash(0));
    assert u.db == t.db && u.workers == t.workers[0 := IDLE_WORKER];
    assert u.workers.Keys == {0};
    assert Stuck(u, 7);
  }
}

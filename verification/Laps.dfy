/**
 * What EVERY undisturbed run does, however relay and worker interleave, wherever
 * claims and pages are cut, whatever row ids are drawn and whatever the
 * dispatcher answers.
 */
module Laps {
  import opened Common
  import opened Uuids
  import opened Delivery
  import opened Tables
  import opened Pipeline
  import opened PipelineShape
  import opened PipelineRefinement
  import opened NoLostWork
  import opened Potential
  import opened Calm
  import opened Guarantees

  // ----- what an undisturbed run from s has done by t

  /** If the notification was live, it has been attempted since. */
  predicate Visited(s: State, t: State, n: Uuid) {
    n in s.db.notifications && n in t.db.notifications && s.db.notifications[n].status.Live() ==>
      s.db.notifications[n].attemptCount < t.db.notifications[n].attemptCount
  }

  /** The snapshot a worker acts on is the notification's current state. */
  ghost predicate UpToDate(notifications: map<Uuid, Notification>, worker: Worker, env: Env) {
    match worker.phase
    case Loaded(task) =>
      task.id in notifications && task.attempt == notifications[task.id].attemptCount
    case Marked(task) =>
      && task.id in notifications && task.attempt == notifications[task.id].attemptCount
      && notifications[task.id].status.Delivering?
    case Concluded(task, conclusion, _) =>
      && task.id in notifications && task.attempt == notifications[task.id].attemptCount
      && notifications[task.id].status.Delivering?
      && (AllOk(env) ==> conclusion.Success?)
    case _ => true
  }

  /** A notification is as it was, or was live and is in flight, or was live and has been attempted. */
  ghost predicate RowDuring(a: Notification, b: Notification, flying: bool, env: Env) {
    || (!flying && b == a)
    || (flying && a.status.Live() && b == a.(status := Delivering, nextAttemptAt := None))
    || (a.status.Live() && a.attemptCount < b.attemptCount && b.maxAttempts == a.maxAttempts &&
        (b.status.Delivering? ==> flying) && (AllOk(env) ==> b.status.Succeeded?))
  }

  ghost predicate RowsDuring(before: map<Uuid, Notification>, after: map<Uuid, Notification>, flight: Option<Uuid>, env: Env) {
    && after.Keys == before.Keys
    && forall n :: n in before ==> n in after && RowDuring(before[n], after[n], flight == Some(n), env)
  }

  /** Deliver calls already paid for by a recorded attempt. */
  function Spent(log: seq<LogItem>, worker: Worker): int {
    Dispatched(log) - if worker.phase.Concluded? then 1 else 0
  }

  predicate SettledVisited(s: State, t: State, w: nat) {
    WorkerOf(t, w).phase.Settled? && Busy(t, w) ==> Visited(s, t, Current(t, w).event.nid)
  }

  /** Only an attempt gives a notification a newer outbox row. */
  predicate NewestDuring(s: State, t: State) {
    forall n :: n in s.db.notifications && n in t.db.notifications &&
                t.db.notifications[n].attemptCount == s.db.notifications[n].attemptCount ==>
      Newest(t.log, n) == Newest(s.log, n)
  }

  ghost predicate During(s: State, t: State, env: Env) {
    var worker := WorkerOf(t, env.worker);
    && RowsDuring(s.db.notifications, t.db.notifications, Flight(worker), env)
    && UpToDate(t.db.notifications, worker, env)
    && SettledVisited(s, t, env.worker)
    && NewestDuring(s, t)
    && Spent(t.log, worker) + Total(t.db.notifications) <= Dispatched(s.log) + Total(s.db.notifications)
  }

  lemma DuringStarts(s: State, env: Env)
    requires WorkerIdle(s, env)
    ensures During(s, s, env)
  {
  }

  /** What is not live any more and not in flight has been attempted, if it was live. */
  lemma NotLiveVisited(s: State, t: State, n: Uuid, flight: Option<Uuid>, env: Env)
    requires RowsDuring(s.db.notifications, t.db.notifications, flight, env) && flight != Some(n)
    requires n in t.db.notifications && !t.db.notifications[n].status.Live()
    ensures Visited(s, t, n)
  {
    if n in s.db.notifications {
      assert RowDuring(s.db.notifications[n], t.db.notifications[n], false, env);
    }
  }

  // ----- step by step

  predicate Outside(step: Step) {
    step.Tick? || step.Append? || step.Claim? || step.MarkPublished?
  }

  lemma OutsideMoves(t: State, step: Step)
    requires Enabled(t, step) && Outside(step)
    ensures var u := Apply(t, step);
            && u.db.notifications == t.db.notifications && u.workers == t.workers
            && u.cursor == t.cursor && u.pel == t.pel && t.now <= u.now && t.stream <= u.stream
            && (u.log == t.log || (|u.log| == |t.log| + 1 && u.log == t.log + [u.log[|t.log|]] &&
                                   (u.log[|t.log|].WereClaimed? || u.log[|t.log|].WasPublished?)))
  {
  }

  /** Items that insert no outbox row leave the newest rows as they are. */
  lemma ItemKeepsNewest(s: State, t: State, u: State, item: LogItem)
    requires NewestDuring(s, t) && u.log == t.log + [item]
    requires !item.WasCreated? && !item.WasReset? && !item.WasRecorded?
    requires forall n :: n in u.db.notifications ==>
               n in t.db.notifications && u.db.notifications[n].attemptCount == t.db.notifications[n].attemptCount
    ensures NewestDuring(s, u)
  {
    forall n {
      LogAppend(t.log, item, n);
    }
  }

  lemma OutsideKeepsDuring(s: State, t: State, step: Step, env: Env)
    requires During(s, t, env) && WorkersOk(t) && Enabled(t, step) && Outside(step)
    ensures During(s, Apply(t, step), env)
  {
    OutsideMoves(t, step);
    var u := Apply(t, step);
    if u.log != t.log {
      DispatchedAppend(t.log, u.log[|t.log|]);
      ItemKeepsNewest(s, t, u, u.log[|t.log|]);
    }
    CurrentStays(t, u, env.worker);
  }

  lemma CurrentStays(t: State, u: State, w: nat)
    requires WorkersOk(t) && u.workers == t.workers && t.stream <= u.stream
    ensures Busy(u, w) <==> Busy(t, w)
    ensures Busy(t, w) ==> Current(u, w) == Current(t, w)
  {
    WorkerOfFine(t, w);
  }

  /** With tables and log unchanged and nothing in flight, it is enough to look at the worker. */
  lemma TurnKeepsDuring(s: State, t: State, u: State, env: Env)
    requires During(s, t, env) && u.db == t.db && u.log == t.log
    requires Flight(WorkerOf(t, env.worker)).None? && Flight(WorkerOf(u, env.worker)).None?
    requires UpToDate(u.db.notifications, WorkerOf(u, env.worker), env) && SettledVisited(s, u, env.worker)
    ensures During(s, u, env)
  {
  }

  lemma FetchKeepsDuring(s: State, t: State, step: Step, env: Env)
    requires During(s, t, env) && WorkersOk(t) && Enabled(t, step) && Allowed(t, step, env)
    requires step.Read? || step.AutoClaim? || step.Ack?
    ensures During(s, Apply(t, step), env)
  {
    WorkerOfFine(t, env.worker);
    TurnKeepsDuring(s, t, Apply(t, step), env);
  }

  lemma LoadKeepsDuring(s: State, t: State, env: Env)
    requires During(s, t, env) && Readable(t) && Enabled(t, Load(env.worker))
    ensures During(s, DoLoad(t, env.worker), env)
    ensures DoLoad(t, env.worker) == Load1(t, env.worker, Current(t, env.worker).event.nid)
  {
    assert Names(Current(t, env.worker).values, Current(t, env.worker).event.nid);
    var nid := Current(t, env.worker).event.nid;
    if t.db.notifications[nid].status.Terminal() {
      NotLiveVisited(s, t, nid, None, env);
    }
    TurnKeepsDuring(s, t, DoLoad(t, env.worker), env);
  }

  /** A mark that succeeds puts a live notification in flight. */
  lemma MarkedRows(before: map<Uuid, Notification>, after: map<Uuid, Notification>, nid: Uuid, env: Env)
    requires RowsDuring(before, after, None, env) && nid in after && after[nid].status.Live()
    ensures var marked := after[nid].(status := Delivering, nextAttemptAt := None);
            && RowsDuring(before, after[nid := marked], Some(nid), env)
            && Total(after[nid := marked]) == Total(after)
  {
    var marked := after[nid].(status := Delivering, nextAttemptAt := None);
    TotalUpdate(after, nid, marked);
    assert nid in before.Keys && RowDuring(before[nid], after[nid], false, env);
    forall n | n in before
      ensures n in after[nid := marked] && RowDuring(before[n], after[nid := marked][n], n == nid, env)
    {
      assert RowDuring(before[n], after[n], false, env);
    }
  }

  lemma MarkTakesOff(t: State, w: nat)
    requires Enabled(t, MarkDelivering(w)) && MarkDeliveringTx(t.db, WorkerOf(t, w).phase.task.id).err.None?
    ensures var u, task := DoMarkDelivering(t, w), WorkerOf(t, w).phase.task;
            && task.id in t.db.notifications && t.db.notifications[task.id].status.Live()
            && u.db.notifications ==
               t.db.notifications[task.id := t.db.notifications[task.id].(status := Delivering, nextAttemptAt := None)]
            && u.log == t.log + [WasMarked(task.id)]
            && WorkerOf(u, w) == WorkerOf(t, w).(phase := Marked(task))
  {
  }

  /** What a committed mark does, without the transaction that did it. */
  lemma TakeOffKeepsDuring(s: State, t: State, u: State, task: Task, env: Env)
    requires During(s, t, env) && WorkerOf(t, env.worker).phase == Loaded(task)
    requires task.id in t.db.notifications && t.db.notifications[task.id].status.Live()
    requires u.db.notifications ==
             t.db.notifications[task.id := t.db.notifications[task.id].(status := Delivering, nextAttemptAt := None)]
    requires u.log == t.log + [WasMarked(task.id)]
    requires WorkerOf(u, env.worker) == WorkerOf(t, env.worker).(phase := Marked(task))
    ensures During(s, u, env)
  {
    MarkedRows(s.db.notifications, t.db.notifications, task.id, env);
    DispatchedAppend(t.log, WasMarked(task.id));
    ItemKeepsNewest(s, t, u, WasMarked(task.id));
  }

  lemma MarkKeepsDuring(s: State, t: State, env: Env)
    requires During(s, t, env) && Enabled(t, MarkDelivering(env.worker))
    ensures During(s, DoMarkDelivering(t, env.worker), env)
  {
    var u := DoMarkDelivering(t, env.worker);
    var task := WorkerOf(t, env.worker).phase.task;
    if MarkDeliveringTx(t.db, task.id).err.Some? {
      TurnKeepsDuring(s, t, u, env);
    } else {
      MarkTakesOff(t, env.worker);
      TakeOffKeepsDuring(s, t, u, task, env);
    }
  }

  lemma DeliverKeepsDuring(s: State, t: State, env: Env)
    requires During(s, t, env) && Enabled(t, Deliver(env.worker, env.answer(Dispatched(t.log))))
    ensures During(s, DoDeliver(t, env.worker, env.answer(Dispatched(t.log))), env)
  {
    var task := WorkerOf(t, env.worker).phase.task;
    var result := env.answer(Dispatched(t.log));
    ConclusionSound(t.policy, task, result, t.now);
    DispatchedAppend(t.log, WasDispatched(task.id, result));
    ItemKeepsNewest(s, t, DoDeliver(t, env.worker, result), WasDispatched(task.id, result));
  }

  /** A record lands its flight. */
  lemma RecordedRows(before: map<Uuid, Notification>, after: map<Uuid, Notification>, nid: Uuid, n: Notification, env: Env)
    requires RowsDuring(before, after, Some(nid), env) && nid in after && after[nid].status.Delivering?
    requires n.attemptCount == after[nid].attemptCount + 1 && n.maxAttempts == after[nid].maxAttempts
    requires !n.status.Delivering? && (AllOk(env) ==> n.status.Succeeded?)
    requires after[nid].attemptCount < after[nid].maxAttempts
    ensures RowsDuring(before, after[nid := n], None, env)
    ensures Total(after[nid := n]) + 1 <= Total(after)
    ensures nid in before && (before[nid].status.Live() ==> before[nid].attemptCount < n.attemptCount)
  {
    TotalUpdate(after, nid, n);
    assert nid in before.Keys && RowDuring(before[nid], after[nid], true, env);
    forall m | m in before
      ensures m in after[nid := n] && RowDuring(before[m], after[nid := n][m], false, env)
    {
      assert RowDuring(before[m], after[m], m == nid, env);
    }
  }

  /** In an undisturbed run every record commits. */
  lemma RecordCommitsNow(t: State, row: Uuid, env: Env)
    requires WorkersOk(t) && UpToDate(t.db.notifications, WorkerOf(t, env.worker), env)
    requires Enabled(t, Record(env.worker, row))
    ensures var phase := WorkerOf(t, env.worker).phase;
            var tx := RecordTx(t.db, phase.task.id, phase.conclusion, row, t.now);
            && tx.err.None? && phase.task.id in t.db.notifications && phase.task.id in tx.db.notifications
            && Current(t, env.worker).event.nid == phase.task.id
            && var before, after := t.db.notifications[phase.task.id], tx.db.notifications[phase.task.id];
               && tx.db.notifications == t.db.notifications[phase.task.id := after]
               && after.attemptCount == before.attemptCount + 1 && after.maxAttempts == before.maxAttempts
               && !after.status.Delivering? && (phase.conclusion.Success? ==> after.status.Succeeded?)
  {
    WorkerOfFine(t, env.worker);
  }

  lemma RecordLands(t: State, w: nat, row: Uuid)
    requires Enabled(t, Record(w, row))
    requires var phase := WorkerOf(t, w).phase;
             RecordTx(t.db, phase.task.id, phase.conclusion, row, t.now).err.None?
    ensures var u, phase := DoRecord(t, w, row), WorkerOf(t, w).phase;
            && u.db == RecordTx(t.db, phase.task.id, phase.conclusion, row, t.now).db
            && WorkerOf(u, w) == WorkerOf(t, w).(phase := Settled) && u.stream == t.stream
            && |u.log| == |t.log| + 1 && u.log == t.log + [u.log[|t.log|]]
            && u.log[|t.log|].WasRecorded? && u.log[|t.log|].nid == phase.task.id
  {
  }

  lemma RecordKeepsDuring(s: State, t: State, row: Uuid, env: Env)
    requires During(s, t, env) && WorkersOk(t) && Affordable(t.db.notifications)
    requires Enabled(t, Record(env.worker, row))
    ensures During(s, DoRecord(t, env.worker, row), env)
  {
    RecordCommitsNow(t, row, env);
    RecordLands(t, env.worker, row);
    LandingKeepsDuring(s, t, DoRecord(t, env.worker, row), WorkerOf(t, env.worker).phase.task.id, env);
  }

  /** What a committed record does, without the transaction that did it. */
  lemma LandingKeepsDuring(s: State, t: State, u: State, nid: Uuid, env: Env)
    requires During(s, t, env) && Affordable(t.db.notifications) && Busy(t, env.worker)
    requires WorkerOf(t, env.worker).phase.Concluded? && WorkerOf(t, env.worker).phase.task.id == nid
    requires Current(t, env.worker).event.nid == nid && nid in t.db.notifications && nid in u.db.notifications
    requires u.db.notifications == t.db.notifications[nid := u.db.notifications[nid]]
    requires var before, after := t.db.notifications[nid], u.db.notifications[nid];
             && after.attemptCount == before.attemptCount + 1 && after.maxAttempts == before.maxAttempts
             && !after.status.Delivering? && (WorkerOf(t, env.worker).phase.conclusion.Success? ==> after.status.Succeeded?)
    requires WorkerOf(u, env.worker) == WorkerOf(t, env.worker).(phase := Settled) && u.stream == t.stream
    requires |u.log| == |t.log| + 1 && u.log == t.log + [u.log[|t.log|]]
    requires u.log[|t.log|].WasRecorded? && u.log[|t.log|].nid == nid
    ensures During(s, u, env)
  {
    RecordedRows(s.db.notifications, t.db.notifications, nid, u.db.notifications[nid], env);
    DispatchedAppend(t.log, u.log[|t.log|]);
    RecordKeepsNewest(s, t, u, u.log[|t.log|], nid, env);
  }

  lemma RecordKeepsNewest(s: State, t: State, u: State, item: LogItem, nid: Uuid, env: Env)
    requires RowsDuring(s.db.notifications, t.db.notifications, Some(nid), env) && NewestDuring(s, t)
    requires nid in t.db.notifications && nid in u.db.notifications
    requires u.db.notifications == t.db.notifications[nid := u.db.notifications[nid]]
    requires u.db.notifications[nid].attemptCount == t.db.notifications[nid].attemptCount + 1
    requires u.log == t.log + [item] && item.WasRecorded? && item.nid == nid
    ensures NewestDuring(s, u)
  {
    forall n | n in s.db.notifications && n in u.db.notifications &&
               u.db.notifications[n].attemptCount == s.db.notifications[n].attemptCount
      ensures Newest(u.log, n) == Newest(s.log, n)
    {
      LogAppend(t.log, item, n);
      assert RowDuring(s.db.notifications[n], t.db.notifications[n], n == nid, env);
    }
  }

  lemma StepKeepsDuring(s: State, t: State, step: Step, env: Env)
    requires During(s, t, env) && WorkersOk(t) && Readable(t) && Affordable(t.db.notifications)
    requires Enabled(t, step) && Allowed(t, step, env)
    ensures During(s, Apply(t, step), env)
  {
    if Outside(step) {
      OutsideKeepsDuring(s, t, step, env);
    } else if step.Read? || step.AutoClaim? || step.Ack? {
      FetchKeepsDuring(s, t, step, env);
    } else {
      match step {
        case Load(_) => LoadKeepsDuring(s, t, env);
        case MarkDelivering(_) => MarkKeepsDuring(s, t, env);
        case Deliver(_, _) => DeliverKeepsDuring(s, t, env);
        case Record(_, row) => RecordKeepsDuring(s, t, row, env);
      }
    }
  }

  // ----- no entry is passed over

  /** The entry's notification has been attempted if it was live, or the worker will still come to the entry. */
  predicate Pursued(s: State, t: State, i: nat, env: Env)
    requires i < |t.stream|
  {
    var worker := WorkerOf(t, env.worker);
    || Visited(s, t, t.stream[i].event.nid)
    || i >= t.cursor
    || i in worker.batch
    || (worker.scan > 0 && i >= worker.scan && IdleEnough(t, i, env))
  }

  /** Attempt counts never fall in an undisturbed run. */
  lemma VisitedStill(s: State, t: State, u: State, n: Uuid)
    requires Visited(s, t, n)
    requires n in u.db.notifications ==>
               n in t.db.notifications && t.db.notifications[n].attemptCount <= u.db.notifications[n].attemptCount
    ensures Visited(s, u, n)
  {
  }

  lemma CountsGrow(t: State, step: Step, env: Env)
    requires Enabled(t, step) && Allowed(t, step, env)
    ensures forall n :: n in Apply(t, step).db.notifications ==>
              && n in t.db.notifications
              && t.db.notifications[n].attemptCount <= Apply(t, step).db.notifications[n].attemptCount
    ensures t.stream <= Apply(t, step).stream
  {
  }

  /** Steps that leave the group's books and the worker's batch alone. */
  lemma BatchKeepsPursuit(s: State, t: State, u: State, i: nat, env: Env)
    requires i < |t.stream| && t.stream <= u.stream && Pursued(s, t, i, env)
    requires Visited(s, t, t.stream[i].event.nid) ==> Visited(s, u, t.stream[i].event.nid)
    requires u.cursor == t.cursor && u.pel == t.pel && t.now <= u.now
    requires WorkerOf(u, env.worker).batch == WorkerOf(t, env.worker).batch
    requires WorkerOf(u, env.worker).scan == WorkerOf(t, env.worker).scan
    ensures Pursued(s, u, i, env)
  {
  }

  lemma FetchKeepsPursuit(s: State, t: State, step: Step, i: nat, env: Env)
    requires i < |t.stream| && Pursued(s, t, i, env)
    requires Enabled(t, step) && Allowed(t, step, env) && (step.Read? || step.AutoClaim?)
    ensures Pursued(s, Apply(t, step), i, env)
  {
  }

  /** Moving on from a message that has been seen to. */
  lemma SkipKeepsPursuit(s: State, t: State, u: State, i: nat, env: Env)
    requires i < |t.stream| && u.stream == t.stream && Pursued(s, t, i, env) && Busy(t, env.worker)
    requires Visited(s, t, t.stream[i].event.nid) ==> Visited(s, u, t.stream[i].event.nid)
    requires u.cursor == t.cursor && t.now == u.now
    requires forall k :: k in t.pel && k != WorkerOf(t, env.worker).batch[0] ==> k in u.pel && u.pel[k] == t.pel[k]
    requires WorkerOf(u, env.worker) == NextMessage(WorkerOf(t, env.worker))
    requires Visited(s, u, Current(t, env.worker).event.nid)
    ensures Pursued(s, u, i, env)
  {
    var batch := WorkerOf(t, env.worker).batch;
    assert batch == [batch[0]] + batch[1..];
  }

  lemma MarkKeepsPursuit(s: State, t: State, i: nat, env: Env)
    requires i < |t.stream| && Pursued(s, t, i, env) && During(s, t, env) && WorkersOk(t)
    requires Enabled(t, MarkDelivering(env.worker))
    requires Visited(s, t, t.stream[i].event.nid) ==> Visited(s, DoMarkDelivering(t, env.worker), t.stream[i].event.nid)
    ensures Pursued(s, DoMarkDelivering(t, env.worker), i, env)
  {
    var u := DoMarkDelivering(t, env.worker);
    WorkerOfFine(t, env.worker);
    var nid := WorkerOf(t, env.worker).phase.task.id;
    if MarkDeliveringTx(t.db, nid).err.Some? {
      NotLiveVisited(s, t, nid, None, env);
      SkipKeepsPursuit(s, t, u, i, env);
    } else {
      BatchKeepsPursuit(s, t, u, i, env);
    }
  }

  /** Loading, delivering and recording keep the batch. */
  lemma PhaseMoves(s: State, t: State, step: Step, env: Env)
    requires During(s, t, env) && WorkersOk(t) && Readable(t) && Enabled(t, step) && Allowed(t, step, env)
    requires step.Load? || step.Deliver? || step.Record?
    ensures var u := Apply(t, step);
            && u.cursor == t.cursor && u.pel == t.pel && t.now == u.now
            && WorkerOf(u, env.worker).batch == WorkerOf(t, env.worker).batch
            && WorkerOf(u, env.worker).scan == WorkerOf(t, env.worker).scan
  {
    if step.Load? {
      LoadKeepsDuring(s, t, env);
    } else if step.Record? {
      RecordCommitsNow(t, step.row, env);
    }
  }

  lemma AckKeepsPursuit(s: State, t: State, i: nat, env: Env)
    requires i < |t.stream| && Pursued(s, t, i, env) && SettledVisited(s, t, env.worker)
    requires Enabled(t, Ack(env.worker))
    ensures Pursued(s, DoAck(t, env.worker), i, env)
  {
    SkipKeepsPursuit(s, t, DoAck(t, env.worker), i, env);
  }

  lemma StepKeepsPursuit(s: State, t: State, step: Step, i: nat, env: Env)
    requires i < |t.stream| && Pursued(s, t, i, env)
    requires During(s, t, env) && WorkersOk(t) && Readable(t)
    requires Enabled(t, step) && Allowed(t, step, env)
    ensures i < |Apply(t, step).stream| && Pursued(s, Apply(t, step), i, env)
  {
    CountsGrow(t, step, env);
    if Visited(s, t, t.stream[i].event.nid) {
      VisitedStill(s, t, Apply(t, step), t.stream[i].event.nid);
    }
    if Outside(step) {
      OutsideMoves(t, step);
      BatchKeepsPursuit(s, t, Apply(t, step), i, env);
    } else if step.Read? || step.AutoClaim? {
      FetchKeepsPursuit(s, t, step, i, env);
    } else if step.MarkDelivering? {
      MarkKeepsPursuit(s, t, i, env);
    } else if step.Ack? {
      AckKeepsPursuit(s, t, i, env);
    } else {
      PhaseMoves(s, t, step, env);
      BatchKeepsPursuit(s, t, Apply(t, step), i, env);
    }
  }

  // ----- whole runs

  lemma ReachableAffords(s: State)
    requires Reachable(s)
    ensures Affordable(s.db.notifications)
  {
    forall n | n in s.db.notifications && !s.db.notifications[n].status.Terminal()
      ensures 0 <= s.db.notifications[n].attemptCount < s.db.notifications[n].maxAttempts
    {
      AttemptBound(s, n);
    }
  }

  lemma ReachableReads(s: State)
    requires Reachable(s)
    ensures WorkersOk(s) && Readable(s)
  {
    ReachableLossless(s);
    ShapeIsReadable(s);
  }

  lemma {:induction false} RunKeepsDuring(s: State, t: State, steps: seq<Step>, u: State, env: Env)
    requires Reachable(t) && During(s, t, env) && CalmRun(t, steps, u, env)
    ensures Reachable(u) && During(s, u, env)
    decreases |steps|
  {
    if steps != [] {
      ReachableReads(t);
      ReachableAffords(t);
      StepKeepsDuring(s, t, steps[0], env);
      ReachableStep(t, steps[0]);
      RunKeepsDuring(s, Apply(t, steps[0]), steps[1..], u, env);
    }
  }

  lemma {:induction false} RunKeepsPursuit(s: State, t: State, steps: seq<Step>, u: State, i: nat, env: Env)
    requires Reachable(t) && During(s, t, env) && CalmRun(t, steps, u, env)
    requires i < |t.stream| && Pursued(s, t, i, env)
    ensures i < |u.stream| && u.stream[i] == t.stream[i] && Pursued(s, u, i, env)
    decreases |steps|
  {
    if steps != [] {
      ReachableReads(t);
      ReachableAffords(t);
      StepKeepsDuring(s, t, steps[0], env);
      StepKeepsPursuit(s, t, steps[0], i, env);
      CountsGrow(t, steps[0], env);
      ReachableStep(t, steps[0]);
      RunKeepsPursuit(s, Apply(t, steps[0]), steps[1..], u, i, env);
    }
  }

  /**
   * At every moment of every undisturbed run that starts with the worker idle,
   * the Deliver calls made so far are paid for by the attempts that were left.
   */
  lemma DispatchesArePaidFor(s: State, steps: seq<Step>, t: State, env: Env)
    requires Reachable(s) && WorkerIdle(s, env) && CalmRun(s, steps, t, env)
    ensures Dispatched(t.log) <= Dispatched(s.log) + Total(s.db.notifications)
  {
    DuringStarts(s, env);
    RunKeepsDuring(s, s, steps, t, env);
    var worker := WorkerOf(t, env.worker);
    if worker.phase.Concluded? {
      ReachableAffords(t);
      TotalSplit(t.db.notifications, worker.phase.task.id);
    }
  }

  /**
   * One lap: any undisturbed stretch with a moment u at which all rows it began
   * with are published, all pending entries are idle enough and the idle worker
   * starts an auto-claim scan; and which ends, the worker idle again, once all
   * entries of that moment have been read.
   */
  ghost predicate Lap(s: State, before: seq<Step>, u: State, after: seq<Step>, t: State, env: Env) {
    && CalmRun(s, before, u, env) && CalmRun(u, after, t, env)
    && (forall row :: row in s.db.outbox ==> row in u.db.outbox && u.db.outbox[row].status.OutboxPublished?)
    && (forall i :: i in u.pel ==> IdleEnough(u, i, env))
    && WorkerIdle(u, env) && after != [] && after[0].AutoClaim?
    && WorkerIdle(t, env) && t.cursor >= |u.stream|
  }

  /** With its newest row published, a live notification has an entry still to be read or reclaimed. */
  lemma NewestHasEntry(s: State, n: Uuid) returns (i: nat)
    requires Reachable(s) && n in s.db.notifications && s.db.notifications[n].status.Live()
    requires Newest(s.log, n).Some? && Newest(s.log, n).value in s.db.outbox
    requires s.db.outbox[Newest(s.log, n).value].status.OutboxPublished?
    ensures i < |s.stream| && s.stream[i].event.nid == n
    ensures i >= s.cursor || i in s.pel
  {
    ReachableLossless(s);
    i := s.db.outbox[Newest(s.log, n).value].streamId.value;
    assert EntryOk(s.db.outbox, s.stream[i], s.now);
    assert i !in s.acked;
  }

  lemma NewestIsKnown(s: State, n: Uuid)
    requires Reachable(s) && n in s.db.notifications
    ensures Newest(s.log, n).Some? && Newest(s.log, n).value in s.db.outbox
  {
    ReachableLossless(s);
  }

  /** At the scan's start: a notification not attempted yet has an entry the worker is bound to come to. */
  lemma ScanPursues(s: State, u: State, step: Step, n: Uuid, env: Env) returns (i: nat)
    requires Reachable(s) && Reachable(u) && During(s, u, env) && WorkerIdle(u, env)
    requires forall row :: row in s.db.outbox ==> row in u.db.outbox && u.db.outbox[row].status.OutboxPublished?
    requires forall i :: i in u.pel ==> IdleEnough(u, i, env)
    requires step.AutoClaim? && Enabled(u, step) && Allowed(u, step, env)
    requires n in s.db.notifications && n in u.db.notifications && !Visited(s, u, n)
    ensures i < |u.stream| && u.stream[i].event.nid == n && Pursued(s, Apply(u, step), i, env)
    ensures Apply(u, step).stream == u.stream
  {
    assert RowDuring(s.db.notifications[n], u.db.notifications[n], false, env);
    NewestIsKnown(s, n);
    i := NewestHasEntry(u, n);
    assert i in u.pel ==> IdleEnough(u, i, env);
  }

  /** Every lap attempts every live notification. */
  lemma LapVisits(s: State, before: seq<Step>, u: State, after: seq<Step>, t: State, n: Uuid, env: Env)
    requires Reachable(s) && WorkerIdle(s, env) && Lap(s, before, u, after, t, env)
    requires n in s.db.notifications
    ensures Reachable(t) && During(s, t, env) && Visited(s, t, n)
  {
    DuringStarts(s, env);
    RunKeepsDuring(s, s, before, u, env);
    RunKeepsDuring(s, u, after, t, env);
    assert n in u.db.notifications.Keys && n in t.db.notifications.Keys;
    if Visited(s, u, n) {
      RunKeepsVisit(s, u, after, t, n, env);
    } else {
      var i := ScanPursues(s, u, after[0], n, env);
      ReachableReads(u);
      ReachableAffords(u);
      StepKeepsDuring(s, u, after[0], env);
      ReachableStep(u, after[0]);
      RunKeepsPursuit(s, Apply(u, after[0]), after[1..], t, i, env);
    }
  }

  lemma {:induction false} RunKeepsVisit(s: State, t: State, steps: seq<Step>, u: State, n: Uuid, env: Env)
    requires CalmRun(t, steps, u, env) && Visited(s, t, n)
    ensures Visited(s, u, n)
    decreases |steps|
  {
    if steps != [] {
      CountsGrow(t, steps[0], env);
      VisitedStill(s, t, Apply(t, steps[0]), n);
      RunKeepsVisit(s, Apply(t, steps[0]), steps[1..], u, n, env);
    }
  }
}

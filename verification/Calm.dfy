/**
 * Calm continuations: one relay and one worker run undisturbed, with their
 * configured batch sizes, while the clock ticks and the dispatcher answers as
 * it pleases. This file has the worker's half: handling a batch of messages.
 */
module Calm {
  import opened Common
  import opened Uuids
  import opened Message
  import opened Retry
  import opened Delivery
  import opened Tables
  import opened Pipeline
  import opened PipelineShape
  import opened Processing
  import opened Potential

  /** Who runs, how configured; `answer(k)` is the dispatcher's answer to the run's k-th Deliver call. */
  datatype Env = Env(
    relay: nat, locker: string, batchSize: int,
    worker: nat, readCount: nat, minIdle: Time,
    answer: nat -> AttemptResult)

  function Dispatched(log: seq<LogItem>): nat {
    if log == [] then 0
    else Dispatched(log[..|log| - 1]) + if log[|log| - 1].WasDispatched? then 1 else 0
  }

  lemma DispatchedAppend(log: seq<LogItem>, item: LogItem)
    ensures Dispatched(log + [item]) == Dispatched(log) + if item.WasDispatched? then 1 else 0
  {
    assert (log + [item])[..|log|] == log;
  }

  /** No crash, no error, no row locked elsewhere, answers as given; pages may end anywhere. */
  predicate Allowed(s: State, step: Step, env: Env) {
    match step
    case Tick(_) => true
    case Claim(r, locker, limit, locked, _) =>
      r == env.relay && locker == env.locker && limit == env.batchSize && locked == {}
    case Append(r) => r == env.relay
    case MarkPublished(r) => r == env.relay
    case Read(w, count) => w == env.worker && count == env.readCount
    case AutoClaim(w, count, minIdle, _) => w == env.worker && count == env.readCount && minIdle == env.minIdle
    case Load(w) => w == env.worker
    case MarkDelivering(w) => w == env.worker
    case Deliver(w, result) => w == env.worker && result == env.answer(Dispatched(s.log))
    case Record(w, _) => w == env.worker
    case Ack(w) => w == env.worker
    case _ => false
  }

  ghost predicate CalmRun(s: State, steps: seq<Step>, t: State, env: Env)
    decreases |steps|
  {
    if steps == [] then t == s
    else
      && Enabled(s, steps[0])
      && Allowed(s, steps[0], env)
      && CalmRun(Apply(s, steps[0]), steps[1..], t, env)
  }

  ghost predicate Calmly(s: State, t: State, env: Env) {
    exists steps :: CalmRun(s, steps, t, env)
  }

  lemma {:induction false} CalmConcat(s: State, steps: seq<Step>, t: State, more: seq<Step>, u: State, env: Env)
    requires CalmRun(s, steps, t, env) && CalmRun(t, more, u, env)
    ensures CalmRun(s, steps + more, u, env)
    decreases |steps|
  {
    if steps == [] {
      assert steps + more == more;
    } else {
      assert (steps + more)[0] == steps[0] && (steps + more)[1..] == steps[1..] + more;
      CalmConcat(Apply(s, steps[0]), steps[1..], t, more, u, env);
    }
  }

  lemma CalmTrans(s: State, t: State, u: State, env: Env)
    requires Calmly(s, t, env) && Calmly(t, u, env)
    ensures Calmly(s, u, env)
  {
    var steps :| CalmRun(s, steps, t, env);
    var more :| CalmRun(t, more, u, env);
    CalmConcat(s, steps, t, more, u, env);
  }

  lemma CalmNone(s: State, env: Env)
    ensures Calmly(s, s, env)
  {
    assert CalmRun(s, [], s, env);
  }

  lemma CalmStep(s: State, step: Step, env: Env)
    requires Enabled(s, step) && Allowed(s, step, env)
    ensures Calmly(s, Apply(s, step), env)
  {
    assert CalmRun(Apply(s, step), [][..], Apply(s, step), env);
    assert CalmRun(s, [step], Apply(s, step), env);
  }

  // Each kind of step on its own, so that longer continuations need not look inside Apply.

  lemma CalmTick(s: State, d: nat, env: Env)
    ensures Calmly(s, s.(now := s.now + d), env)
  {
    CalmStep(s, Tick(d), env);
  }

  lemma CalmRead(s: State, env: Env)
    requires Enabled(s, Read(env.worker, env.readCount))
    ensures Calmly(s, DoRead(s, env.worker, env.readCount), env)
  {
    CalmStep(s, Read(env.worker, env.readCount), env);
  }

  lemma CalmMark(s: State, env: Env)
    requires Enabled(s, MarkDelivering(env.worker))
    ensures Calmly(s, DoMarkDelivering(s, env.worker), env)
  {
    CalmStep(s, MarkDelivering(env.worker), env);
  }

  lemma CalmDeliver(s: State, env: Env)
    requires Enabled(s, Deliver(env.worker, env.answer(Dispatched(s.log))))
    ensures Calmly(s, DoDeliver(s, env.worker, env.answer(Dispatched(s.log))), env)
  {
    CalmStep(s, Deliver(env.worker, env.answer(Dispatched(s.log))), env);
  }

  lemma CalmRecord(s: State, row: Uuid, env: Env)
    requires Enabled(s, Record(env.worker, row))
    ensures Calmly(s, DoRecord(s, env.worker, row), env)
  {
    CalmStep(s, Record(env.worker, row), env);
  }

  lemma CalmAck(s: State, env: Env)
    requires Enabled(s, Ack(env.worker))
    ensures Calmly(s, DoAck(s, env.worker), env)
  {
    CalmStep(s, Ack(env.worker), env);
  }

  lemma {:induction false} CalmIsRun(s: State, steps: seq<Step>, t: State, env: Env)
    requires CalmRun(s, steps, t, env)
    ensures Run(s, steps, t)
    decreases |steps|
  {
    if steps != [] {
      CalmIsRun(Apply(s, steps[0]), steps[1..], t, env);
    }
  }

  predicate WorkerIdle(s: State, env: Env) {
    WorkerOf(s, env.worker) == IDLE_WORKER
  }

  predicate RelayIdle(s: State, env: Env) {
    RelayOf(s, env.relay).batch == []
  }

  predicate IdleEnough(s: State, i: nat, env: Env) {
    i in s.pel && s.now - s.pel[i].since >= env.minIdle
  }

  // ----- how notifications evolve in a calm continuation

  ghost predicate AllOk(env: Env) {
    forall k :: env.answer(k).Succeeded()
  }

  ghost predicate NotificationEvolved(a: Notification, b: Notification, env: Env) {
    || b == a
    || (a.status.Live() && a.attemptCount < b.attemptCount && !b.status.Delivering? &&
        b.maxAttempts == a.maxAttempts && (AllOk(env) ==> b.status.Succeeded?))
  }

  /** Enough unused row ids for whatever the dispatcher may answer. */
  ghost predicate Fundable(s: State, env: Env) {
    AllOk(env) || Room(s.db.outbox.Keys, Total(s.db.notifications))
  }

  /** Every open notification still has budget. */
  predicate Affordable(notifications: map<Uuid, Notification>) {
    forall n :: n in notifications && !notifications[n].status.Terminal() ==>
      0 <= notifications[n].attemptCount < notifications[n].maxAttempts
  }

  /** Only live notifications move, each move is paid for by a dispatch, and budgets pay for dispatches. */
  ghost predicate Evolved(s: State, t: State, env: Env) {
    && t.db.notifications.Keys == s.db.notifications.Keys
    && (forall n :: n in s.db.notifications ==>
          NotificationEvolved(s.db.notifications[n], t.db.notifications[n], env))
    && Dispatched(s.log) <= Dispatched(t.log)
    && Dispatched(t.log) + Total(t.db.notifications) <= Dispatched(s.log) + Total(s.db.notifications)
    && (t.db.notifications != s.db.notifications ==> Dispatched(s.log) < Dispatched(t.log))
    && Fundable(t, env)
    && Affordable(t.db.notifications)
  }

  lemma EvolvedTrans(s: State, t: State, u: State, env: Env)
    requires Evolved(s, t, env) && Evolved(t, u, env)
    ensures Evolved(s, u, env)
  {
    forall n | n in s.db.notifications
      ensures NotificationEvolved(s.db.notifications[n], u.db.notifications[n], env)
    {
      assert NotificationEvolved(s.db.notifications[n], t.db.notifications[n], env);
      assert NotificationEvolved(t.db.notifications[n], u.db.notifications[n], env);
    }
  }

  // ----- handling one message

  /** Only the tables, the log, the pending list and worker w's own books moved. */
  predicate WorkerMoved(s: State, t: State, w: nat) {
    && t.now == s.now && t.policy == s.policy && t.stream == s.stream && t.cursor == s.cursor
    && t.relays == s.relays
    && w in t.workers && t.workers == s.workers[w := t.workers[w]]
  }

  predicate AtMessage(s: State, w: nat, nid: Uuid) {
    && Busy(s, w)
    && WorkerOf(s, w).phase.Idle?
    && ParseDeliveryMessage(Current(s, w).values).Good?
    && ParseDeliveryMessage(Current(s, w).values).value.nid == nid
    && nid in s.db.notifications
  }

  lemma CalmLoad(s: State, env: Env, nid: Uuid)
    requires AtMessage(s, env.worker, nid)
    ensures Calmly(s, Load1(s, env.worker, nid), env)
  {
    CalmStep(s, Load(env.worker), env);
  }

  /** The state after loading a notification that exists. */
  function Load1(s: State, w: nat, nid: Uuid): State
    requires nid in s.db.notifications
  {
    var task := TaskOf(nid, s.db.notifications[nid]);
    SetPhase(s, w, if task.status.Terminal() then Settled else Loaded(task))
  }

  /** A message for a finished notification is acked. */
  lemma HandleTerminal(s: State, env: Env, nid: Uuid) returns (t: State)
    requires AtMessage(s, env.worker, nid) && s.db.notifications[nid].status.Terminal()
    ensures Calmly(s, t, env)
    ensures WorkerMoved(s, t, env.worker)
    ensures t.workers[env.worker] == NextMessage(WorkerOf(s, env.worker))
    ensures t.db == s.db && t.log == s.log
  {
    CalmLoad(s, env, nid);
    var s1 := Load1(s, env.worker, nid);
    CalmAck(s1, env);
    t := DoAck(s1, env.worker);
    CalmTrans(s, s1, t, env);
  }

  /** A message for a notification that is delivering is left pending. */
  lemma HandleConflict(s: State, env: Env, nid: Uuid) returns (t: State)
    requires AtMessage(s, env.worker, nid) && s.db.notifications[nid].status.Delivering?
    ensures Calmly(s, t, env)
    ensures WorkerMoved(s, t, env.worker)
    ensures t.workers[env.worker] == NextMessage(WorkerOf(s, env.worker))
    ensures t.db == s.db && t.log == s.log
  {
    CalmLoad(s, env, nid);
    var s1 := Load1(s, env.worker, nid);
    MarkConflicts(s, env.worker, nid);
    CalmMark(s1, env);
    t := DoMarkDelivering(s1, env.worker);
    CalmTrans(s, s1, t, env);
  }

  lemma MarkConflicts(s: State, w: nat, nid: Uuid)
    requires Busy(s, w) && nid in s.db.notifications && s.db.notifications[nid].status.Delivering?
    ensures var t := Load1(s, w, nid);
            && Busy(t, w) && WorkerOf(t, w).phase.Loaded?
            && DoMarkDelivering(t, w) == SetWorker(s, w, NextMessage(WorkerOf(s, w)))
  {
    var t := Load1(s, w, nid);
    assert DoMarkDelivering(t, w).workers == s.workers[w := NextMessage(WorkerOf(s, w))];
  }

  lemma MarkCommits(s: State, w: nat, nid: Uuid)
    requires Busy(s, w) && nid in s.db.notifications && s.db.notifications[nid].status.Live()
    ensures var t := Load1(s, w, nid);
            && Busy(t, w) && WorkerOf(t, w).phase.Loaded?
            && DoMarkDelivering(t, w) ==
               s.(db := MarkDeliveringTx(s.db, nid).db,
                  workers := s.workers[w := WorkerOf(s, w).(phase := Marked(TaskOf(nid, s.db.notifications[nid])))],
                  log := s.log + [WasMarked(nid)])
  {
    var t := Load1(s, w, nid);
    assert DoMarkDelivering(t, w).workers ==
           s.workers[w := WorkerOf(s, w).(phase := Marked(TaskOf(nid, s.db.notifications[nid])))];
  }

  lemma LoadAndMark(s: State, env: Env, nid: Uuid) returns (t: State)
    requires AtMessage(s, env.worker, nid) && s.db.notifications[nid].status.Live()
    ensures Calmly(s, t, env)
    ensures t.workers == s.workers[env.worker :=
              WorkerOf(s, env.worker).(phase := Marked(TaskOf(nid, s.db.notifications[nid])))]
    ensures t == s.(db := MarkDeliveringTx(s.db, nid).db, workers := t.workers, log := s.log + [WasMarked(nid)])
  {
    CalmLoad(s, env, nid);
    var s1 := Load1(s, env.worker, nid);
    MarkCommits(s, env.worker, nid);
    CalmMark(s1, env);
    t := DoMarkDelivering(s1, env.worker);
    CalmTrans(s, s1, t, env);
  }

  lemma DeliverConcludes(s: State, w: nat, result: AttemptResult)
    requires Busy(s, w) && WorkerOf(s, w).phase.Marked?
    ensures var task := WorkerOf(s, w).phase.task;
            DoDeliver(s, w, result) ==
            s.(workers := s.workers[w := WorkerOf(s, w).(phase :=
                 Concluded(task, Conclude(s.policy, task, result, s.now), s.now))],
               log := s.log + [WasDispatched(task.id, result)])
  {
  }

  /** From loading to dispatching a live notification. */
  lemma LoadMarkDeliver(s: State, env: Env, nid: Uuid) returns (t: State)
    requires AtMessage(s, env.worker, nid) && s.db.notifications[nid].status.Live()
    ensures Calmly(s, t, env)
    ensures var task := TaskOf(nid, s.db.notifications[nid]);
            var result := env.answer(Dispatched(s.log));
            t.workers == s.workers[env.worker := WorkerOf(s, env.worker).(phase :=
              Concluded(task, Conclude(s.policy, task, result, s.now), s.now))]
    ensures t == s.(db := MarkDeliveringTx(s.db, nid).db, workers := t.workers,
                    log := s.log + [WasMarked(nid)] + [WasDispatched(nid, env.answer(Dispatched(s.log)))])
  {
    var s1 := LoadAndMark(s, env, nid);
    DispatchedAppend(s.log, WasMarked(nid));
    DeliverConcludes(s1, env.worker, env.answer(Dispatched(s.log)));
    CalmDeliver(s1, env);
    t := DoDeliver(s1, env.worker, env.answer(Dispatched(s.log)));
    CalmTrans(s, s1, t, env);
  }

  lemma RecordCommits(s: State, w: nat, row: Uuid)
    requires Busy(s, w) && WorkerOf(s, w).phase.Concluded?
    requires var phase := WorkerOf(s, w).phase;
             RecordTx(s.db, phase.task.id, phase.conclusion, row, s.now).err.None?
    ensures var t := DoRecord(s, w, row);
            var phase := WorkerOf(s, w).phase;
            && t.db == RecordTx(s.db, phase.task.id, phase.conclusion, row, s.now).db
            && t == s.(db := t.db, log := t.log, workers := s.workers[w := WorkerOf(s, w).(phase := Settled)])
            && Dispatched(t.log) == Dispatched(s.log)
  {
    var t := DoRecord(s, w, row);
    assert t.log == s.log + [t.log[|s.log|]];
    DispatchedAppend(s.log, t.log[|s.log|]);
  }

  lemma AckMoves(s: State, t: State, w: nat)
    requires Busy(s, w)
    requires t == s.(db := t.db, log := t.log, workers := s.workers[w := WorkerOf(s, w).(phase := Settled)])
    ensures WorkerMoved(s, DoAck(t, w), w)
    ensures DoAck(t, w).workers[w] == NextMessage(WorkerOf(s, w))
    ensures DoAck(t, w).db == t.db && DoAck(t, w).log == t.log
  {
  }

  /** Recording a conclusion that fits, then acking. */
  lemma RecordAndAck(s: State, env: Env, row: Uuid) returns (t: State)
    requires Busy(s, env.worker) && WorkerOf(s, env.worker).phase.Concluded?
    requires var phase := WorkerOf(s, env.worker).phase;
             && RecordTx(s.db, phase.task.id, phase.conclusion, row, s.now).err.None?
             && (phase.conclusion.Reschedules() ==> row !in s.db.outbox)
    ensures Calmly(s, t, env)
    ensures WorkerMoved(s, t, env.worker)
    ensures t.workers[env.worker] == NextMessage(WorkerOf(s, env.worker))
    ensures var phase := WorkerOf(s, env.worker).phase;
            t.db == RecordTx(s.db, phase.task.id, phase.conclusion, row, s.now).db
    ensures Dispatched(t.log) == Dispatched(s.log)
  {
    CalmRecord(s, row, env);
    RecordCommits(s, env.worker, row);
    var s1 := DoRecord(s, env.worker, row);
    CalmAck(s1, env);
    t := DoAck(s1, env.worker);
    AckMoves(s, s1, env.worker);
    CalmTrans(s, s1, t, env);
  }

  /** The worker's steps on a live notification's message add up to one undisturbed Process call. */
  lemma HandleLive(s: State, env: Env, nid: Uuid, row: Uuid) returns (t: State)
    requires AtMessage(s, env.worker, nid) && s.db.notifications[nid].status.Live()
    requires AllOk(env) || row !in s.db.outbox
    ensures Calmly(s, t, env)
    ensures WorkerMoved(s, t, env.worker)
    ensures t.workers[env.worker] == NextMessage(WorkerOf(s, env.worker))
    ensures t.db == Process(s.db, s.policy, nid, env.answer(Dispatched(s.log)), row, s.now).db
    ensures Dispatched(t.log) == Dispatched(s.log) + 1
  {
    var result := env.answer(Dispatched(s.log));
    ProcessOutcome(s.db, s.policy, nid, result, row, s.now);
    var s1 := LoadMarkDeliver(s, env, nid);
    DispatchedAppend(s.log, WasMarked(nid));
    DispatchedAppend(s.log + [WasMarked(nid)], WasDispatched(nid, result));
    t := RecordAndAck(s1, env, row);
    CalmTrans(s, s1, t, env);
  }

  /** One Process call is one evolution. */
  lemma ProcessEvolves(s: State, t: State, env: Env, nid: Uuid, row: Uuid)
    requires nid in s.db.notifications && s.db.notifications[nid].status.Live()
    requires Affordable(s.db.notifications)
    requires t.db == Process(s.db, s.policy, nid, env.answer(Dispatched(s.log)), row, s.now).db
    requires Dispatched(t.log) == Dispatched(s.log) + 1
    requires Fundable(s, env)
    ensures Evolved(s, t, env)
  {
    var result := env.answer(Dispatched(s.log));
    ProcessEffect(s.db, s.policy, nid, result, row, s.now);
    var before, after := s.db.notifications[nid], t.db.notifications[nid];
    TotalUpdate(s.db.notifications, nid, after);
    assert Weight(after) + 1 <= Weight(before);
    if !AllOk(env) {
      var k := Total(s.db.notifications);
      assert t.db.outbox.Keys <= s.db.outbox.Keys + {row};
      RoomShrinks(s.db.outbox.Keys, k, row);
      RoomLess(s.db.outbox.Keys + {row}, k - 1, Total(t.db.notifications));
      RoomFewerUsed(s.db.outbox.Keys + {row}, t.db.outbox.Keys, Total(t.db.notifications));
    }
  }

  lemma RoomFewerUsed(used: set<Uuid>, fewer: set<Uuid>, k: nat)
    requires Room(used, k) && fewer <= used
    ensures Room(fewer, k)
  {
    var pool: set<Uuid> :| |pool| >= k && pool !! used;
    assert pool !! fewer;
  }

  /** Any readable message can be handled. */
  lemma HandleOne(s: State, env: Env, nid: Uuid) returns (t: State)
    requires AtMessage(s, env.worker, nid) && Affordable(s.db.notifications) && Fundable(s, env)
    ensures Calmly(s, t, env)
    ensures WorkerMoved(s, t, env.worker)
    ensures t.workers[env.worker] == NextMessage(WorkerOf(s, env.worker))
    ensures Evolved(s, t, env)
  {
    var n := s.db.notifications[nid];
    if n.status.Terminal() {
      t := HandleTerminal(s, env, nid);
    } else if n.status.Delivering? {
      t := HandleConflict(s, env, nid);
    } else {
      var row: Uuid := 0;
      if !AllOk(env) {
        TotalSplit(s.db.notifications, nid);
        row := RoomHasId(s.db.outbox.Keys, Total(s.db.notifications));
      }
      t := HandleLive(s, env, nid, row);
      ProcessEvolves(s, t, env, nid, row);
    }
  }

  // ----- handling a batch

  predicate Names(values: Values, nid: Uuid) {
    ParseDeliveryMessage(values).Good? && ParseDeliveryMessage(values).value.nid == nid
  }

  /** Every entry parses, to an existing notification. */
  predicate Readable(s: State) {
    forall i :: 0 <= i < |s.stream| ==>
      Names(s.stream[i].values, s.stream[i].event.nid) && s.stream[i].event.nid in s.db.notifications
  }

  lemma ShapeIsReadable(s: State)
    requires StreamOk(s.db.outbox, s.stream, s.now) && RowsOk(s.db)
    ensures Readable(s)
  {
    forall i | 0 <= i < |s.stream|
      ensures Names(s.stream[i].values, s.stream[i].event.nid) && s.stream[i].event.nid in s.db.notifications
    {
      assert EntryOk(s.db.outbox, s.stream[i], s.now);
      ParseInvertsBuild(s.stream[i].event);
    }
  }

  /** Budgets and readability that every calm continuation starts from and keeps. */
  ghost predicate Fit(s: State, env: Env) {
    Readable(s) && Affordable(s.db.notifications) && Fundable(s, env)
  }

  lemma FitKept(s: State, t: State, env: Env)
    requires Fit(s, env) && Evolved(s, t, env) && t.stream == s.stream
    ensures Fit(t, env)
  {
    forall n | n in s.db.notifications
      ensures n in t.db.notifications
    {
      assert n in t.db.notifications.Keys;
    }
  }

  lemma EvolvedRefl(s: State, t: State, env: Env)
    requires Affordable(s.db.notifications) && Fundable(s, env) && t.db == s.db && t.log == s.log
    ensures Evolved(s, t, env)
  {
  }

  /** The worker works off its whole batch. */
  lemma {:induction false} HandleBatch(s: State, env: Env) returns (t: State)
    requires Fit(s, env) && env.worker in s.workers && s.workers[env.worker].phase.Idle?
    requires forall k :: 0 <= k < |s.workers[env.worker].batch| ==> s.workers[env.worker].batch[k] < |s.stream|
    ensures Calmly(s, t, env)
    ensures WorkerMoved(s, t, env.worker)
    ensures t.workers[env.worker] == Worker([], Idle, s.workers[env.worker].scan)
    ensures Evolved(s, t, env)
    decreases |s.workers[env.worker].batch|
  {
    var batch := s.workers[env.worker].batch;
    if batch == [] {
      t := s;
      CalmNone(s, env);
      EvolvedRefl(s, s, env);
    } else {
      var nid := s.stream[batch[0]].event.nid;
      assert Names(s.stream[batch[0]].values, nid);
      var s1 := HandleOne(s, env, nid);
      FitKept(s, s1, env);
      t := HandleBatch(s1, env);
      CalmTrans(s, s1, t, env);
      EvolvedTrans(s, s1, t, env);
    }
  }
}

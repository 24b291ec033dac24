/**
 * The loops of relay and worker end: whatever order their steps are taken in, a
 * batch is worked off in boundedly many steps, no batch gets stuck, and enough
 * PublishDue calls publish everything.
 */
module Loops {
  import opened Common
  import opened Uuids
  import opened Message
  import opened Tables
  import opened Pipeline
  import opened PipelineShape
  import opened PipelineRefinement
  import opened Potential
  import opened Calm
  import opened Rounds
  import opened Laps

  // ----- a batch is worked off

  function RelayRank(relay: Relay): nat {
    if relay.batch == [] then 0 else 2 * |relay.batch| - if relay.phase.Appended? then 1 else 0
  }

  function PhaseRank(phase: WorkerPhase): (r: nat)
    ensures r <= 4
  {
    match phase
    case Idle => 4
    case Loaded(_) => 3
    case Marked(_) => 2
    case Concluded(_, _, _) => 1
    case Settled => 0
  }

  function WorkerRank(worker: Worker): nat {
    if worker.batch == [] then 0 else 5 * (|worker.batch| - 1) + PhaseRank(worker.phase) + 1
  }

  /** The most steps relay and worker can still take on what they have in hand. */
  function Rank(s: State, env: Env): nat {
    RelayRank(RelayOf(s, env.relay)) + WorkerRank(WorkerOf(s, env.worker))
  }

  /** A look for new work, or time passing. */
  predicate Polls(step: Step) {
    step.Tick? || step.Claim? || step.Read? || step.AutoClaim?
  }

  lemma RelayLowersRank(s: State, step: Step, env: Env)
    requires Enabled(s, step) && Allowed(s, step, env) && (step.Append? || step.MarkPublished?)
    ensures Apply(s, step).workers == s.workers
    ensures RelayRank(RelayOf(Apply(s, step), env.relay)) < RelayRank(RelayOf(s, env.relay))
  {
  }

  lemma FirstPhasesLowerRank(s: State, step: Step, env: Env)
    requires Enabled(s, step) && Allowed(s, step, env) && (step.Load? || step.MarkDelivering?)
    ensures Apply(s, step).relays == s.relays
    ensures WorkerRank(WorkerOf(Apply(s, step), env.worker)) < WorkerRank(WorkerOf(s, env.worker))
  {
  }

  lemma LastPhasesLowerRank(s: State, step: Step, env: Env)
    requires Enabled(s, step) && Allowed(s, step, env) && (step.Deliver? || step.Record? || step.Ack?)
    ensures Apply(s, step).relays == s.relays
    ensures WorkerRank(WorkerOf(Apply(s, step), env.worker)) < WorkerRank(WorkerOf(s, env.worker))
  {
  }

  lemma WorkLowersRank(s: State, step: Step, env: Env)
    requires Enabled(s, step) && Allowed(s, step, env) && !Polls(step)
    ensures Rank(Apply(s, step), env) < Rank(s, env)
  {
    if step.Append? || step.MarkPublished? {
      RelayLowersRank(s, step, env);
    } else if step.Load? || step.MarkDelivering? {
      FirstPhasesLowerRank(s, step, env);
    } else {
      LastPhasesLowerRank(s, step, env);
    }
  }

  /** Between two looks for new work only so many steps can be taken. */
  lemma {:induction false} BatchesRunOut(s: State, steps: seq<Step>, t: State, env: Env)
    requires CalmRun(s, steps, t, env) && forall k :: 0 <= k < |steps| ==> !Polls(steps[k])
    ensures |steps| + Rank(t, env) <= Rank(s, env)
    decreases |steps|
  {
    if steps != [] {
      WorkLowersRank(s, steps[0], env);
      BatchesRunOut(Apply(s, steps[0]), steps[1..], t, env);
    }
  }

  ghost predicate CanWork(s: State, env: Env) {
    exists step :: Enabled(s, step) && Allowed(s, step, env) && !Polls(step)
  }

  lemma RelayCanWork(s: State, env: Env)
    requires RelayOf(s, env.relay).batch != [] && !RelayOf(s, env.relay).phase.Refused?
    ensures CanWork(s, env)
  {
    if RelayOf(s, env.relay).phase.Ready? {
      assert Enabled(s, Append(env.relay)) && Allowed(s, Append(env.relay), env);
    } else {
      assert Enabled(s, MarkPublished(env.relay)) && Allowed(s, MarkPublished(env.relay), env);
    }
  }

  lemma WorkerCanWork(s: State, env: Env)
    requires WorkersOk(s) && Readable(s) && WorkerOf(s, env.worker).batch != [] && Room(s.db.outbox.Keys, 1)
    ensures CanWork(s, env)
  {
    WorkerOfFine(s, env.worker);
    var row := RoomHasId(s.db.outbox.Keys, 1);
    var w := env.worker;
    var result := env.answer(Dispatched(s.log));
    var step := match WorkerOf(s, w).phase
                case Idle => Load(w)
                case Loaded(_) => MarkDelivering(w)
                case Marked(_) => Deliver(w, result)
                case Concluded(_, _, _) => Record(w, row)
                case Settled => Ack(w);
    assert Names(Current(s, w).values, Current(s, w).event.nid);
    assert Enabled(s, step) && Allowed(s, step, env) && !Polls(step);
  }

  /** No undisturbed batch gets stuck: as long as there is one, a step can be taken on it. */
  lemma BatchesNeverStick(s: State, env: Env)
    requires Reachable(s) && Room(s.db.outbox.Keys, 1) && !RelayOf(s, env.relay).phase.Refused?
    requires Rank(s, env) > 0
    ensures CanWork(s, env)
  {
    ReachableReads(s);
    if RelayOf(s, env.relay).batch != [] {
      RelayCanWork(s, env);
    } else {
      WorkerCanWork(s, env);
    }
  }

  // ----- enough PublishDue calls publish everything

  predicate OfRelay(step: Step) {
    step.Tick? || step.Claim? || step.Append? || step.MarkPublished?
  }

  /** The unpublished rows the relay does not have in hand. */
  function Left(s: State, env: Env): set<Uuid> {
    Unpublished(s.db.outbox) - EventIds(RelayOf(s, env.relay).batch)
  }

  ghost predicate Sweeping(s: State, env: Env) {
    && HoldsBatch(s.db, RelayOf(s, env.relay))
    && forall id :: id in Left(s, env) ==> id in s.db.outbox && Eligible(s.db.outbox[id], s.now)
  }

  lemma IdleSweeps(s: State, env: Env)
    requires RelayIdle(s, env) && !RelayOf(s, env.relay).phase.Refused? && AllDue(s.db.outbox, s.now)
    ensures Sweeping(s, env) && Left(s, env) == Unpublished(s.db.outbox)
  {
    assert EventIds([]) == {};
  }

  /** A claim publishes nothing. */
  lemma ClaimUnpublished(db: Db, picked: set<Uuid>, locker: string, now: Time)
    requires picked <= EligibleRows(db.outbox, now)
    ensures Unpublished(ClaimTx(db, picked, locker, now).outbox) == Unpublished(db.outbox)
  {
    var after := ClaimTx(db, picked, locker, now).outbox;
    forall id
      ensures id in Unpublished(after) <==> id in Unpublished(db.outbox)
    {
      assert id in after.Keys <==> id in db.outbox.Keys;
    }
  }

  /** Only due rows are claimed, and what is left is as it was. */
  lemma LeftAfterClaim(s: State, events: seq<Event>, env: Env)
    requires RelayIdle(s, env)
    requires IsClaim(s.db.outbox, s.now, env.batchSize, {}, EventIds(events))
    ensures var t := DoClaim(s, env.relay, env.locker, events);
            && Left(t, env) == Left(s, env) - EventIds(events)
            && forall id :: id in Left(t, env) ==> id in t.db.outbox && t.db.outbox[id] == s.db.outbox[id]
  {
    assert EventIds([]) == {};
    ClaimUnpublished(s.db, EventIds(events), env.locker, s.now);
    ClaimTxMoves(s.db, EventIds(events), env.locker, s.now);
  }

  lemma ClaimSweeps(s: State, events: seq<Event>, env: Env)
    requires Sweeping(s, env)
    requires Enabled(s, Claim(env.relay, env.locker, env.batchSize, {}, events))
    ensures var t := DoClaim(s, env.relay, env.locker, events);
            && Sweeping(t, env) && Left(t, env) <= Left(s, env)
            && (Left(s, env) != {} ==> Left(t, env) < Left(s, env))
  {
    var picked := EventIds(events);
    ClaimOwned(s, env, events);
    LeftAfterClaim(s, events, env);
    ClaimShrinks(s, picked, env);
  }

  /** A claim takes something as long as something is left. */
  lemma ClaimShrinks(s: State, picked: set<Uuid>, env: Env)
    requires Sweeping(s, env) && RelayIdle(s, env) && IsClaim(s.db.outbox, s.now, env.batchSize, {}, picked)
    ensures Left(s, env) != {} ==> Left(s, env) - picked < Left(s, env)
  {
    assert EventIds([]) == {};
    if Left(s, env) != {} {
      ClaimNonempty(s.db.outbox, s.now, env.batchSize, picked);
    }
  }

  lemma AppendSweeps(s: State, env: Env)
    requires Sweeping(s, env) && Enabled(s, Append(env.relay))
    ensures Sweeping(DoAppend(s, env.relay), env) && Left(DoAppend(s, env.relay), env) == Left(s, env)
  {
  }

  lemma PublishSweeps(s: State, env: Env)
    requires Sweeping(s, env) && Enabled(s, MarkPublished(env.relay))
    ensures Sweeping(DoMarkPublished(s, env.relay), env)
    ensures Left(DoMarkPublished(s, env.relay), env) == Left(s, env)
  {
    var relay := RelayOf(s, env.relay);
    var t := DoMarkPublished(s, env.relay);
    var id := relay.batch[0].id;
    assert Holds(s.db, id, relay.locker);
    assert relay.batch == [relay.batch[0]] + relay.batch[1..];
    assert EventIds(relay.batch) == {id} + EventIds(relay.batch[1..]);
    assert Unpublished(t.db.outbox) == Unpublished(s.db.outbox) - {id};
    forall k | 0 <= k < |relay.batch| - 1
      ensures Holds(t.db, relay.batch[1..][k].id, relay.locker)
    {
      assert Holds(s.db, relay.batch[k + 1].id, relay.locker) && relay.batch[k + 1].id != id;
    }
  }

  lemma Smaller(a: set<Uuid>, b: set<Uuid>)
    requires a <= b
    ensures |a| <= |b| && (a != b ==> |a| < |b|)
  {
    assert b == a + (b - a);
  }

  lemma StepSweeps(s: State, step: Step, env: Env)
    requires Sweeping(s, env) && Enabled(s, step) && Allowed(s, step, env) && OfRelay(step)
    ensures Sweeping(Apply(s, step), env) && |Left(Apply(s, step), env)| <= |Left(s, env)|
    ensures step.Claim? && Left(s, env) != {} ==> |Left(Apply(s, step), env)| < |Left(s, env)|
  {
    match step {
      case Tick(_) =>
      case Claim(_, _, _, _, events) =>
        ClaimSweeps(s, events, env);
        Smaller(Left(Apply(s, step), env), Left(s, env));
      case Append(_) => AppendSweeps(s, env);
      case MarkPublished(_) => PublishSweeps(s, env);
    }
  }

  function ClaimCount(steps: seq<Step>): nat {
    if steps == [] then 0 else ClaimCount(steps[1..]) + if steps[0].Claim? then 1 else 0
  }

  predicate AllOfRelay(steps: seq<Step>) {
    forall k :: 0 <= k < |steps| ==> OfRelay(steps[k])
  }

  lemma StepSweepsTo(s: State, step: Step, env: Env) returns (u: State)
    requires Sweeping(s, env) && Enabled(s, step) && Allowed(s, step, env) && OfRelay(step)
    ensures u == Apply(s, step) && Sweeping(u, env)
    ensures |Left(u, env)| <= |Left(s, env)|
    ensures step.Claim? && |Left(s, env)| > 0 ==> |Left(u, env)| < |Left(s, env)|
  {
    u := Apply(s, step);
    StepSweeps(s, step, env);
  }

  lemma FirstSweeps(s: State, steps: seq<Step>, t: State, env: Env) returns (u: State)
    requires Sweeping(s, env) && CalmRun(s, steps, t, env) && steps != [] && OfRelay(steps[0])
    ensures Sweeping(u, env) && CalmRun(u, steps[1..], t, env)
    ensures |Left(u, env)| <= |Left(s, env)|
    ensures steps[0].Claim? && |Left(s, env)| > 0 ==> |Left(u, env)| < |Left(s, env)|
  {
    u := StepSweepsTo(s, steps[0], env);
  }

  lemma {:induction false} RunSweeps(s: State, steps: seq<Step>, t: State, env: Env)
    requires Sweeping(s, env) && CalmRun(s, steps, t, env) && AllOfRelay(steps)
    ensures |Left(t, env)| <= |Left(s, env)|
    ensures |Left(t, env)| == 0 || |Left(t, env)| + ClaimCount(steps) <= |Left(s, env)|
    decreases |steps|
  {
    if steps != [] {
      var u := FirstSweeps(s, steps, t, env);
      RunSweeps(u, steps[1..], t, env);
    }
  }

  /**
   * PublishDue after PublishDue: every run of the relay that starts idle with
   * everything due, makes as many claims as rows are unpublished and ends idle
   * has published every row, whatever its batch size and however ties fall.
   */
  lemma EnoughClaimsPublishAll(s: State, steps: seq<Step>, t: State, env: Env)
    requires RelayIdle(s, env) && !RelayOf(s, env.relay).phase.Refused? && AllDue(s.db.outbox, s.now)
    requires CalmRun(s, steps, t, env) && AllOfRelay(steps)
    requires RelayIdle(t, env) && ClaimCount(steps) >= |Unpublished(s.db.outbox)|
    ensures Unpublished(t.db.outbox) == {}
  {
    IdleSweeps(s, env);
    RunSweeps(s, steps, t, env);
    assert EventIds([]) == {};
  }
}

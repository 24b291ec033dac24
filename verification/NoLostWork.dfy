/**
 * No accepted work is lost: as long as a notification is not terminal, its
 * newest outbox row is still to be published or sits unacked in the stream.
 */
module NoLostWork {
  import opened Common
  import opened Uuids
  import opened Message
  import opened Retry
  import opened Delivery
  import opened Tables
  import opened Pipeline
  import opened PipelineShape
  import opened PipelineRefinement

  /** The event needs no further processing: its notification is terminal or has a newer row. */
  predicate Retired(notifications: map<Uuid, Notification>, log: seq<LogItem>, e: Event) {
    e.nid in notifications && (notifications[e.nid].status.Terminal() || Newest(log, e.nid) != Some(e.id))
  }

  /** The newest row of an existing notification exists and is its own. */
  predicate NewestOk(db: Db, log: seq<LogItem>) {
    forall n :: n in db.notifications ==>
      && Newest(log, n).Some?
      && Newest(log, n).value in db.outbox
      && db.outbox[Newest(log, n).value].nid == n
  }

  predicate AckedRetired(s: State) {
    forall i :: i in s.acked && i < |s.stream| ==> Retired(s.db.notifications, s.log, s.stream[i].event)
  }

  /** An entry whose Process returned nil may be acked. */
  predicate SettledRetired(s: State) {
    forall w :: w in s.workers && s.workers[w].phase.Settled? && Busy(s, w) ==>
      Retired(s.db.notifications, s.log, Current(s, w).event)
  }

  predicate Lossless(s: State) {
    NewestOk(s.db, s.log) && AckedRetired(s) && SettledRetired(s)
  }

  /** Tables and log moved on without bringing a retired event back. */
  ghost predicate KeepsRetired(s: State, t: State) {
    forall e: Event :: EventOk(s.db.outbox, e) && Retired(s.db.notifications, s.log, e) ==>
      Retired(t.db.notifications, t.log, e)
  }

  lemma CreateRetires(s: State, nid: Uuid, row: Uuid, maxAttempts: int)
    requires Enabled(s, Create(nid, row, maxAttempts)) && NewestOk(s.db, s.log)
    ensures var t := Apply(s, Create(nid, row, maxAttempts));
            NewestOk(t.db, t.log) && KeepsRetired(s, t)
  {
    forall n {
      LogAppend(s.log, WasCreated(nid, row), n);
    }
  }

  lemma ManualRetryRetires(s: State, nid: Uuid, row: Uuid)
    requires Enabled(s, ManualRetry(nid, row)) && NewestOk(s.db, s.log)
    ensures var t := DoManualRetry(s, nid, row);
            NewestOk(t.db, t.log) && KeepsRetired(s, t)
  {
    forall n {
      LogAppend(s.log, WasReset(nid, row), n);
    }
  }

  lemma MarkTxRetires(db: Db, log: seq<LogItem>, nid: Uuid, e: Event)
    requires Retired(db.notifications, log, e)
    ensures Retired(MarkDeliveringTx(db, nid).db.notifications, log + [WasMarked(nid)], e)
  {
    LogAppend(log, WasMarked(nid), e.nid);
  }

  lemma MarkTxNewest(db: Db, log: seq<LogItem>, nid: Uuid)
    requires NewestOk(db, log)
    ensures NewestOk(MarkDeliveringTx(db, nid).db, log + [WasMarked(nid)])
  {
    forall n {
      LogAppend(log, WasMarked(nid), n);
    }
  }

  lemma MarkRetires(s: State, w: nat)
    requires Enabled(s, MarkDelivering(w)) && NewestOk(s.db, s.log)
    ensures var t := DoMarkDelivering(s, w);
            NewestOk(t.db, t.log) && KeepsRetired(s, t)
  {
    var nid := WorkerOf(s, w).phase.task.id;
    if MarkDeliveringTx(s.db, nid).err.None? {
      MarkTxNewest(s.db, s.log, nid);
      forall e: Event | Retired(s.db.notifications, s.log, e) {
        MarkTxRetires(s.db, s.log, nid, e);
      }
    }
  }

  /** A committed record retires the very message it was made for, and no retired event returns. */
  lemma RecordTxRetires(db: Db, log: seq<LogItem>, item: LogItem, nid: Uuid, conclusion: Conclusion,
                        row: Uuid, now: Time, e: Event)
    requires EventOk(db.outbox, e) && (conclusion.Reschedules() ==> row !in db.outbox)
    requires RecordTx(db, nid, conclusion, row, now).err.None?
    requires item.WasRecorded? && item.nid == nid
    requires item.added == if conclusion.Reschedules() then Some(row) else None
    ensures var notifications := RecordTx(db, nid, conclusion, row, now).db.notifications;
            && (e.nid == nid ==> Retired(notifications, log + [item], e))
            && (Retired(db.notifications, log, e) ==> Retired(notifications, log + [item], e))
  {
    LogAppend(log, item, e.nid);
  }

  lemma RecordTxNewest(db: Db, log: seq<LogItem>, item: LogItem, nid: Uuid, conclusion: Conclusion, row: Uuid, now: Time)
    requires NewestOk(db, log)
    requires RecordTx(db, nid, conclusion, row, now).err.None? && (conclusion.Reschedules() ==> row !in db.outbox)
    requires item.WasRecorded? && item.nid == nid
    requires item.added == if conclusion.Reschedules() then Some(row) else None
    ensures NewestOk(RecordTx(db, nid, conclusion, row, now).db, log + [item])
  {
    forall n {
      LogAppend(log, item, n);
    }
  }

  lemma RecordRetires(s: State, w: nat, row: Uuid)
    requires Enabled(s, Record(w, row)) && NewestOk(s.db, s.log)
    ensures var t := DoRecord(s, w, row);
            && NewestOk(t.db, t.log)
            && KeepsRetired(s, t)
    ensures var phase := WorkerOf(s, w).phase;
            var t := DoRecord(s, w, row);
            RecordTx(s.db, phase.task.id, phase.conclusion, row, s.now).err.None? ==>
              forall e: Event :: EventOk(s.db.outbox, e) && e.nid == phase.task.id ==>
                Retired(t.db.notifications, t.log, e)
  {
    var t := DoRecord(s, w, row);
    var phase := WorkerOf(s, w).phase;
    if RecordTx(s.db, phase.task.id, phase.conclusion, row, s.now).err.None? {
      var item := t.log[|s.log|];
      assert t.log == s.log + [item];
      RecordTxNewest(s.db, s.log, item, phase.task.id, phase.conclusion, row, s.now);
      forall e: Event | EventOk(s.db.outbox, e) {
        RecordTxRetires(s.db, s.log, item, phase.task.id, phase.conclusion, row, s.now, e);
      }
    }
  }

  lemma DeliverRetires(s: State, w: nat, result: AttemptResult)
    requires Enabled(s, Deliver(w, result)) && NewestOk(s.db, s.log)
    ensures var t := DoDeliver(s, w, result);
            NewestOk(t.db, t.log) && KeepsRetired(s, t)
  {
    forall n {
      LogAppend(s.log, WasDispatched(WorkerOf(s, w).phase.task.id, result), n);
    }
  }

  /** Relays publish and release rows; whose they are and which is newest stays. */
  lemma RelayItemRetires(s: State, t: State, item: LogItem)
    requires NewestOk(s.db, s.log)
    requires t.db.notifications == s.db.notifications && t.log == s.log + [item]
    requires forall id :: id in s.db.outbox ==> id in t.db.outbox && t.db.outbox[id].nid == s.db.outbox[id].nid
    requires item.WereClaimed? || item.WasPublished? || item.WasReleased?
    ensures NewestOk(t.db, t.log) && KeepsRetired(s, t)
  {
    forall n {
      LogAppend(s.log, item, n);
    }
  }

  lemma RelayRetires(s: State, step: Step)
    requires Enabled(s, step) && NewestOk(s.db, s.log)
    requires step.Claim? || step.MarkPublished? || step.MarkFailed?
    ensures NewestOk(Apply(s, step).db, Apply(s, step).log) && KeepsRetired(s, Apply(s, step))
  {
    match step {
      case Claim(r, locker, _, _, events) =>
        RelayItemRetires(s, Apply(s, step), WereClaimed(EventIds(events), r, locker, s.now));
      case MarkPublished(r) =>
        var relay := RelayOf(s, r);
        if MarkPublishedTx(s.db, relay.batch[0].id, relay.phase.streamId, relay.locker).err.None? {
          RelayItemRetires(s, Apply(s, step), WasPublished(relay.batch[0].id));
        }
      case MarkFailed(r) =>
        var relay := RelayOf(s, r);
        if MarkFailedTx(s.db, relay.batch[0].id, relay.phase.reason, relay.locker).err.None? {
          RelayItemRetires(s, Apply(s, step), WasReleased(relay.batch[0].id));
        }
    }
  }

  lemma StepRetires(s: State, step: Step)
    requires Enabled(s, step) && NewestOk(s.db, s.log)
    ensures NewestOk(Apply(s, step).db, Apply(s, step).log) && KeepsRetired(s, Apply(s, step))
  {
    if Quiet(step) {
      QuietSteps(s, step);
    } else if step.Claim? || step.MarkPublished? || step.MarkFailed? {
      RelayRetires(s, step);
    } else {
      match step {
        case Create(nid, row, maxAttempts) => CreateRetires(s, nid, row, maxAttempts);
        case ManualRetry(nid, row) => ManualRetryRetires(s, nid, row);
        case MarkDelivering(w) => MarkRetires(s, w);
        case Deliver(w, result) => DeliverRetires(s, w, result);
        case Record(w, row) => RecordRetires(s, w, row);
      }
    }
  }

  lemma AckedKept(s: State, t: State)
    requires StreamOk(s.db.outbox, s.stream, s.now) && GroupOk(s.stream, s.cursor, s.pel, s.acked, s.now)
    requires AckedRetired(s) && Grows(s, t) && KeepsRetired(s, t) && t.acked == s.acked
    ensures AckedRetired(t)
  {
    forall i | i in t.acked && i < |t.stream|
      ensures Retired(t.db.notifications, t.log, t.stream[i].event)
    {
      assert EntryOk(s.db.outbox, s.stream[i], s.now);
    }
  }

  predicate SettledOnRetired(s: State, worker: Worker) {
    worker.phase.Settled? && worker.batch != [] && worker.batch[0] < |s.stream| ==>
      Retired(s.db.notifications, s.log, s.stream[worker.batch[0]].event)
  }

  /** Settled workers stay justified if the one that moved is. */
  lemma SettledKept(s: State, t: State, w: nat)
    requires StreamOk(s.db.outbox, s.stream, s.now) && WorkersOk(s)
    requires SettledRetired(s) && Grows(s, t) && KeepsRetired(s, t)
    requires forall v :: v in t.workers && v != w ==> v in s.workers && t.workers[v] == s.workers[v]
    requires w in t.workers ==> SettledOnRetired(t, t.workers[w]) || (w in s.workers && t.workers[w] == s.workers[w])
    ensures SettledRetired(t)
  {
    forall v | v in t.workers && t.workers[v].phase.Settled? && Busy(t, v)
      ensures Retired(t.db.notifications, t.log, Current(t, v).event)
    {
      if v in s.workers && t.workers[v] == s.workers[v] {
        assert WorkerOk(s, s.workers[v]);
        assert EntryOk(s.db.outbox, Current(s, v), s.now);
      }
    }
  }

  lemma LoadLossless(s: State, w: nat)
    requires Shape(s) && Lossless(s) && Enabled(s, Load(w))
    ensures Lossless(DoLoad(s, w))
  {
    CurrentParses(s, w);
    AckedKept(s, DoLoad(s, w));
    SettledKept(s, DoLoad(s, w), w);
  }

  lemma RecordLossless(s: State, w: nat, row: Uuid)
    requires Shape(s) && Lossless(s) && Enabled(s, Record(w, row))
    ensures Lossless(DoRecord(s, w, row))
  {
    var t := DoRecord(s, w, row);
    RecordGrows(s, w, row);
    RecordRetires(s, w, row);
    AckedKept(s, t);
    OwnMessage(s, w);
    RecordSettles(s, w, row);
    SettledKept(s, t, w);
  }

  /** A worker records an outcome for the notification its message names. */
  lemma OwnMessage(s: State, w: nat)
    requires Shape(s) && Busy(s, w) && WorkerOf(s, w).phase.Concluded?
    ensures EventOk(s.db.outbox, Current(s, w).event)
    ensures Current(s, w).event.nid == WorkerOf(s, w).phase.task.id
  {
    CurrentParses(s, w);
    WorkerOfOk(s, w);
  }

  lemma RecordSettles(s: State, w: nat, row: Uuid)
    requires Enabled(s, Record(w, row)) && NewestOk(s.db, s.log)
    requires EventOk(s.db.outbox, Current(s, w).event)
    requires Current(s, w).event.nid == WorkerOf(s, w).phase.task.id
    ensures SettledOnRetired(DoRecord(s, w, row), DoRecord(s, w, row).workers[w])
  {
    RecordRetires(s, w, row);
  }

  lemma AckLossless(s: State, w: nat)
    requires Shape(s) && Lossless(s) && Enabled(s, Ack(w))
    ensures Lossless(DoAck(s, w))
  {
  }

  /** A relay-published entry is never acked as malformed. */
  lemma NeverMalformed(s: State, w: nat)
    requires StreamOk(s.db.outbox, s.stream, s.now)
    ensures !Enabled(s, AckMalformed(w))
  {
    if Busy(s, w) {
      assert EntryOk(s.db.outbox, Current(s, w), s.now);
      ParseInvertsBuild(Current(s, w).event);
    }
  }

  /** The worker a step moves, if any. */
  function Actor(step: Step): nat {
    match step
    case Read(w, _) => w
    case AutoClaim(w, _, _, _) => w
    case MarkDelivering(w) => w
    case Deliver(w, _) => w
    case Abandon(w) => w
    case WorkerCrash(w) => w
    case _ => 0
  }

  lemma OthersNeitherAckNorSettle(s: State, step: Step)
    requires Enabled(s, step)
    requires !step.AckMalformed? && !step.Load? && !step.Record? && !step.Ack?
    ensures var t := Apply(s, step);
            && t.acked == s.acked
            && (forall v :: v in t.workers && v != Actor(step) ==> v in s.workers && t.workers[v] == s.workers[v])
            && (Actor(step) in t.workers ==>
                  || !t.workers[Actor(step)].phase.Settled?
                  || (Actor(step) in s.workers && t.workers[Actor(step)] == s.workers[Actor(step)]))
  {
  }

  lemma OtherLossless(s: State, step: Step)
    requires Shape(s) && Lossless(s) && Enabled(s, step)
    requires !step.AckMalformed? && !step.Load? && !step.Record? && !step.Ack?
    ensures Lossless(Apply(s, step))
  {
    var t := Apply(s, step);
    StepGrows(s, step);
    StepRetires(s, step);
    OthersNeitherAckNorSettle(s, step);
    AckedKept(s, t);
    SettledKept(s, t, Actor(step));
  }

  lemma StepLossless(s: State, step: Step)
    requires Shape(s) && Lossless(s) && Enabled(s, step)
    ensures Lossless(Apply(s, step))
  {
    match step {
      case AckMalformed(w) => NeverMalformed(s, w);
      case Load(w) => LoadLossless(s, w);
      case Record(w, row) => RecordLossless(s, w, row);
      case Ack(w) => AckLossless(s, w);
      case _ => OtherLossless(s, step);
    }
  }

  lemma {:induction false} RunLossless(s: State, steps: seq<Step>, t: State)
    requires Shape(s) && Lossless(s) && Run(s, steps, t)
    ensures Shape(t) && Lossless(t)
    decreases |steps|
  {
    if steps != [] {
      StepKeepsShape(s, steps[0]);
      StepLossless(s, steps[0]);
      RunLossless(Apply(s, steps[0]), steps[1..], t);
    }
  }

  lemma ReachableLossless(t: State)
    requires Reachable(t)
    ensures Shape(t) && Lossless(t)
  {
    var now, policy, steps :| Run(Initial(now, policy), steps, t);
    InitialShape(now, policy);
    RunLossless(Initial(now, policy), steps, t);
  }

  /** The message on the wire names this outbox row. */
  predicate Carries(entry: Entry, row: Uuid) {
    var parsed := ParseDeliveryMessage(entry.values);
    parsed.Good? && parsed.value.outboxEventId == row
  }

  /** Unacked means still to be read, or on the pending list from which it is reclaimed. */
  predicate Awaits(s: State, i: nat) {
    i !in s.acked && (i >= s.cursor || i in s.pel)
  }

  /**
   * No lost work: in every reachable state a non-terminal notification's newest
   * outbox row waits for a relay, or an entry carries it; and no entry carrying
   * it has been acked.
   */
  lemma WorkIsNeverLost(s: State, nid: Uuid)
    requires Reachable(s) && nid in s.db.notifications && !s.db.notifications[nid].status.Terminal()
    ensures Newest(s.log, nid).Some? && Newest(s.log, nid).value in s.db.outbox
    ensures var row := Newest(s.log, nid).value;
            || s.db.outbox[row].status.OutboxPending?
            || s.db.outbox[row].status.OutboxPublishing?
            || exists i :: 0 <= i < |s.stream| && Carries(s.stream[i], row)
    ensures forall i: nat :: i < |s.stream| && Carries(s.stream[i], Newest(s.log, nid).value) ==> Awaits(s, i)
  {
    ReachableLossless(s);
    var row := Newest(s.log, nid).value;
    forall i: nat | i < |s.stream|
      ensures Carries(s.stream[i], row) <==> s.stream[i].event.id == row
      ensures s.stream[i].event.id == row ==> s.stream[i].event.nid == nid
    {
      assert EntryOk(s.db.outbox, s.stream[i], s.now);
      ParseInvertsBuild(s.stream[i].event);
    }
    if s.db.outbox[row].status.OutboxPublished? {
      assert Carries(s.stream[s.db.outbox[row].streamId.value], row);
    }
  }
}

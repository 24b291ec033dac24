/**
 * The whole delivery pipeline as one concurrent step system: API calls, any
 * number of relays, the Redis stream with its consumer group, any number of
 * workers, and one clock. A database transaction or a Redis command is one
 * atomic step; everything between two of them may interleave with anything.
 */
module Pipeline {
  import opened Common
  import opened Uuids
  import opened Message
  import opened Retry
  import opened Delivery
  import opened Tables

  /** A stream entry; entry i has stream position i. `event` is what the relay passed to XADD. */
  datatype Entry = Entry(event: Event, values: Values, appendedAt: Time)

  /** A pending-entries-list record: who holds the entry, and since when. */
  datatype PendingEntry = PendingEntry(consumer: nat, since: Time)

  datatype RelayPhase = Ready | Appended(streamId: nat) | Refused(reason: string)

  /** A relay inside PublishDue: the rest of its batch, and where it is with batch[0]. */
  datatype Relay = Relay(locker: string, batch: seq<Event>, phase: RelayPhase)

  const IDLE_RELAY := Relay("", [], Ready)

  /** How far Process has come with the message batch[0]; Settled means it returned nil. */
  datatype WorkerPhase =
    | Idle
    | Loaded(task: Task)
    | Marked(task: Task)
    | Concluded(task: Task, conclusion: Conclusion, decidedAt: Time)
    | Settled

  /** A worker: the rest of its batch of stream positions, and its auto-claim cursor. */
  datatype Worker = Worker(batch: seq<nat>, phase: WorkerPhase, scan: nat)

  const IDLE_WORKER := Worker([], Idle, 0)

  /** History variable: what has happened, in order. The code keeps no such log. */
  datatype LogItem =
    | WasCreated(nid: Uuid, row: Uuid)
    | WasReset(nid: Uuid, row: Uuid)
    | WasMarked(nid: Uuid)
    | WasDispatched(nid: Uuid, result: AttemptResult)
    | WasRecorded(nid: Uuid, decidedAt: Time, next: Option<Time>, added: Option<Uuid>)
    | WereClaimed(rows: set<Uuid>, relay: nat, locker: string, at: Time)
    | WasReleased(row: Uuid)
    | WasPublished(row: Uuid)

  datatype State = State(
    now: Time,
    policy: RetryPolicy,
    db: Db,
    stream: seq<Entry>,
    cursor: nat,
    pel: map<nat, PendingEntry>,
    acked: set<nat>,
    relays: map<nat, Relay>,
    workers: map<nat, Worker>,
    log: seq<LogItem>)

  datatype Step =
    | Tick(d: nat)
    | Create(nid: Uuid, row: Uuid, maxAttempts: int)
    | ManualRetry(nid: Uuid, row: Uuid)
    | Claim(r: nat, locker: string, limit: int, locked: set<Uuid>, events: seq<Event>)
    | Append(r: nat)
    | AppendError(r: nat, landed: bool, reason: string)
    | MarkPublished(r: nat)
    | MarkFailed(r: nat)
    | RelayCrash(r: nat)
    | Read(w: nat, count: nat)
    | AutoClaim(w: nat, count: nat, minIdle: Time, stop: nat)
    | AckMalformed(w: nat)
    | Load(w: nat)
    | MarkDelivering(w: nat)
    | Deliver(w: nat, result: AttemptResult)
    | Record(w: nat, row: Uuid)
    | Ack(w: nat)
    | Abandon(w: nat)
    | WorkerCrash(w: nat)

  function Initial(now: Time, policy: RetryPolicy): State {
    State(now, policy, Db(map[], [], map[]), [], 0, map[], {}, map[], map[], [])
  }

  function RelayOf(s: State, r: nat): Relay {
    if r in s.relays then s.relays[r] else IDLE_RELAY
  }

  function WorkerOf(s: State, w: nat): Worker {
    if w in s.workers then s.workers[w] else IDLE_WORKER
  }

  /** The entry a worker is busy with. */
  function Current(s: State, w: nat): Entry
    requires WorkerOf(s, w).batch != [] && WorkerOf(s, w).batch[0] < |s.stream|
  {
    s.stream[WorkerOf(s, w).batch[0]]
  }

  predicate Busy(s: State, w: nat) {
    WorkerOf(s, w).batch != [] && WorkerOf(s, w).batch[0] < |s.stream|
  }

  function NextMessage(worker: Worker): Worker
    requires worker.batch != []
  {
    worker.(batch := worker.batch[1..], phase := Idle)
  }

  function NextEvent(relay: Relay): Relay
    requires relay.batch != []
  {
    relay.(batch := relay.batch[1..], phase := Ready)
  }

  function EventIds(events: seq<Event>): set<Uuid> {
    set e | e in events :: e.id
  }

  /** One page of an auto-claim scan: positions in [lo, hi) pending for at least minIdle. */
  function IdlePage(pel: map<nat, PendingEntry>, lo: nat, hi: nat, now: Time, minIdle: Time): (page: seq<nat>)
    ensures forall i :: i in page <==> lo <= i < hi && i in pel && now - pel[i].since >= minIdle
    ensures forall k :: 0 <= k < |page| ==> lo <= page[k] < hi && page[k] in pel
    ensures forall j, k :: 0 <= j < k < |page| ==> page[j] < page[k]
    ensures |page| <= (if lo < hi then hi - lo else 0)
    decreases hi
  {
    if hi <= lo then []
    else
      var page := IdlePage(pel, lo, hi - 1, now, minIdle);
      if hi - 1 in pel && now - pel[hi - 1].since >= minIdle then page + [hi - 1] else page
  }

  function Hand(pel: map<nat, PendingEntry>, w: nat, page: seq<nat>, now: Time): map<nat, PendingEntry> {
    map i | i in pel.Keys + (set p | p in page) :: if i in page then PendingEntry(w, now) else pel[i]
  }

  function ReadPage(s: State, count: nat): (page: seq<nat>)
    requires s.cursor <= |s.stream|
    ensures |page| == if count <= |s.stream| - s.cursor then count else |s.stream| - s.cursor
    ensures forall k :: 0 <= k < |page| ==> page[k] == s.cursor + k
    ensures forall i :: i in page <==> s.cursor <= i < s.cursor + |page|
  {
    var k := if count <= |s.stream| - s.cursor then count else |s.stream| - s.cursor;
    var page := seq(k, i requires 0 <= i => s.cursor + i);
    RangeMembers(page, s.cursor);
    page
  }

  lemma RangeMembers(page: seq<nat>, start: nat)
    requires forall k :: 0 <= k < |page| ==> page[k] == start + k
    ensures forall i :: i in page <==> start <= i < start + |page|
  {
    forall i | start <= i < start + |page|
      ensures i in page
    {
      assert page[i - start] == i;
    }
  }

  /** A transaction that would insert an outbox row gets an id no row has yet. */
  predicate Unused(s: State, row: Uuid) {
    row !in s.db.outbox
  }

  ghost predicate Enabled(s: State, step: Step) {
    match step
    case Tick(_) => true
    case Create(nid, row, maxAttempts) =>
      nid !in s.db.notifications && Unused(s, row) && 1 <= maxAttempts <= 20
    case ManualRetry(nid, row) => Unused(s, row)
    case Claim(r, _, limit, locked, events) =>
      && RelayOf(s, r).batch == []
      && IsClaim(s.db.outbox, s.now, limit, locked, EventIds(events))
      && Lists(s.db.outbox, EventIds(events), events)
    case Append(r) => RelayOf(s, r).batch != [] && RelayOf(s, r).phase.Ready?
    case AppendError(r, _, _) => RelayOf(s, r).batch != [] && RelayOf(s, r).phase.Ready?
    case MarkPublished(r) => RelayOf(s, r).batch != [] && RelayOf(s, r).phase.Appended?
    case MarkFailed(r) => RelayOf(s, r).batch != [] && RelayOf(s, r).phase.Refused?
    case RelayCrash(r) => true
    case Read(w, _) =>
      WorkerOf(s, w).batch == [] && WorkerOf(s, w).scan == 0 && s.cursor <= |s.stream|
    case AutoClaim(w, count, minIdle, stop) =>
      var worker := WorkerOf(s, w);
      && worker.batch == []
      && worker.scan <= stop <= |s.stream|
      && (worker.scan < stop || stop == |s.stream|)
      && |IdlePage(s.pel, worker.scan, stop, s.now, minIdle)| <= count
    case AckMalformed(w) =>
      Busy(s, w) && WorkerOf(s, w).phase.Idle? && ParseDeliveryMessage(Current(s, w).values).Malformed?
    case Load(w) =>
      Busy(s, w) && WorkerOf(s, w).phase.Idle? && ParseDeliveryMessage(Current(s, w).values).Good?
    case MarkDelivering(w) => Busy(s, w) && WorkerOf(s, w).phase.Loaded?
    case Deliver(w, _) => Busy(s, w) && WorkerOf(s, w).phase.Marked?
    case Record(w, row) =>
      && Busy(s, w)
      && WorkerOf(s, w).phase.Concluded?
      && (WorkerOf(s, w).phase.conclusion.Reschedules() ==> Unused(s, row))
    case Ack(w) => Busy(s, w) && WorkerOf(s, w).phase.Settled?
    case Abandon(w) => WorkerOf(s, w).batch != []
    case WorkerCrash(w) => true
  }

  // ----- API

  function DoManualRetry(s: State, nid: Uuid, row: Uuid): State {
    var tx := RetryTx(s.db, nid, row, s.now);
    if tx.err.Some? then s else s.(db := tx.db, log := s.log + [WasReset(nid, row)])
  }

  // ----- relay

  function DoClaim(s: State, r: nat, locker: string, events: seq<Event>): State {
    s.(db := ClaimTx(s.db, EventIds(events), locker, s.now),
       relays := s.relays[r := Relay(locker, events, Ready)],
       log := s.log + [WereClaimed(EventIds(events), r, locker, s.now)])
  }

  function EntryFor(event: Event, now: Time): Entry {
    Entry(event, BuildDeliveryMessage(event), now)
  }

  function DoAppend(s: State, r: nat): State
    requires RelayOf(s, r).batch != []
  {
    var relay := RelayOf(s, r);
    s.(stream := s.stream + [EntryFor(relay.batch[0], s.now)],
       relays := s.relays[r := relay.(phase := Appended(|s.stream|))])
  }

  /** The publisher reports an error; the entry may have landed all the same. */
  function DoAppendError(s: State, r: nat, landed: bool, reason: string): State
    requires RelayOf(s, r).batch != []
  {
    var relay := RelayOf(s, r);
    s.(stream := if landed then s.stream + [EntryFor(relay.batch[0], s.now)] else s.stream,
       relays := s.relays[r := relay.(phase := Refused(reason))])
  }

  /** On a lost claim PublishDue returns, dropping the rest of its batch. */
  function DoMarkPublished(s: State, r: nat): State
    requires RelayOf(s, r).batch != [] && RelayOf(s, r).phase.Appended?
  {
    var relay := RelayOf(s, r);
    var tx := MarkPublishedTx(s.db, relay.batch[0].id, relay.phase.streamId, relay.locker);
    if tx.err.Some? then s.(relays := s.relays[r := IDLE_RELAY])
    else s.(db := tx.db, relays := s.relays[r := NextEvent(relay)],
            log := s.log + [WasPublished(relay.batch[0].id)])
  }

  function DoMarkFailed(s: State, r: nat): State
    requires RelayOf(s, r).batch != [] && RelayOf(s, r).phase.Refused?
  {
    var relay := RelayOf(s, r);
    var tx := MarkFailedTx(s.db, relay.batch[0].id, relay.phase.reason, relay.locker);
    if tx.err.Some? then s.(relays := s.relays[r := IDLE_RELAY])
    else s.(db := tx.db, relays := s.relays[r := NextEvent(relay)],
            log := s.log + [WasReleased(relay.batch[0].id)])
  }

  // ----- worker

  function SetWorker(s: State, w: nat, worker: Worker): State {
    s.(workers := s.workers[w := worker])
  }

  function SetPhase(s: State, w: nat, phase: WorkerPhase): State {
    SetWorker(s, w, WorkerOf(s, w).(phase := phase))
  }

  function Skip(s: State, w: nat): State
    requires WorkerOf(s, w).batch != []
  {
    SetWorker(s, w, NextMessage(WorkerOf(s, w)))
  }

  function DoRead(s: State, w: nat, count: nat): State
    requires s.cursor <= |s.stream|
  {
    var page := ReadPage(s, count);
    SetWorker(s.(cursor := s.cursor + |page|, pel := Hand(s.pel, w, page, s.now)),
              w, Worker(page, Idle, 0))
  }

  function DoAutoClaim(s: State, w: nat, minIdle: Time, stop: nat): State {
    var page := IdlePage(s.pel, WorkerOf(s, w).scan, stop, s.now, minIdle);
    SetWorker(s.(pel := Hand(s.pel, w, page, s.now)),
              w, Worker(page, Idle, if stop == |s.stream| then 0 else stop))
  }

  /** XACK of the current entry, then on to the next message. */
  function DoAck(s: State, w: nat): State
    requires WorkerOf(s, w).batch != []
  {
    var position := WorkerOf(s, w).batch[0];
    Skip(s.(pel := s.pel - {position}, acked := s.acked + {position}), w)
  }

  function DoLoad(s: State, w: nat): State
    requires Busy(s, w) && ParseDeliveryMessage(Current(s, w).values).Good?
  {
    var nid := ParseDeliveryMessage(Current(s, w).values).value.nid;
    if nid !in s.db.notifications then Skip(s, w)
    else
      var task := TaskOf(nid, s.db.notifications[nid]);
      SetPhase(s, w, if task.status.Terminal() then Settled else Loaded(task))
  }

  function DoMarkDelivering(s: State, w: nat): State
    requires Busy(s, w) && WorkerOf(s, w).phase.Loaded?
  {
    var task := WorkerOf(s, w).phase.task;
    var tx := MarkDeliveringTx(s.db, task.id);
    if tx.err.Some? then Skip(s, w)
    else SetPhase(s.(db := tx.db, log := s.log + [WasMarked(task.id)]), w, Marked(task))
  }

  function DoDeliver(s: State, w: nat, result: AttemptResult): State
    requires Busy(s, w) && WorkerOf(s, w).phase.Marked?
  {
    var task := WorkerOf(s, w).phase.task;
    SetPhase(s.(log := s.log + [WasDispatched(task.id, result)]), w,
             Concluded(task, Conclude(s.policy, task, result, s.now), s.now))
  }

  function DoRecord(s: State, w: nat, row: Uuid): State
    requires Busy(s, w) && WorkerOf(s, w).phase.Concluded?
  {
    var phase := WorkerOf(s, w).phase;
    var tx := RecordTx(s.db, phase.task.id, phase.conclusion, row, s.now);
    if tx.err.Some? then Skip(s, w)
    else
      var next := if phase.conclusion.Failure? then phase.conclusion.failure.nextAttemptAt else None;
      var added := if phase.conclusion.Reschedules() then Some(row) else None;
      SetPhase(s.(db := tx.db, log := s.log + [WasRecorded(phase.task.id, phase.decidedAt, next, added)]),
               w, Settled)
  }

  function Apply(s: State, step: Step): State
    requires Enabled(s, step)
  {
    match step
    case Tick(d) => s.(now := s.now + d)
    case Create(nid, row, maxAttempts) =>
      s.(db := CreateTx(s.db, nid, row, maxAttempts, s.now), log := s.log + [WasCreated(nid, row)])
    case ManualRetry(nid, row) => DoManualRetry(s, nid, row)
    case Claim(r, locker, _, _, events) => DoClaim(s, r, locker, events)
    case Append(r) => DoAppend(s, r)
    case AppendError(r, landed, reason) => DoAppendError(s, r, landed, reason)
    case MarkPublished(r) => DoMarkPublished(s, r)
    case MarkFailed(r) => DoMarkFailed(s, r)
    case RelayCrash(r) => s.(relays := s.relays[r := IDLE_RELAY])
    case Read(w, count) => DoRead(s, w, count)
    case AutoClaim(w, _, minIdle, stop) => DoAutoClaim(s, w, minIdle, stop)
    case AckMalformed(w) => DoAck(s, w)
    case Load(w) => DoLoad(s, w)
    case MarkDelivering(w) => DoMarkDelivering(s, w)
    case Deliver(w, result) => DoDeliver(s, w, result)
    case Record(w, row) => DoRecord(s, w, row)
    case Ack(w) => DoAck(s, w)
    case Abandon(w) => Skip(s, w)
    case WorkerCrash(w) => SetWorker(s, w, IDLE_WORKER)
  }

  // ----- runs

  ghost predicate Run(s: State, steps: seq<Step>, t: State)
    decreases |steps|
  {
    if steps == [] then t == s
    else Enabled(s, steps[0]) && Run(Apply(s, steps[0]), steps[1..], t)
  }

  ghost predicate Reachable(t: State) {
    exists now, policy, steps :: Run(Initial(now, policy), steps, t)
  }

  lemma {:induction false} RunConcat(s: State, steps: seq<Step>, t: State, more: seq<Step>, u: State)
    requires Run(s, steps, t) && Run(t, more, u)
    ensures Run(s, steps + more, u)
    decreases |steps|
  {
    if steps == [] {
      assert steps + more == more;
    } else {
      RunConcat(Apply(s, steps[0]), steps[1..], t, more, u);
      assert (steps + more)[1..] == steps[1..] + more;
    }
  }

  lemma ReachableStep(s: State, step: Step)
    requires Reachable(s) && Enabled(s, step)
    ensures Reachable(Apply(s, step))
  {
    var now, policy, steps :| Run(Initial(now, policy), steps, s);
    RunConcat(Initial(now, policy), steps, s, [step], Apply(s, step));
  }

  lemma ReachableRun(s: State, steps: seq<Step>, t: State)
    requires Reachable(s) && Run(s, steps, t)
    ensures Reachable(t)
  {
    var now, policy, before :| Run(Initial(now, policy), before, s);
    RunConcat(Initial(now, policy), before, s, steps, t);
  }

  /** A fetch hands its worker the entries, pending from now on, and leaves all others as they are. */
  lemma FetchHands(s: State, step: Step)
    requires Enabled(s, step) && (step.Read? || step.AutoClaim?)
    ensures var t := Apply(s, step);
            && step.w in t.workers && t.workers[step.w].phase == Idle
            && (forall i :: i in t.workers[step.w].batch ==> i in t.pel && t.pel[i] == PendingEntry(step.w, s.now))
            && (forall i :: i in s.pel && i !in t.workers[step.w].batch ==> i in t.pel && t.pel[i] == s.pel[i])
            && (forall i :: i in t.pel ==> i in s.pel || i in t.workers[step.w].batch)
            && t.acked == s.acked && t.db == s.db && t.stream == s.stream
            && (step.Read? ==>
                  var unread := |s.stream| - s.cursor;
                  && t.cursor == s.cursor + (if step.count <= unread then step.count else unread)
                  && forall i :: i in t.workers[step.w].batch <==> s.cursor <= i < t.cursor)
            && (step.AutoClaim? ==>
                  && t.cursor == s.cursor
                  && forall i :: i in t.workers[step.w].batch <==>
                       WorkerOf(s, step.w).scan <= i < step.stop && i in s.pel && s.now - s.pel[i].since >= step.minIdle)
  {
  }

  // ----- views of the log

  /** The outbox row most recently inserted for a notification. */
  function Newest(log: seq<LogItem>, nid: Uuid): Option<Uuid> {
    if log == [] then None
    else
      var rest := Newest(log[..|log| - 1], nid);
      match log[|log| - 1]
      case WasCreated(n, row) => if n == nid then Some(row) else rest
      case WasReset(n, row) => if n == nid then Some(row) else rest
      case WasRecorded(n, _, _, row) => if n == nid && row.Some? then row else rest
      case _ => rest
  }

  function CountMarks(log: seq<LogItem>, nid: Uuid): nat {
    if log == [] then 0
    else CountMarks(log[..|log| - 1], nid) + if log[|log| - 1] == WasMarked(nid) then 1 else 0
  }

  predicate StartsEpoch(item: LogItem, nid: Uuid) {
    (item.WasCreated? || item.WasReset?) && item.nid == nid
  }

  function CountResets(log: seq<LogItem>, nid: Uuid): nat {
    if log == [] then 0
    else
      var last := log[|log| - 1];
      CountResets(log[..|log| - 1], nid) + if last.WasReset? && last.nid == nid then 1 else 0
  }

  /** Successful MarkDelivering calls since the notification's creation or last manual retry. */
  function EpochMarks(log: seq<LogItem>, nid: Uuid): nat {
    if log == [] || StartsEpoch(log[|log| - 1], nid) then 0
    else EpochMarks(log[..|log| - 1], nid) + if log[|log| - 1] == WasMarked(nid) then 1 else 0
  }

  predicate Dispatches(item: LogItem, nid: Uuid) {
    item.WasDispatched? && item.nid == nid
  }

  /** Answered Deliver calls since then. */
  function EpochDispatches(log: seq<LogItem>, nid: Uuid): nat {
    if log == [] || StartsEpoch(log[|log| - 1], nid) then 0
    else EpochDispatches(log[..|log| - 1], nid) + if Dispatches(log[|log| - 1], nid) then 1 else 0
  }

  /** All views of a log that grew by one item. */
  lemma LogAppend(log: seq<LogItem>, item: LogItem, nid: Uuid)
    ensures Newest(log + [item], nid) ==
            match item
            case WasCreated(n, row) => if n == nid then Some(row) else Newest(log, nid)
            case WasReset(n, row) => if n == nid then Some(row) else Newest(log, nid)
            case WasRecorded(n, _, _, row) => if n == nid && row.Some? then row else Newest(log, nid)
            case _ => Newest(log, nid)
    ensures CountMarks(log + [item], nid) == CountMarks(log, nid) + if item == WasMarked(nid) then 1 else 0
    ensures CountResets(log + [item], nid) ==
            CountResets(log, nid) + if item.WasReset? && item.nid == nid then 1 else 0
    ensures EpochMarks(log + [item], nid) ==
            if StartsEpoch(item, nid) then 0
            else EpochMarks(log, nid) + if item == WasMarked(nid) then 1 else 0
    ensures EpochDispatches(log + [item], nid) ==
            if StartsEpoch(item, nid) then 0
            else EpochDispatches(log, nid) + if Dispatches(item, nid) then 1 else 0
  {
    assert (log + [item])[..|log|] == log;
  }
}

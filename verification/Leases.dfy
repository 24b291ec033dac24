/** Leased ownership of outbox rows, and what being published means. */
module Leases {
  import opened Common
  import opened Uuids
  import opened Message
  import opened Retry
  import opened Tables
  import opened Pipeline
  import opened PipelineShape
  import opened PipelineRefinement

  datatype Hold = Hold(relay: nat, locker: string, at: Time)

  predicate Frees(item: LogItem, row: Uuid) {
    (item.WasReleased? || item.WasPublished?) && item.row == row
  }

  predicate Claims(item: LogItem, row: Uuid) {
    item.WereClaimed? && row in item.rows
  }

  /** The latest claim of the row, unless it was released or published since. */
  function LatestClaim(log: seq<LogItem>, row: Uuid): Option<Hold> {
    if log == [] then None
    else
      var last := log[|log| - 1];
      if Claims(last, row) then Some(Hold(last.relay, last.locker, last.at))
      else if Frees(last, row) then None
      else LatestClaim(log[..|log| - 1], row)
  }

  lemma LatestClaimAppend(log: seq<LogItem>, item: LogItem, row: Uuid)
    ensures LatestClaim(log + [item], row) ==
            if Claims(item, row) then Some(Hold(item.relay, item.locker, item.at))
            else if Frees(item, row) then None
            else LatestClaim(log, row)
  {
    assert (log + [item])[..|log|] == log;
  }

  /** A row is publishing exactly while a claim stands, and its lock columns are that claim's. */
  predicate RowHeld(outbox: map<Uuid, OutboxRow>, log: seq<LogItem>, row: Uuid) {
    match LatestClaim(log, row)
    case None => row in outbox ==> !outbox[row].status.OutboxPublishing?
    case Some(hold) =>
      && row in outbox
      && outbox[row].status.OutboxPublishing?
      && outbox[row].lockedBy == hold.locker
      && outbox[row].lockedAt == Some(hold.at)
  }

  ghost predicate LeaseOk(outbox: map<Uuid, OutboxRow>, log: seq<LogItem>) {
    forall row: Uuid :: RowHeld(outbox, log, row)
  }

  /** Every claim in the log was of free rows, or of rows whose lease had lapsed. */
  ghost predicate Spaced(log: seq<LogItem>) {
    log == [] ||
    var rest, last := log[..|log| - 1], log[|log| - 1];
    && Spaced(rest)
    && forall row: Uuid :: Claims(last, row) && LatestClaim(rest, row).Some? ==>
         last.at > LatestClaim(rest, row).value.at + LEASE
  }

  lemma SpacedAppend(log: seq<LogItem>, item: LogItem)
    requires Spaced(log)
    requires forall row: Uuid :: Claims(item, row) && LatestClaim(log, row).Some? ==>
               item.at > LatestClaim(log, row).value.at + LEASE
    ensures Spaced(log + [item])
  {
    assert (log + [item])[..|log|] == log;
  }

  ghost predicate Leased(s: State) {
    LeaseOk(s.db.outbox, s.log) && Spaced(s.log)
  }

  lemma ClaimKeepsLeases(s: State, r: nat, locker: string, limit: int, locked: set<Uuid>, events: seq<Event>)
    requires Leased(s) && Enabled(s, Claim(r, locker, limit, locked, events))
    ensures Leased(DoClaim(s, r, locker, events))
  {
    var t := DoClaim(s, r, locker, events);
    var item := WereClaimed(EventIds(events), r, locker, s.now);
    forall row: Uuid
      ensures RowHeld(t.db.outbox, t.log, row)
      ensures Claims(item, row) && LatestClaim(s.log, row).Some? ==>
                item.at > LatestClaim(s.log, row).value.at + LEASE
    {
      LatestClaimAppend(s.log, item, row);
      assert RowHeld(s.db.outbox, s.log, row);
    }
    SpacedAppend(s.log, item);
  }

  /** A log item that claims nothing keeps the spacing. */
  lemma OtherItemKeepsLeases(s: State, t: State, item: LogItem)
    requires Leased(s) && t.log == s.log + [item] && !item.WereClaimed?
    requires forall row: Uuid :: RowHeld(s.db.outbox, s.log, row) ==> RowHeld(t.db.outbox, s.log + [item], row)
    ensures Leased(t)
  {
    SpacedAppend(s.log, item);
  }

  lemma MarkPublishedKeepsLeases(s: State, r: nat)
    requires Leased(s) && Enabled(s, MarkPublished(r))
    ensures Leased(DoMarkPublished(s, r))
  {
    var relay := RelayOf(s, r);
    if Holds(s.db, relay.batch[0].id, relay.locker) {
      var item := WasPublished(relay.batch[0].id);
      forall row: Uuid {
        LatestClaimAppend(s.log, item, row);
      }
      OtherItemKeepsLeases(s, DoMarkPublished(s, r), item);
    }
  }

  lemma MarkFailedKeepsLeases(s: State, r: nat)
    requires Leased(s) && Enabled(s, MarkFailed(r))
    ensures Leased(DoMarkFailed(s, r))
  {
    var relay := RelayOf(s, r);
    if Holds(s.db, relay.batch[0].id, relay.locker) {
      var item := WasReleased(relay.batch[0].id);
      forall row: Uuid {
        LatestClaimAppend(s.log, item, row);
      }
      OtherItemKeepsLeases(s, DoMarkFailed(s, r), item);
    }
  }

  /** The outbox is as before, or gained one pending row. */
  predicate AtMostInserts(before: map<Uuid, OutboxRow>, after: map<Uuid, OutboxRow>) {
    && (forall id :: id in before ==> id in after && after[id] == before[id])
    && (forall id :: id in after && id !in before ==> after[id].status.OutboxPending?)
  }

  predicate Bystander(item: LogItem) {
    !item.WereClaimed? && !item.WasPublished? && !item.WasReleased?
  }

  lemma BystanderKeepsLeases(s: State, t: State, item: LogItem)
    requires Leased(s) && t.log == s.log + [item] && Bystander(item)
    requires AtMostInserts(s.db.outbox, t.db.outbox)
    ensures Leased(t)
  {
    forall row: Uuid | RowHeld(s.db.outbox, s.log, row)
      ensures RowHeld(t.db.outbox, s.log + [item], row)
    {
      LatestClaimAppend(s.log, item, row);
    }
    OtherItemKeepsLeases(s, t, item);
  }

  lemma RowStepsInsert(s: State, step: Step)
    requires Enabled(s, step)
    requires step.Create? || step.ManualRetry? || step.MarkDelivering? || step.Deliver? || step.Record?
    ensures var t := Apply(s, step);
            && AtMostInserts(s.db.outbox, t.db.outbox)
            && ((t.log == s.log && t.db == s.db) ||
                (|t.log| == |s.log| + 1 && t.log == s.log + [t.log[|s.log|]] && Bystander(t.log[|s.log|])))
  {
  }

  lemma StepKeepsLeases(s: State, step: Step)
    requires Leased(s) && Enabled(s, step)
    ensures Leased(Apply(s, step))
  {
    if Quiet(step) {
      QuietSteps(s, step);
    } else if step.Claim? {
      ClaimKeepsLeases(s, step.r, step.locker, step.limit, step.locked, step.events);
    } else if step.MarkPublished? {
      MarkPublishedKeepsLeases(s, step.r);
    } else if step.MarkFailed? {
      MarkFailedKeepsLeases(s, step.r);
    } else {
      RowStepsInsert(s, step);
      var t := Apply(s, step);
      if t.log != s.log {
        BystanderKeepsLeases(s, t, t.log[|s.log|]);
      }
    }
  }

  lemma {:induction false} RunKeepsLeases(s: State, steps: seq<Step>, t: State)
    requires Leased(s) && Run(s, steps, t)
    ensures Leased(t)
    decreases |steps|
  {
    if steps != [] {
      StepKeepsLeases(s, steps[0]);
      RunKeepsLeases(Apply(s, steps[0]), steps[1..], t);
    }
  }

  lemma ReachableLeased(t: State)
    requires Reachable(t)
    ensures Leased(t)
  {
    var now, policy, steps :| Run(Initial(now, policy), steps, t);
    RunKeepsLeases(Initial(now, policy), steps, t);
  }

  // ----- what the lease gives

  /** While a row is publishing, its lock columns are those of its latest claim; otherwise no claim stands. */
  lemma LockIsLatestClaim(s: State, row: Uuid)
    requires Reachable(s) && row in s.db.outbox
    ensures s.db.outbox[row].status.OutboxPublishing? <==> LatestClaim(s.log, row).Some?
    ensures s.db.outbox[row].status.OutboxPublishing? ==>
              && s.db.outbox[row].lockedBy == LatestClaim(s.log, row).value.locker
              && s.db.outbox[row].lockedAt == Some(LatestClaim(s.log, row).value.at)
  {
    ReachableLeased(s);
    assert RowHeld(s.db.outbox, s.log, row);
  }

  lemma {:induction false} ClaimStands(log: seq<LogItem>, i: nat, row: Uuid)
    requires Spaced(log) && i < |log| && Claims(log[i], row)
    requires forall k :: i < k < |log| ==> !Frees(log[k], row)
    ensures LatestClaim(log, row).Some? && LatestClaim(log, row).value.at >= log[i].at
    decreases |log|
  {
    if i < |log| - 1 {
      ClaimStands(log[..|log| - 1], i, row);
    }
  }

  lemma {:induction false} SpacedPrefix(log: seq<LogItem>, j: nat)
    requires Spaced(log) && j <= |log|
    ensures Spaced(log[..j])
    decreases |log|
  {
    if j < |log| {
      SpacedPrefix(log[..|log| - 1], j);
      assert log[..|log| - 1][..j] == log[..j];
    } else {
      assert log[..j] == log;
    }
  }

  /** Two claims of one row with no release between them are more than five minutes apart. */
  lemma ClaimsFarApart(s: State, i: nat, j: nat, row: Uuid)
    requires Reachable(s) && i < j < |s.log|
    requires Claims(s.log[i], row) && Claims(s.log[j], row)
    requires forall k :: i < k < j ==> !Frees(s.log[k], row)
    ensures s.log[j].at > s.log[i].at + LEASE
  {
    ReachableLeased(s);
    SpacedPrefix(s.log, j + 1);
    SpacedPrefix(s.log, j);
    assert s.log[..j + 1][..j] == s.log[..j];
    ClaimStands(s.log[..j], i, row);
  }

  /**
   * MarkPublished takes effect exactly when the row's latest standing claim
   * bears this relay's locker; otherwise the relay gets ErrLostClaim, nothing
   * changes, and PublishDue gives up its batch.
   */
  lemma MarkPublishedIffHeld(s: State, r: nat)
    requires Reachable(s) && Enabled(s, MarkPublished(r))
    ensures var relay, t := RelayOf(s, r), DoMarkPublished(s, r);
            var hold := LatestClaim(s.log, relay.batch[0].id);
            if hold.Some? && hold.value.locker == relay.locker then
              && t.db.outbox.Keys == s.db.outbox.Keys
              && relay.batch[0].id in s.db.outbox
              && t.db.outbox[relay.batch[0].id].status.OutboxPublished?
              && t.db.outbox[relay.batch[0].id].streamId == Some(relay.phase.streamId)
              && forall id :: id in s.db.outbox && id != relay.batch[0].id ==> t.db.outbox[id] == s.db.outbox[id]
            else t == s.(relays := s.relays[r := IDLE_RELAY])
  {
    ReachableLeased(s);
    assert RowHeld(s.db.outbox, s.log, RelayOf(s, r).batch[0].id);
  }

  lemma MarkFailedIffHeld(s: State, r: nat)
    requires Reachable(s) && Enabled(s, MarkFailed(r))
    ensures var relay, t := RelayOf(s, r), DoMarkFailed(s, r);
            var hold := LatestClaim(s.log, relay.batch[0].id);
            if hold.Some? && hold.value.locker == relay.locker then
              && t.db.outbox.Keys == s.db.outbox.Keys
              && relay.batch[0].id in s.db.outbox
              && t.db.outbox[relay.batch[0].id].status.OutboxPending?
              && t.db.outbox[relay.batch[0].id].lastError == relay.phase.reason
              && forall id :: id in s.db.outbox && id != relay.batch[0].id ==> t.db.outbox[id] == s.db.outbox[id]
            else t == s.(relays := s.relays[r := IDLE_RELAY])
  {
    ReachableLeased(s);
    assert RowHeld(s.db.outbox, s.log, RelayOf(s, r).batch[0].id);
  }

  /** No two relays have ever claimed under one locker id. */
  ghost predicate DistinctLockers(log: seq<LogItem>) {
    forall i, j :: 0 <= i < |log| && 0 <= j < |log| && log[i].WereClaimed? && log[j].WereClaimed? ==>
      log[i].locker == log[j].locker ==> log[i].relay == log[j].relay
  }

  lemma {:induction false} LatestClaimIsLogged(log: seq<LogItem>, row: Uuid)
    requires LatestClaim(log, row).Some?
    ensures exists i :: 0 <= i < |log| && Claims(log[i], row) &&
                        LatestClaim(log, row).value == Hold(log[i].relay, log[i].locker, log[i].at)
  {
    var last := |log| - 1;
    if !Claims(log[last], row) {
      LatestClaimIsLogged(log[..last], row);
      var i :| 0 <= i < last && Claims(log[i], row) &&
               LatestClaim(log, row).value == Hold(log[i].relay, log[i].locker, log[i].at);
    }
  }

  /** A claim of relay r under this locker id is on record. */
  predicate ClaimedAs(log: seq<LogItem>, r: nat, locker: string) {
    exists i :: 0 <= i < |log| && log[i].WereClaimed? && log[i].relay == r && log[i].locker == locker
  }

  /** Every relay with work in hand has claimed under the locker id it now uses. */
  predicate Tenured(s: State) {
    forall r :: r in s.relays && s.relays[r].batch != [] ==> ClaimedAs(s.log, r, s.relays[r].locker)
  }

  lemma ClaimedStill(log: seq<LogItem>, more: seq<LogItem>, r: nat, locker: string)
    requires log <= more && ClaimedAs(log, r, locker)
    ensures ClaimedAs(more, r, locker)
  {
    var i :| 0 <= i < |log| && log[i].WereClaimed? && log[i].relay == r && log[i].locker == locker;
    assert more[i] == log[i];
  }

  lemma StepKeepsBatchOwner(s: State, step: Step, r: nat)
    requires Enabled(s, step) && !(step.Claim? && step.r == r)
    requires r in Apply(s, step).relays && Apply(s, step).relays[r].batch != []
    ensures s.log <= Apply(s, step).log
    ensures r in s.relays && s.relays[r].batch != [] && Apply(s, step).relays[r].locker == s.relays[r].locker
  {
  }

  lemma StepKeepsTenure(s: State, step: Step)
    requires Tenured(s) && Enabled(s, step)
    ensures Tenured(Apply(s, step))
  {
    var t := Apply(s, step);
    forall r | r in t.relays && t.relays[r].batch != []
      ensures ClaimedAs(t.log, r, t.relays[r].locker)
    {
      if step.Claim? && step.r == r {
        assert t.log[|s.log|].WereClaimed?;
      } else {
        StepKeepsBatchOwner(s, step, r);
        ClaimedStill(s.log, t.log, r, s.relays[r].locker);
      }
    }
  }

  lemma {:induction false} RunKeepsTenure(s: State, steps: seq<Step>, t: State)
    requires Tenured(s) && Run(s, steps, t)
    ensures Tenured(t)
    decreases |steps|
  {
    if steps != [] {
      StepKeepsTenure(s, steps[0]);
      RunKeepsTenure(Apply(s, steps[0]), steps[1..], t);
    }
  }

  lemma ReachableTenure(s: State)
    requires Reachable(s)
    ensures Tenured(s)
  {
    var now, policy, steps :| Run(Initial(now, policy), steps, s);
    RunKeepsTenure(Initial(now, policy), steps, s);
  }

  /**
   * Under distinct locker ids a relay whose row is not, or no longer, under its
   * own claim changes nothing through MarkPublished or MarkFailed.
   */
  lemma TakenOverRelayChangesNothing(s: State, r: nat)
    requires Reachable(s) && DistinctLockers(s.log)
    requires Enabled(s, MarkPublished(r)) || Enabled(s, MarkFailed(r))
    requires var hold := LatestClaim(s.log, RelayOf(s, r).batch[0].id);
             hold.None? || hold.value.relay != r
    ensures Enabled(s, MarkPublished(r)) ==> DoMarkPublished(s, r) == s.(relays := s.relays[r := IDLE_RELAY])
    ensures Enabled(s, MarkFailed(r)) ==> DoMarkFailed(s, r) == s.(relays := s.relays[r := IDLE_RELAY])
  {
    var row := RelayOf(s, r).batch[0].id;
    if LatestClaim(s.log, row).Some? {
      LatestClaimIsLogged(s.log, row);
      var i :| 0 <= i < |s.log| && Claims(s.log[i], row) &&
               LatestClaim(s.log, row).value == Hold(s.log[i].relay, s.log[i].locker, s.log[i].at);
      ReachableTenure(s);
      assert ClaimedAs(s.log, r, s.relays[r].locker);
    }
    if Enabled(s, MarkPublished(r)) {
      MarkPublishedIffHeld(s, r);
    } else {
      MarkFailedIffHeld(s, r);
    }
  }

  /**
   * The distinctness is needed: with one shared locker id, such as the fallback
   * "relay", a relay settles a row that another relay has taken over.
   */
  lemma SharedLockerSettlesTakenOverRow()
    ensures exists s: State ::
              && Reachable(s) && Enabled(s, MarkPublished(0))
              && LatestClaim(s.log, RelayOf(s, 0).batch[0].id).Some?
              && LatestClaim(s.log, RelayOf(s, 0).batch[0].id).value.relay == 1
              && DoMarkPublished(s, 0).db.outbox != s.db.outbox
  {
    var t := TakenOver();
    ReachableStep(t, Append(0));
    var u := Apply(t, Append(0));
    assert u.log == t.log && u.db == t.db;
    assert RelayOf(u, 0).batch == RelayOf(t, 0).batch;
    assert Holds(u.db, RelayOf(u, 0).batch[0].id, RelayOf(u, 0).locker);
  }

  /** Relay 1 has taken the row over from relay 0, which has not noticed. */
  lemma TakenOver() returns (t: State)
    ensures Reachable(t) && Enabled(t, Append(0))
    ensures LatestClaim(t.log, RelayOf(t, 0).batch[0].id) == Some(Hold(1, "relay", t.now))
    ensures RelayOf(t, 0).locker == "relay" && Holds(t.db, RelayOf(t, 0).batch[0].id, "relay")
  {
    var events := [Event(9, 7, EVENT_TYPE_NOTIFICATION_DELIVERY, 0)];
    var s := LapsedClaim(events);
    OnlyRowIsClaim(s, 9, events);
    ReachableStep(s, Claim(1, "relay", 1, {}, events));
    t := Apply(s, Claim(1, "relay", 1, {}, events));
    assert events[0] in events && 9 in EventIds(events);
    LatestClaimAppend(s.log, WereClaimed(EventIds(events), 1, "relay", s.now), 9);
  }

  /** Relay 0 claimed the only row and then stalled until its lease lapsed. */
  lemma LapsedClaim(events: seq<Event>) returns (s: State)
    requires events == [Event(9, 7, EVENT_TYPE_NOTIFICATION_DELIVERY, 0)]
    ensures Reachable(s) && s.db.outbox.Keys == {9} && Eligible(s.db.outbox[9], s.now)
    ensures EventOf(9, s.db.outbox[9]) == events[0]
    ensures s.relays == map[0 := Relay("relay", events, Ready)]
  {
    var s0 := Initial(0, DEFAULT_RETRY_POLICY);
    assert Run(s0, [], s0);
    ReachableStep(s0, Create(7, 9, 5));
    var s1 := Apply(s0, Create(7, 9, 5));
    assert s1.db.outbox == map[9 := NewOutboxRow(7, 0, 0)];
    OnlyRowIsClaim(s1, 9, events);
    ReachableStep(s1, Claim(0, "relay", 1, {}, events));
    var s2 := DoClaim(s1, 0, "relay", events);
    assert s2 == Apply(s1, Claim(0, "relay", 1, {}, events));
    assert events[0] in events && 9 in EventIds(events);
    assert s2.db.outbox.Keys == {9};
    ReachableStep(s2, Tick(LEASE + 1));
    s := Apply(s2, Tick(LEASE + 1));
  }

  lemma OnlyRowIsClaim(s: State, id: Uuid, events: seq<Event>)
    requires s.db.outbox.Keys == {id} && Eligible(s.db.outbox[id], s.now)
    requires events == [EventOf(id, s.db.outbox[id])]
    ensures IsClaim(s.db.outbox, s.now, 1, {}, EventIds(events)) && Lists(s.db.outbox, EventIds(events), events)
  {
    assert events[0] in events;
    assert EventIds(events) == {id};
    assert EligibleRows(s.db.outbox, s.now) - {} == {id};
  }

  // ----- publication

  /** A published row is never touched again. */
  lemma StepKeepsPublished(s: State, step: Step, id: Uuid)
    requires Enabled(s, step) && id in s.db.outbox && s.db.outbox[id].status.OutboxPublished?
    ensures id in Apply(s, step).db.outbox && Apply(s, step).db.outbox[id] == s.db.outbox[id]
  {
    if Quiet(step) {
      QuietSteps(s, step);
    } else if !(step.Claim? || step.MarkPublished? || step.MarkFailed?) {
      RowStepsInsert(s, step);
    }
  }

  lemma {:induction false} PublishedIsAbsorbing(s: State, steps: seq<Step>, t: State, id: Uuid)
    requires Run(s, steps, t) && id in s.db.outbox && s.db.outbox[id].status.OutboxPublished?
    ensures id in t.db.outbox && t.db.outbox[id] == s.db.outbox[id]
    decreases |steps|
  {
    if steps != [] {
      StepKeepsPublished(s, steps[0], id);
      PublishedIsAbsorbing(Apply(s, steps[0]), steps[1..], t, id);
    }
  }

  /**
   * A published row's stream_id names an entry whose message bears exactly that
   * row's id and notification id.
   */
  lemma PublishedRowIsInStream(s: State, id: Uuid)
    requires Reachable(s) && id in s.db.outbox && s.db.outbox[id].status.OutboxPublished?
    ensures s.db.outbox[id].streamId.Some? && s.db.outbox[id].streamId.value < |s.stream|
    ensures var parsed := ParseDeliveryMessage(s.stream[s.db.outbox[id].streamId.value].values);
            parsed.Good? && parsed.value.outboxEventId == id && parsed.value.nid == s.db.outbox[id].nid
  {
    ReachableInv(s);
    var entry := s.stream[s.db.outbox[id].streamId.value];
    assert EntryOk(s.db.outbox, entry, s.now);
    ParseInvertsBuild(entry.event);
  }

  /** Nothing is published early: every entry names a row, and was appended once that row was due. */
  lemma NoEarlyPublish(s: State, i: nat)
    requires Reachable(s) && i < |s.stream|
    ensures s.stream[i].event.id in s.db.outbox
    ensures s.db.outbox[s.stream[i].event.id].scheduledAt <= s.stream[i].appendedAt <= s.now
  {
    ReachableInv(s);
    assert EntryOk(s.db.outbox, s.stream[i], s.now);
  }
}

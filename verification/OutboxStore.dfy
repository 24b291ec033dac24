/**
 * The outbox store of internal/outbox/postgres_store.go and the relay loop of
 * internal/outbox/relay.go over mutable tables and a mutable stream.
 */
module OutboxStore {
  import opened Common
  import opened Uuids
  import opened Message
  import opened Tables
  import opened Claiming
  import opened Repository
  import opened Pipeline

  class PostgresStore {
    const db: Database

    constructor (db: Database)
      ensures this.db == db
    {
      this.db := db;
    }

    /**
     * `locked` are the rows other open transactions hold, which SKIP LOCKED
     * passes over. A claim whose reply is lost has locked its rows all the same.
     */
    method ClaimDue(limit: int, locker: string, locked: set<Uuid>, now: Time)
      returns (err: Option<Error>, events: seq<Event>)
      modifies db
      ensures db.faults == old(db.faults) + FaultCount(err)
      ensures err.None? ==>
                && IsClaim(old(db.outbox), now, limit, locked, EventIds(events))
                && Lists(old(db.outbox), EventIds(events), events)
                && db.Contents() == ClaimTx(old(db.Contents()), EventIds(events), locker, now)
      ensures err.None? ==>
                var due, most := DueRows(old(db.outbox), now, locked), if limit > 0 then limit else 50;
                && EventIds(events) <= due && |events| <= most
                && (EventIds(events) == due || |events| == most)
                && forall p, q :: p in EventIds(events) && q in due && q !in EventIds(events) ==>
                     var a, b := old(db.outbox)[p], old(db.outbox)[q];
                     a.scheduledAt < b.scheduledAt || (a.scheduledAt == b.scheduledAt && a.createdAt <= b.createdAt)
      ensures err.None? ==> ClaimedAs(old(db.outbox), db.outbox, events, locker, now)
      ensures err.Some? ==> Faulted(err) && events == []
      ensures err.Some? ==> ClaimCutShort(old(db.Contents()), db.Contents(), limit, locker, locked, now)
    {
      events := [];
      var saved := db.Contents();
      var lim := limit;
      if lim <= 0 {
        lim := 50;
      }
      var picked;
      err, picked := LockFirst(lim, locker, locked, now);
      SameLimit(saved.outbox, now, limit, lim, locked, picked);
      if err.Some? {
        return;
      }
      err, events := Returning(picked);
      if err.Some? {
        return err, [];
      }
      LockedList(saved, picked, events, locker, now);
      ClaimMeaning(saved.outbox, now, limit, locked, picked);
      DistinctCount(events);
    }

    /** The statement itself: select the first rows and lock them. */
    method LockFirst(lim: nat, locker: string, locked: set<Uuid>, now: Time)
      returns (err: Option<Error>, picked: set<Uuid>)
      requires lim > 0
      modifies db
      ensures db.faults == old(db.faults) + FaultCount(err)
      ensures err.None? || Faulted(err)
      ensures IsClaim(old(db.outbox), now, lim, locked, picked)
      ensures err.None? ==> db.Contents() == ClaimTx(old(db.Contents()), picked, locker, now)
      ensures err.Some? ==>
                db.Contents() == old(db.Contents()) || db.Contents() == ClaimTx(old(db.Contents()), picked, locker, now)
    {
      var saved := db.Contents();
      picked := SelectFirst(lim, locked, now);
      db.outbox := map id | id in db.outbox ::
        if id in picked then LockRow(db.outbox[id], locker, now) else db.outbox[id];
      assert db.Contents() == ClaimTx(saved, picked, locker, now);
      err := db.Commit(saved);
    }

    /** The RETURNING clause and the rows loop that collects it. */
    method Returning(picked: set<Uuid>) returns (err: Option<Error>, events: seq<Event>)
      requires picked <= db.outbox.Keys
      modifies db`faults
      ensures db.faults == old(db.faults) + FaultCount(err)
      ensures err.None? ==> Lists(db.outbox, picked, events)
      ensures err.None? || Faulted(err)
    {
      events := [];
      var todo := picked;
      while todo != {}
        invariant todo <= picked && db.faults == old(db.faults)
        invariant Lists(db.outbox, picked - todo, events)
        decreases todo
      {
        err := db.Send();
        if err.Some? {
          return;
        }
        var id :| id in todo;
        ListNext(db.outbox, picked - todo, events, id);
        events := events + [EventOf(id, db.outbox[id])];
        assert picked - todo + {id} == picked - (todo - {id});
        todo := todo - {id};
      }
      assert picked - todo == picked;
      err := db.Send();
    }

    /** The WITH clause: the first `lim` unlocked eligible rows in claim order. */
    method SelectFirst(lim: nat, locked: set<Uuid>, now: Time) returns (picked: set<Uuid>)
      requires lim > 0
      ensures IsClaim(db.outbox, now, lim, locked, picked)
    {
      picked := {};
      var left := set id | id in db.outbox && Eligible(db.outbox[id], now) && id !in locked;
      assert left == EligibleRows(db.outbox, now) - locked;
      while left != {} && |picked| < lim
        invariant picked !! left && picked + left == EligibleRows(db.outbox, now) - locked
        invariant |picked| <= lim
        invariant Precedes(db.outbox, picked, left)
        decreases left
      {
        ghost var least := FirstRow(db.outbox, left);
        var first :| first in left && forall q :: q in left ==> !Before(db.outbox[q], db.outbox[first]);
        PickNext(db.outbox, picked, left, first);
        picked, left := picked + {first}, left - {first};
      }
      assert EligibleRows(db.outbox, now) - locked - picked == left;
    }

    method MarkPublished(id: Uuid, streamId: nat, locker: string) returns (err: Option<Error>)
      modifies db
      ensures db.faults == old(db.faults) + FaultCount(err)
      ensures !Faulted(err) ==> err.None? || err == Some(ErrLostClaim)
      ensures !Faulted(err) ==>
                (err.None? <==>
                   id in old(db.outbox) && old(db.outbox)[id].status == OutboxPublishing && old(db.outbox)[id].lockedBy == locker)
      ensures err.None? ==>
                && db.outbox == old(db.outbox)[id := old(db.outbox)[id].(
                     status := OutboxPublished, streamId := Some(streamId), lockedBy := "", lockedAt := None)]
                && db.notifications == old(db.notifications) && db.attempts == old(db.attempts)
      ensures !Faulted(err) ==> Tx(db.Contents(), err) == MarkPublishedTx(old(db.Contents()), id, streamId, locker)
      ensures Faulted(err) ==>
                db.Contents() == old(db.Contents()) || db.Contents() == MarkPublishedTx(old(db.Contents()), id, streamId, locker).db
    {
      var saved := db.Contents();
      var affected := 0;
      if id in db.outbox && db.outbox[id].status == OutboxPublishing && db.outbox[id].lockedBy == locker {
        db.outbox := db.outbox[id :=
          db.outbox[id].(status := OutboxPublished, streamId := Some(streamId), lockedBy := "", lockedAt := None)];
        affected := 1;
      }
      err := db.Commit(saved);
      if err.Some? {
        return;
      }
      err := RequireOneRow(affected);
    }

    method MarkFailed(id: Uuid, reason: string, locker: string) returns (err: Option<Error>)
      modifies db
      ensures db.faults == old(db.faults) + FaultCount(err)
      ensures !Faulted(err) ==> err.None? || err == Some(ErrLostClaim)
      ensures !Faulted(err) ==>
                (err.None? <==>
                   id in old(db.outbox) && old(db.outbox)[id].status == OutboxPublishing && old(db.outbox)[id].lockedBy == locker)
      ensures err.None? ==>
                && db.outbox == old(db.outbox)[id := old(db.outbox)[id].(
                     status := OutboxPending, lastError := reason, lockedBy := "", lockedAt := None)]
                && db.notifications == old(db.notifications) && db.attempts == old(db.attempts)
      ensures !Faulted(err) ==> Tx(db.Contents(), err) == MarkFailedTx(old(db.Contents()), id, reason, locker)
      ensures Faulted(err) ==>
                db.Contents() == old(db.Contents()) || db.Contents() == MarkFailedTx(old(db.Contents()), id, reason, locker).db
    {
      var saved := db.Contents();
      var affected := 0;
      if id in db.outbox && db.outbox[id].status == OutboxPublishing && db.outbox[id].lockedBy == locker {
        db.outbox := db.outbox[id :=
          db.outbox[id].(status := OutboxPending, lastError := reason, lockedBy := "", lockedAt := None)];
        affected := 1;
      }
      err := db.Commit(saved);
      if err.Some? {
        return;
      }
      err := RequireOneRow(affected);
    }

    /** The count of affected rows may be unavailable. */
    method RequireOneRow(affected: nat) returns (err: Option<Error>)
      modifies db`faults
      ensures db.faults == old(db.faults) + FaultCount(err)
      ensures Faulted(err) || err == if affected == 1 then None else Some(ErrLostClaim)
    {
      err := db.Send();
      if err.Some? {
        return;
      }
      if affected != 1 {
        return Some(ErrLostClaim);
      }
      return None;
    }

    /** Other relays and the API commit `changes` to the outbox. */
    method Yield(changes: map<Uuid, OutboxRow>)
      modifies db`outbox
      ensures db.outbox == old(db.outbox) + changes
    {
      db.outbox := db.outbox + changes;
    }
  }

  /** The events describe their rows, which are now locked to the claimer, once each; no other row has changed. */
  ghost predicate ClaimedAs(before: map<Uuid, OutboxRow>, after: map<Uuid, OutboxRow>, events: seq<Event>,
                            locker: string, now: Time) {
    && (forall i, j :: 0 <= i < j < |events| ==> events[i].id != events[j].id)
    && (forall e :: e in events ==>
          && e.id in before && e.id in after
          && var row := before[e.id];
             && e == Event(e.id, row.nid, row.eventType, row.scheduledAt)
             && after[e.id] == row.(status := OutboxPublishing, lockedBy := locker, lockedAt := Some(now), lastError := ""))
    && after.Keys == before.Keys
    && (forall id :: id in before && (forall e :: e in events ==> e.id != id) ==> after[id] == before[id])
  }

  /** What others commit to the outbox while a relay is at work, by the turn of its loop before which they do. */
  type Rivals = nat -> map<Uuid, OutboxRow>

  /** The rows they have changed or added before turn n. */
  function Touched(rivals: Rivals, n: nat): set<Uuid> {
    if n == 0 then {} else Touched(rivals, n - 1) + rivals(n - 1).Keys
  }

  lemma {:induction false} NobodyTouches(rivals: Rivals, n: nat)
    requires forall k: nat :: k < n ==> rivals(k) == map[]
    ensures Touched(rivals, n) == {}
  {
    if n > 0 {
      NobodyTouches(rivals, n - 1);
    }
  }

  /** What a failed claim leaves behind: nothing, or a claim its caller does not know of. */
  ghost predicate ClaimCutShort(before: Db, after: Db, limit: int, locker: string, locked: set<Uuid>, now: Time) {
    || after == before
    || exists picked :: IsClaim(before.outbox, now, limit, locked, picked) && after == ClaimTx(before, picked, locker, now)
  }

  /** The stream, and what the publisher was asked and answered. */
  datatype Published = Published(entries: seq<Entry>, calls: seq<Event>, answers: seq<Option<string>>)

  /** The Redis stream, as its publisher sees it; `calls` and `answers` list what was asked and reported. */
  class Publisher {
    var entries: seq<Entry>
    var calls: seq<Event>
    var answers: seq<Option<string>>

    constructor ()
      ensures entries == [] && calls == [] && answers == []
    {
      entries, calls, answers := [], [], [];
    }

    function Log(): Published
      reads this
    {
      Published(entries, calls, answers)
    }

    /**
     * XADD: appends and answers the entry's position, or reports an error, having
     * appended or not. Others may have appended before, and time may have passed.
     */
    method Publish(event: Event, since: Time) returns (streamId: nat, err: Option<string>)
      modifies this
      ensures calls == old(calls) + [event] && answers == old(answers) + [err]
      ensures old(entries) <= entries
      ensures err.None? ==> |old(entries)| <= streamId < |entries| && IsEntryFor(entries[streamId], event, since)
    {
      var others: seq<Entry>, wait: nat, landed: bool := *, *, *;
      entries := entries + others;
      streamId := |entries|;
      err := *;
      if err.None? || landed {
        entries := entries + [EntryFor(event, since + wait)];
      }
      calls, answers := calls + [event], answers + [err];
    }
  }

  predicate IsEntryFor(entry: Entry, event: Event, since: Time) {
    entry == EntryFor(event, entry.appendedAt) && entry.appendedAt >= since
  }

  /** How a row ends up once the publisher has answered and the relay has marked it. */
  predicate SettledRow(row: OutboxRow, event: Event, entries: seq<Entry>, from: nat, answer: Option<string>, now: Time) {
    match answer
    case None =>
      && row.status.OutboxPublished?
      && row.streamId.Some?
      && from <= row.streamId.value < |entries|
      && IsEntryFor(entries[row.streamId.value], event, now)
    case Some(reason) =>
      row.status.OutboxPending? && row.lastError == reason && row.lockedBy == "" && row.lockedAt.None?
  }

  class Relay {
    const store: PostgresStore
    const publisher: Publisher
    const batchSize: int
    const locker: string

    /** Empty settings fall back to a batch of 50 and the locker id "relay". */
    constructor (store: PostgresStore, publisher: Publisher, batchSize: int, locker: string)
      ensures this.store == store && this.publisher == publisher
      ensures this.batchSize == if batchSize <= 0 then 50 else batchSize
      ensures this.locker == if locker == "" then "relay" else locker
    {
      this.store := store;
      this.publisher := publisher;
      this.batchSize := if batchSize <= 0 then 50 else batchSize;
      this.locker := if locker == "" then "relay" else locker;
    }

    /**
     * One event: publish it, then mark its row published or failed. The claim is
     * lost exactly if the row is no longer held, and then no row changes.
     */
    method Settle(event: Event, now: Time) returns (err: Option<Error>, ghost answer: Option<string>)
      modifies store.db, publisher
      ensures store.db.faults == old(store.db.faults) + FaultCount(err)
      ensures old(publisher.entries) <= publisher.entries
      ensures publisher.calls == old(publisher.calls) + [event] && publisher.answers == old(publisher.answers) + [answer]
      ensures err == Some(ErrLostClaim) ==> store.db.outbox == old(store.db.outbox)
      ensures !Faulted(err) ==> (err.None? <==> Holds(old(store.db.Contents()), event.id, locker))
      ensures err.None? || Faulted(err) || err == Some(ErrLostClaim)
      ensures err.None? || store.db.outbox != old(store.db.outbox) ==>
                RowSettled(old(store.db.outbox), store.db.outbox, event, publisher.entries, |old(publisher.entries)|, answer, now)
    {
      var streamId, publishErr := publisher.Publish(event, now);
      answer := publishErr;
      if publishErr.Some? {
        err := store.MarkFailed(event.id, publishErr.value, locker);
      } else {
        err := store.MarkPublished(event.id, streamId, locker);
      }
    }

    /** One turn of PublishDue's loop: others commit, then event k is settled. */
    method Turn(ghost before: map<Uuid, OutboxRow>, events: seq<Event>, k: nat, ghost start: Published,
                ghost answers: seq<Option<string>>, rivals: Rivals, now: Time)
      returns (err: Option<Error>, ghost answer: Option<string>)
      requires k < |events| && |answers| == k && Lists(before, EventIds(events), events)
      requires LoopAt(before, store.db.outbox, events, k, start, publisher.Log(), answers, rivals, locker, now)
      modifies store.db, publisher
      ensures store.db.faults == old(store.db.faults) + FaultCount(err)
      ensures err.None? || Faulted(err) || err == Some(ErrLostClaim)
      ensures err == Some(ErrLostClaim) ==> events[k].id in Touched(rivals, k + 1)
      ensures LoopAt(before, store.db.outbox, events, if err.None? then k + 1 else k,
                     start, publisher.Log(), answers + [answer], rivals, locker, now)
    {
      ghost var kept, log := store.db.outbox, publisher.Log();
      store.Yield(rivals(k));
      ghost var outbox := store.db.outbox;
      err, answer := Settle(events[k], now);
      LoopNext(before, kept, outbox, store.db.outbox, events, k, start, log, publisher.Log(), answers, answer,
               rivals, locker, now);
    }

    /**
     * Batch accounting. `rivals` says what others commit to the outbox before each
     * turn of the loop, `claimed` is the batch, `settled` how far the loop got and
     * `answers` what the publisher said. Of the rows the others left alone, every
     * one before `settled` is published with an entry of its own where the
     * publisher succeeded and back to pending with its reason where it did not;
     * every one the publisher was not asked about is exactly as claimed; every row
     * outside the batch is as before. The call succeeds only with the whole batch
     * settled; after an error at one event no later one is published; a claim is
     * lost only on a row the others changed, and all other errors are failures of
     * the database.
     */
    method PublishDue(locked: set<Uuid>, rivals: Rivals, now: Time)
      returns (err: Option<Error>, ghost claimed: seq<Event>, ghost settled: nat, ghost answers: seq<Option<string>>)
      modifies store.db, publisher
      ensures store.db.faults == old(store.db.faults) + FaultCount(err)
      ensures settled <= |answers| <= |claimed|
      ensures err.None? ==> settled == |claimed|
      ensures err.Some? ==> answers == [] || |answers| == settled + 1
      ensures err.Some? && answers == [] ==>
                && Faulted(err) && claimed == [] && publisher.Log() == old(publisher.Log())
                && ClaimCutShort(old(store.db.Contents()), store.db.Contents(), batchSize, locker, locked, now)
      ensures err.None? || answers != [] ==>
                var due, most := DueRows(old(store.db.outbox), now, locked), if batchSize > 0 then batchSize else 50;
                && EventIds(claimed) <= due && |claimed| <= most
                && (EventIds(claimed) == due || |claimed| == most)
      ensures err.None? || answers != [] ==>
                && IsClaim(old(store.db.outbox), now, batchSize, locked, EventIds(claimed))
                && Lists(old(store.db.outbox), EventIds(claimed), claimed)
                && LoopAt(old(store.db.outbox), store.db.outbox, claimed, settled,
                          old(publisher.Log()), publisher.Log(), answers, rivals, locker, now)
      ensures forall j :: 0 <= j < settled && claimed[j].id !in Touched(rivals, |answers|) ==>
                && claimed[j].id in store.db.outbox
                && var row := store.db.outbox[claimed[j].id];
                   match answers[j]
                   case None =>
                     && row.status == OutboxPublished && row.streamId.Some?
                     && |old(publisher.entries)| <= row.streamId.value < |publisher.entries|
                     && publisher.entries[row.streamId.value].values == BuildDeliveryMessage(claimed[j])
                   case Some(reason) =>
                     row.status == OutboxPending && row.lastError == reason && row.lockedBy == "" && row.lockedAt.None?
      ensures err.None? || Faulted(err) || err == Some(ErrLostClaim)
      ensures err == Some(ErrLostClaim) ==> settled < |claimed| && claimed[settled].id in Touched(rivals, |answers|)
    {
      var events;
      claimed, settled, answers := [], 0, [];
      ghost var was := store.db.Contents();
      err, events := store.ClaimDue(batchSize, locker, locked, now);
      if err.Some? {
        return;
      }
      claimed := events;
      ClaimedRows(was, events, publisher.Log(), rivals, locker, now);
      err, settled, answers := PublishClaimed(was.outbox, events, rivals, now);
    }

    /** PublishDue's loop over the batch it has just claimed. */
    method PublishClaimed(ghost before: map<Uuid, OutboxRow>, events: seq<Event>, rivals: Rivals, now: Time)
      returns (err: Option<Error>, ghost settled: nat, ghost answers: seq<Option<string>>)
      requires Lists(before, EventIds(events), events)
      requires LoopAt(before, store.db.outbox, events, 0, publisher.Log(), publisher.Log(), [], rivals, locker, now)
      modifies store.db, publisher
      ensures store.db.faults == old(store.db.faults) + FaultCount(err)
      ensures settled <= |answers| <= |events|
      ensures err.None? ==> settled == |events|
      ensures err.Some? ==> |answers| == settled + 1
      ensures err.None? || Faulted(err) || err == Some(ErrLostClaim)
      ensures err == Some(ErrLostClaim) ==> events[settled].id in Touched(rivals, |answers|)
      ensures LoopAt(before, store.db.outbox, events, settled,
                     old(publisher.Log()), publisher.Log(), answers, rivals, locker, now)
    {
      settled, answers, err := 0, [], None;
      for k := 0 to |events|
        invariant settled == k == |answers| && err.None? && store.db.faults == old(store.db.faults)
        invariant LoopAt(before, store.db.outbox, events, k,
                         old(publisher.Log()), publisher.Log(), answers, rivals, locker, now)
      {
        ghost var answer;
        err, answer := Turn(before, events, k, old(publisher.Log()), answers, rivals, now);
        answers := answers + [answer];
        if err.Some? {
          return;
        }
        settled := settled + 1;
      }
    }
  }

  /** Exactly the event's row changed, and it is settled as answered. */
  predicate RowSettled(before: map<Uuid, OutboxRow>, after: map<Uuid, OutboxRow>, event: Event,
                       entries: seq<Entry>, from: nat, answer: Option<string>, now: Time) {
    && event.id in before && event.id in after
    && after == before[event.id := after[event.id]]
    && SettledRow(after[event.id], event, entries, from, answer, now)
  }

  /** The publisher was asked for the first events of the batch, in order, and answered so. */
  predicate Tried(start: Published, end: Published, events: seq<Event>, answers: seq<Option<string>>) {
    && |answers| <= |events|
    && start.entries <= end.entries
    && end.calls == start.calls + events[..|answers|]
    && end.answers == start.answers + answers
  }

  lemma TriedNext(start: Published, log: Published, end: Published, events: seq<Event>,
                  answers: seq<Option<string>>, answer: Option<string>)
    requires Tried(start, log, events, answers) && |answers| < |events|
    requires log.entries <= end.entries
    requires end.calls == log.calls + [events[|answers|]] && end.answers == log.answers + [answer]
    ensures Tried(start, end, events, answers + [answer])
  {
    assert events[..|answers| + 1] == events[..|answers|] + [events[|answers|]];
  }

  /** PublishDue's loop with `k` events settled and |answers| published, the publisher having gone from start to end. */
  predicate LoopAt(before: map<Uuid, OutboxRow>, outbox: map<Uuid, OutboxRow>, events: seq<Event>, k: nat,
                   start: Published, end: Published, answers: seq<Option<string>>, rivals: Rivals,
                   locker: string, now: Time) {
    && k <= |answers| && Tried(start, end, events, answers)
    && BatchAt(before, outbox, events, k, end.entries, |start.entries|, answers, Touched(rivals, |answers|), locker, now)
  }

  /**
   * The batch after `k` settled events and |answers| published ones: of the
   * untouched rows, those settled are as answered, one that was published but not
   * settled for sure may be either, the rest are as claimed, and all others as before.
   */
  predicate BatchAt(before: map<Uuid, OutboxRow>, outbox: map<Uuid, OutboxRow>, events: seq<Event>, k: nat,
                    entries: seq<Entry>, from: nat, answers: seq<Option<string>>, touched: set<Uuid>,
                    locker: string, now: Time)
    requires k <= |answers| <= |events|
  {
    && (forall id :: id in before ==> id in outbox)
    && (forall j :: 0 <= j < |events| ==> events[j].id in before)
    && (forall j :: 0 <= j < |events| && events[j].id !in touched ==>
          RowAt(outbox[events[j].id], LockRow(before[events[j].id], locker, now), events[j], entries, from,
                if j < |answers| then Some(answers[j]) else None, j < k, now))
    && (forall id :: id in before && id !in EventIds(events) && id !in touched ==> outbox[id] == before[id])
  }

  predicate RowAt(row: OutboxRow, claimed: OutboxRow, event: Event, entries: seq<Entry>, from: nat,
                  answer: Option<Option<string>>, settled: bool, now: Time) {
    || (answer.Some? && SettledRow(row, event, entries, from, answer.value, now))
    || (!settled && row == claimed)
  }

  lemma RowStays(row: OutboxRow, claimed: OutboxRow, event: Event, entries: seq<Entry>, more: seq<Entry>, from: nat,
                 answer: Option<Option<string>>, settled: bool, now: Time)
    requires entries <= more && RowAt(row, claimed, event, entries, from, answer, settled, now)
    ensures RowAt(row, claimed, event, more, from, answer, settled, now)
  {
  }

  /** Others' commits are accounted for by the rows they touch. */
  lemma BatchYields(before: map<Uuid, OutboxRow>, outbox: map<Uuid, OutboxRow>, outbox': map<Uuid, OutboxRow>,
                    events: seq<Event>, k: nat, entries: seq<Entry>, from: nat, answers: seq<Option<string>>,
                    touched: set<Uuid>, others: set<Uuid>, locker: string, now: Time)
    requires k <= |answers| <= |events|
    requires BatchAt(before, outbox, events, k, entries, from, answers, touched, locker, now)
    requires forall id :: id in outbox ==> id in outbox' && (id !in others ==> outbox'[id] == outbox[id])
    ensures BatchAt(before, outbox', events, k, entries, from, answers, touched + others, locker, now)
  {
  }

  lemma BatchOthers(before: map<Uuid, OutboxRow>, events: seq<Event>, k: nat)
    requires k < |events| && Lists(before, EventIds(events), events)
    ensures events[k].id in before && events[k].id in EventIds(events)
    ensures forall j :: 0 <= j < |events| && j != k ==> events[j].id != events[k].id
  {
    assert events[k] in events;
  }

  /** Event k has been tried: its row, if changed, is settled as answered, and no other has changed. */
  lemma BatchTries(before: map<Uuid, OutboxRow>, outbox: map<Uuid, OutboxRow>, outbox': map<Uuid, OutboxRow>,
                   events: seq<Event>, k: nat, entries: seq<Entry>, more: seq<Entry>, from: nat,
                   answers: seq<Option<string>>, touched: set<Uuid>, locker: string, now: Time)
    requires k < |events| && |answers| == k + 1 && entries <= more && from <= |entries|
    requires Lists(before, EventIds(events), events)
    requires BatchAt(before, outbox, events, k, entries, from, answers[..k], touched, locker, now)
    requires outbox' == outbox || RowSettled(outbox, outbox', events[k], more, |entries|, answers[k], now)
    ensures BatchAt(before, outbox', events, k, more, from, answers, touched, locker, now)
  {
    BatchOthers(before, events, k);
    forall j | 0 <= j < |events| && events[j].id !in touched
      ensures RowAt(outbox'[events[j].id], LockRow(before[events[j].id], locker, now), events[j], more, from,
                    if j < |answers| then Some(answers[j]) else None, j < k, now)
    {
      RowStays(outbox[events[j].id], LockRow(before[events[j].id], locker, now), events[j], entries, more, from,
               if j < k then Some(answers[..k][j]) else None, j < k, now);
    }
  }

  /** Event k has been tried and marked. */
  lemma BatchAdvances(before: map<Uuid, OutboxRow>, outbox: map<Uuid, OutboxRow>, outbox': map<Uuid, OutboxRow>,
                      events: seq<Event>, k: nat, entries: seq<Entry>, more: seq<Entry>, from: nat,
                      answers: seq<Option<string>>, touched: set<Uuid>, locker: string, now: Time)
    requires k < |events| && |answers| == k + 1 && from <= |entries|
    requires BatchAt(before, outbox', events, k, more, from, answers, touched, locker, now)
    requires RowSettled(outbox, outbox', events[k], more, |entries|, answers[k], now)
    ensures BatchAt(before, outbox', events, k + 1, more, from, answers, touched, locker, now)
  {
  }

  /**
   * One turn of the loop: others commit, then event k is tried. If it was settled
   * the batch has advanced; and unless others touched its row, it was still held.
   */
  lemma BatchTurn(before: map<Uuid, OutboxRow>, kept: map<Uuid, OutboxRow>, outbox: map<Uuid, OutboxRow>,
                  outbox': map<Uuid, OutboxRow>, events: seq<Event>, k: nat, entries: seq<Entry>, more: seq<Entry>,
                  from: nat, answers: seq<Option<string>>, answer: Option<string>,
                  touched: set<Uuid>, others: set<Uuid>, locker: string, now: Time)
    requires k < |events| && |answers| == k && entries <= more && from <= |entries|
    requires Lists(before, EventIds(events), events)
    requires BatchAt(before, kept, events, k, entries, from, answers, touched, locker, now)
    requires forall id :: id in kept ==> id in outbox && (id !in others ==> outbox[id] == kept[id])
    requires outbox' == outbox || RowSettled(outbox, outbox', events[k], more, |entries|, answer, now)
    ensures BatchAt(before, outbox', events, k, more, from, answers + [answer], touched + others, locker, now)
    ensures RowSettled(outbox, outbox', events[k], more, |entries|, answer, now) ==>
              BatchAt(before, outbox', events, k + 1, more, from, answers + [answer], touched + others, locker, now)
    ensures events[k].id !in touched + others ==>
              events[k].id in outbox && outbox[events[k].id].status.OutboxPublishing? && outbox[events[k].id].lockedBy == locker
  {
    var answers' := answers + [answer];
    assert answers'[..k] == answers;
    BatchYields(before, kept, outbox, events, k, entries, from, answers, touched, others, locker, now);
    BatchTries(before, outbox, outbox', events, k, entries, more, from, answers', touched + others, locker, now);
    if RowSettled(outbox, outbox', events[k], more, |entries|, answer, now) {
      BatchAdvances(before, outbox, outbox', events, k, entries, more, from, answers', touched + others, locker, now);
    }
  }

  /** One turn of the loop takes it one event further, or to where it ends. */
  lemma LoopNext(before: map<Uuid, OutboxRow>, kept: map<Uuid, OutboxRow>, outbox: map<Uuid, OutboxRow>,
                 outbox': map<Uuid, OutboxRow>, events: seq<Event>, k: nat, start: Published, log: Published,
                 end: Published, answers: seq<Option<string>>, answer: Option<string>, rivals: Rivals,
                 locker: string, now: Time)
    requires k < |events| && |answers| == k && Lists(before, EventIds(events), events)
    requires LoopAt(before, kept, events, k, start, log, answers, rivals, locker, now)
    requires outbox == kept + rivals(k)
    requires log.entries <= end.entries && end.calls == log.calls + [events[k]] && end.answers == log.answers + [answer]
    requires outbox' == outbox || RowSettled(outbox, outbox', events[k], end.entries, |log.entries|, answer, now)
    ensures LoopAt(before, outbox', events, k, start, end, answers + [answer], rivals, locker, now)
    ensures RowSettled(outbox, outbox', events[k], end.entries, |log.entries|, answer, now) ==>
              LoopAt(before, outbox', events, k + 1, start, end, answers + [answer], rivals, locker, now)
    ensures events[k].id !in Touched(rivals, k + 1) ==>
              events[k].id in outbox && outbox[events[k].id].status.OutboxPublishing? && outbox[events[k].id].lockedBy == locker
  {
    TriedNext(start, log, end, events, answers, answer);
    BatchTurn(before, kept, outbox, outbox', events, k, log.entries, end.entries, |start.entries|,
              answers, answer, Touched(rivals, k), rivals(k).Keys, locker, now);
  }

  /** Right after the claim, exactly the claimed rows are locked. */
  lemma ClaimedRows(before: Db, events: seq<Event>, log: Published, rivals: Rivals, locker: string, now: Time)
    requires Lists(before.outbox, EventIds(events), events)
    ensures LoopAt(before.outbox, ClaimTx(before, EventIds(events), locker, now).outbox, events, 0,
                   log, log, [], rivals, locker, now)
  {
    var after := ClaimTx(before, EventIds(events), locker, now).outbox;
    forall j | 0 <= j < |events|
      ensures events[j].id in before.outbox
      ensures after[events[j].id] == LockRow(before.outbox[events[j].id], locker, now)
    {
      BatchOthers(before.outbox, events, j);
    }
  }

  /** A limit that is not positive counts as 50. */
  lemma SameLimit(outbox: map<Uuid, OutboxRow>, now: Time, limit: int, lim: nat, locked: set<Uuid>, picked: set<Uuid>)
    requires lim == EffectiveLimit(limit) && IsClaim(outbox, now, lim, locked, picked)
    ensures IsClaim(outbox, now, limit, locked, picked)
  {
  }

  /** Locking rows does not change what RETURNING reports of them. */
  lemma LockedList(before: Db, picked: set<Uuid>, events: seq<Event>, locker: string, now: Time)
    requires picked <= before.outbox.Keys
    requires Lists(ClaimTx(before, picked, locker, now).outbox, picked, events)
    ensures Lists(before.outbox, picked, events) && EventIds(events) == picked
  {
    var after := ClaimTx(before, picked, locker, now).outbox;
    forall e | e in events
      ensures e.id in before.outbox && e == EventOf(e.id, before.outbox[e.id])
    {
      assert e.id in after.Keys;
    }
  }
}

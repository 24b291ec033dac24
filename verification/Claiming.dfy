/** There is always a claim to make: the selection behind ClaimDue exists. */
module Claiming {
  import opened Common
  import opened Uuids
  import opened Message
  import opened Tables

  /** The rows a relay may claim: due, not locked by another transaction, and pending or locked for over five minutes. */
  function DueRows(outbox: map<Uuid, OutboxRow>, now: Time, locked: set<Uuid>): set<Uuid> {
    set id | id in outbox && id !in locked && outbox[id].scheduledAt <= now &&
             (|| outbox[id].status == OutboxPending
              || (&& outbox[id].status == OutboxPublishing
                  && outbox[id].lockedAt.Some? && now - outbox[id].lockedAt.value > 5 * 60 * 1_000_000_000))
  }

  /**
   * The claim as documented: of the rows that may be claimed all, or as many as
   * the limit (50 if it is not positive) and then first by scheduled_at and
   * created_at.
   */
  lemma ClaimMeaning(outbox: map<Uuid, OutboxRow>, now: Time, limit: int, locked: set<Uuid>, picked: set<Uuid>)
    ensures IsClaim(outbox, now, limit, locked, picked) <==>
              var due, most := DueRows(outbox, now, locked), if limit > 0 then limit else 50;
              && picked <= due && |picked| <= most && (picked == due || |picked| == most)
              && forall p, q :: p in picked && q in due && q !in picked ==>
                   var a, b := outbox[p], outbox[q];
                   a.scheduledAt < b.scheduledAt || (a.scheduledAt == b.scheduledAt && a.createdAt <= b.createdAt)
  {
    assert DueRows(outbox, now, locked) == EligibleRows(outbox, now) - locked;
  }

  /** Events with different ids are as many as their ids. */
  lemma {:induction false} DistinctCount(events: seq<Event>)
    requires forall i, j :: 0 <= i < j < |events| ==> events[i].id != events[j].id
    ensures |set e | e in events :: e.id| == |events|
  {
    if events != [] {
      var last := |events| - 1;
      DistinctCount(events[..last]);
      var ids, all := set e | e in events[..last] :: e.id, set e | e in events :: e.id;
      assert events == events[..last] + [events[last]];
      assert all == ids + {events[last].id};
      assert events[last].id !in ids;
    }
  }

  /** Some row of a nonempty set comes before all others, up to ties. */
  lemma {:induction false} FirstRow(outbox: map<Uuid, OutboxRow>, ids: set<Uuid>) returns (first: Uuid)
    requires ids != {} && ids <= outbox.Keys
    ensures first in ids && forall q :: q in ids ==> !Before(outbox[q], outbox[first])
    decreases |ids|
  {
    var one :| one in ids;
    first := one;
    var rest := ids - {one};
    if rest != {} {
      var other := FirstRow(outbox, rest);
      if Before(outbox[other], outbox[one]) {
        first := other;
      }
    }
    forall q | q in ids
      ensures !Before(outbox[q], outbox[first])
    {
      assert q == one || q in rest;
    }
  }

  /** `picked` may precede everything still `left`. */
  predicate Precedes(outbox: map<Uuid, OutboxRow>, picked: set<Uuid>, left: set<Uuid>)
    requires picked <= outbox.Keys && left <= outbox.Keys
  {
    forall p, q :: p in picked && q in left ==> !Before(outbox[q], outbox[p])
  }

  lemma PickNext(outbox: map<Uuid, OutboxRow>, picked: set<Uuid>, left: set<Uuid>, first: Uuid)
    requires picked <= outbox.Keys && left <= outbox.Keys && Precedes(outbox, picked, left)
    requires first in left && forall q :: q in left ==> !Before(outbox[q], outbox[first])
    ensures Precedes(outbox, picked + {first}, left - {first})
  {
  }

  lemma ListNext(outbox: map<Uuid, OutboxRow>, picked: set<Uuid>, events: seq<Event>, id: Uuid)
    requires Lists(outbox, picked, events) && id in outbox && id !in picked
    ensures Lists(outbox, picked + {id}, events + [EventOf(id, outbox[id])])
  {
    var more := events + [EventOf(id, outbox[id])];
    forall i, j | 0 <= i < j < |more|
      ensures more[i].id != more[j].id
    {
      assert more[i] == events[i] && events[i] in events;
      if j < |events| {
        assert more[j] == events[j];
      }
    }
    forall x | x in picked + {id}
      ensures exists e :: e in more && e.id == x
    {
      if x == id {
        assert more[|events|] in more;
      } else {
        var e :| e in events && e.id == x;
        assert e in more;
      }
    }
  }

  /** Whatever rows are due, some batch of them is a claim. */
  lemma SomeClaim(outbox: map<Uuid, OutboxRow>, now: Time, limit: int) returns (picked: set<Uuid>, events: seq<Event>)
    ensures IsClaim(outbox, now, limit, {}, picked) && Lists(outbox, picked, events)
  {
    var open := EligibleRows(outbox, now);
    var left := open;
    picked, events := {}, [];
    while left != {} && |picked| < EffectiveLimit(limit)
      invariant picked !! left && picked + left == open
      invariant |picked| <= EffectiveLimit(limit)
      invariant Precedes(outbox, picked, left)
      invariant Lists(outbox, picked, events)
      decreases left
    {
      var first := FirstRow(outbox, left);
      PickNext(outbox, picked, left, first);
      ListNext(outbox, picked, events, first);
      events := events + [EventOf(first, outbox[first])];
      picked, left := picked + {first}, left - {first};
    }
    assert open - {} == open && open - picked == left;
  }
}

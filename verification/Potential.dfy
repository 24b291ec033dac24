/** How many dispatches the notifications can still cost, and room for the rows these may need. */
module Potential {
  import opened Uuids
  import opened Tables

  /** Attempts left before the notification is out of budget or already done. */
  function Weight(n: Notification): nat {
    if n.status.Terminal() || n.attemptCount >= n.maxAttempts then 0 else n.maxAttempts - n.attemptCount
  }

  ghost function Total(notifications: map<Uuid, Notification>): nat
    decreases |notifications|
  {
    if notifications == map[] then 0
    else
      var id :| id in notifications;
      Weight(notifications[id]) + Total(notifications - {id})
  }

  lemma {:induction false} TotalSplit(notifications: map<Uuid, Notification>, id: Uuid)
    requires id in notifications
    ensures Total(notifications) == Weight(notifications[id]) + Total(notifications - {id})
    decreases |notifications|
  {
    var first :| first in notifications && Total(notifications) == Weight(notifications[first]) + Total(notifications - {first});
    if first != id {
      TotalSplit(notifications - {first}, id);
      TotalSplit(notifications - {id}, first);
      assert notifications - {first} - {id} == notifications - {id} - {first};
    }
  }

  lemma TotalUpdate(notifications: map<Uuid, Notification>, id: Uuid, n: Notification)
    requires id in notifications
    ensures Total(notifications[id := n]) == Total(notifications) - Weight(notifications[id]) + Weight(n)
  {
    TotalSplit(notifications, id);
    TotalSplit(notifications[id := n], id);
    assert notifications[id := n] - {id} == notifications - {id};
  }

  /** At least `k` row ids are still unused. */
  ghost predicate Room(used: set<Uuid>, k: nat) {
    exists pool: set<Uuid> :: |pool| >= k && pool !! used
  }

  lemma RoomShrinks(used: set<Uuid>, k: nat, id: Uuid)
    requires Room(used, k) && k > 0
    ensures Room(used + {id}, k - 1)
  {
    var pool: set<Uuid> :| |pool| >= k && pool !! used;
    assert |pool - {id}| >= k - 1 && (pool - {id}) !! (used + {id});
  }

  lemma RoomLess(used: set<Uuid>, k: nat, fewer: nat)
    requires Room(used, k) && fewer <= k
    ensures Room(used, fewer)
  {
  }

  lemma RoomHasId(used: set<Uuid>, k: nat) returns (id: Uuid)
    requires Room(used, k) && k > 0
    ensures id !in used
  {
    var pool: set<Uuid> :| |pool| >= k && pool !! used;
    id :| id in pool;
  }
}

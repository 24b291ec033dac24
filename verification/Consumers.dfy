/**
 * The consumer loops of internal/stream/redis.go over a mutable consumer group:
 * group read, paged auto-claim, and ack only after the processor has returned nil.
 */
module Consumers {
  import opened Common
  import opened Uuids
  import opened Message
  import opened Pipeline

  /** The processor behind its interface: any outcome, one per call. */
  class Handler {
    var calls: seq<Uuid>
    var answers: seq<bool>

    constructor ()
      ensures calls == [] && answers == []
    {
      calls, answers := [], [];
    }

    method Process(nid: Uuid) returns (ok: bool)
      modifies this
      ensures calls == old(calls) + [nid] && answers == old(answers) + [ok]
    {
      ok := *;
      calls, answers := calls + [nid], answers + [ok];
    }
  }

  /** The client sends no COUNT unless it is positive: XREADGROUP then reads everything, XAUTOCLAIM claims 100. */
  function ReadCount(count: int, unread: nat): (n: nat)
    ensures n <= unread
  {
    if 0 < count <= unread then count else unread
  }

  function ClaimCount(count: int): (n: nat)
    ensures n > 0
  {
    if count <= 0 then 100 else count
  }

  /** A stream with one consumer group, counting its XACK, XREADGROUP and XAUTOCLAIM calls that failed. */
  class Group {
    var stream: seq<Values>
    var cursor: nat
    var pel: map<nat, PendingEntry>
    var acked: set<nat>
    var ackFaults: nat
    var readFaults: nat
    var claimFaults: nat

    predicate Valid()
      reads this
    {
      && cursor <= |stream|
      && forall i :: i in pel ==> i < cursor
    }

    method XAck(i: nat) returns (err: Option<Error>)
      requires Valid()
      modifies this`pel, this`acked, this`ackFaults
      ensures Valid()
      ensures err.None? ==> pel == old(pel) - {i} && acked == old(acked) + {i} && ackFaults == old(ackFaults)
      ensures err.Some? ==> pel == old(pel) && acked == old(acked) && ackFaults == old(ackFaults) + 1
    {
      if * {
        ackFaults := ackFaults + 1;
        return Some(ErrTransport("xack"));
      }
      pel, acked := pel - {i}, acked + {i};
      return None;
    }

    /** XREADGROUP with id ">": the next entries nobody in the group has been given. */
    method XReadGroup(consumer: nat, count: int, now: Time) returns (err: Option<Error>, page: seq<nat>)
      requires Valid()
      modifies this`cursor, this`pel, this`readFaults
      ensures Valid() && readFaults == old(readFaults) + FaultCount(err)
      ensures err.None? || Faulted(err)
      ensures err.Some? ==> page == [] && cursor == old(cursor) && pel == old(pel)
      ensures err.None? ==>
                && |page| == ReadCount(count, |stream| - old(cursor))
                && (forall k :: 0 <= k < |page| ==> page[k] == old(cursor) + k)
                && cursor == old(cursor) + |page|
                && pel == Hand(old(pel), consumer, page, now)
    {
      if * {
        readFaults := readFaults + 1;
        return Some(ErrTransport("xreadgroup")), [];
      }
      var first := cursor;
      var k := ReadCount(count, |stream| - first);
      page := seq(k, i requires 0 <= i => first + i);
      RangeMembers(page, first);
      cursor, pel := first + k, Hand(pel, consumer, page, now);
      return None, page;
    }

    /**
     * XAUTOCLAIM: one page of at most `count` entries idle long enough from
     * `start` on, however far the server cares to look, and where to go on;
     * 0 says the scan is complete.
     */
    method XAutoClaim(consumer: nat, minIdle: Time, start: nat, count: int, now: Time)
      returns (err: Option<Error>, page: seq<nat>, next: nat, ghost stop: nat)
      requires Valid() && start <= |stream|
      modifies this`pel, this`claimFaults
      ensures Valid() && claimFaults == old(claimFaults) + FaultCount(err)
      ensures err.None? || Faulted(err)
      ensures err.Some? ==> pel == old(pel) && page == []
      ensures err.None? ==>
                && start <= stop <= |stream|
                && page == IdlePage(old(pel), start, stop, now, minIdle) && |page| <= ClaimCount(count)
                && pel == Hand(old(pel), consumer, page, now)
                && (next == 0 ==> stop == |stream|)
      ensures start <= stop <= |stream| && (next == 0 || (next == stop && start < stop))
    {
      stop := start;
      if * {
        claimFaults := claimFaults + 1;
        return Some(ErrTransport("xautoclaim")), [], 0, stop;
      }
      var at := start;
      var more := true;
      while at < |stream| && (more || at == start) && |IdlePage(pel, start, at, now, minIdle)| < ClaimCount(count)
        invariant start <= at <= |stream|
        invariant |IdlePage(pel, start, at, now, minIdle)| <= ClaimCount(count)
        decreases |stream| - at
      {
        at := at + 1;
        more := *;
      }
      page := IdlePage(pel, start, at, now, minIdle);
      pel := Hand(pel, consumer, page, now);
      return None, page, if at == |stream| then 0 else at, at;
    }
  }

  /** Whom a message is for; nobody if it is malformed. */
  function AddresseeOf(values: Values): Option<Uuid> {
    match ParseDeliveryMessage(values)
    case Malformed(_) => None
    case Good(message) => Some(message.nid)
  }

  /** A relay-published message is for the notification of its event. */
  lemma AddresseeOfBuilt(event: Event)
    ensures AddresseeOf(BuildDeliveryMessage(event)) == Some(event.nid)
  {
    ParseInvertsBuild(event);
  }

  predicate InStream(stream: seq<Values>, page: seq<nat>) {
    forall k :: 0 <= k < |page| ==> page[k] < |stream|
  }

  function Addressees(stream: seq<Values>, page: seq<nat>): seq<Option<Uuid>>
    requires InStream(stream, page)
  {
    seq(|page|, k requires 0 <= k < |page| => AddresseeOf(stream[page[k]]))
  }

  /** The notifications the processor is asked to process for a page with these addressees, in order. */
  function Asked(addressees: seq<Option<Uuid>>): seq<Uuid> {
    if addressees == [] then []
    else
      var last := |addressees| - 1;
      Asked(addressees[..last]) + if addressees[last].Some? then [addressees[last].value] else []
  }

  /**
   * Whether message k deserves an ack: it is malformed, or the processor
   * accepted it. The processor answers the well-formed ones in turn.
   */
  predicate Deserves(addressees: seq<Option<Uuid>>, answers: seq<bool>, k: nat)
    requires k < |addressees|
  {
    addressees[k].None? || Accepted(answers, |Asked(addressees[..k])|)
  }

  predicate Accepted(answers: seq<bool>, turn: nat) {
    turn < |answers| && answers[turn]
  }

  function Deserving(addressees: seq<Option<Uuid>>, answers: seq<bool>): (outcomes: seq<bool>)
    ensures |outcomes| == |addressees|
  {
    seq(|addressees|, k requires 0 <= k < |addressees| => Deserves(addressees, answers, k))
  }

  /** Whatever is true in `a` is true in `b`. */
  predicate Within(a: seq<bool>, b: seq<bool>) {
    |a| == |b| && forall k :: 0 <= k < |a| && a[k] ==> b[k]
  }

  /** The positions in `page` whose outcome is true. */
  function Winners(page: seq<nat>, outcomes: seq<bool>): (won: set<nat>)
    requires |page| == |outcomes|
    ensures forall i :: i in won <==> exists k :: 0 <= k < |page| && outcomes[k] && page[k] == i
  {
    set k | 0 <= k < |page| && outcomes[k] :: page[k]
  }

  /** How many of the first n deserve an ack and did not get it. */
  function Missed(outcomes: seq<bool>, deserved: seq<bool>, n: nat): nat
    requires n <= |outcomes| && n <= |deserved|
  {
    if n == 0 then 0 else Missed(outcomes, deserved, n - 1) + if deserved[n - 1] && !outcomes[n - 1] then 1 else 0
  }

  lemma {:induction false} MissedBefore(a: seq<bool>, b: seq<bool>, c: seq<bool>, d: seq<bool>, n: nat)
    requires |a| == |c| && |b| == |d| && n <= |a|
    ensures Missed(a + b, c + d, n) == Missed(a, c, n)
  {
    if n > 0 {
      MissedBefore(a, b, c, d, n - 1);
    }
  }

  lemma {:induction false} MissedConcat(a: seq<bool>, b: seq<bool>, c: seq<bool>, d: seq<bool>, n: nat)
    requires |a| == |c| && |b| == |d| && n <= |b|
    ensures Missed(a + b, c + d, |a| + n) == Missed(a, c, |a|) + Missed(b, d, n)
  {
    if n == 0 {
      MissedBefore(a, b, c, d, |a|);
    } else {
      MissedConcat(a, b, c, d, n - 1);
    }
  }

  lemma {:induction false} MissedNone(outcomes: seq<bool>, deserved: seq<bool>, n: nat)
    requires n <= |outcomes| && n <= |deserved| && Missed(outcomes, deserved, n) == 0
    ensures forall k :: 0 <= k < n && deserved[k] ==> outcomes[k]
  {
    if n > 0 {
      MissedNone(outcomes, deserved, n - 1);
    }
  }

  /**
   * What a loop over such a page has done, its k-th message having ended in
   * outcome k (true means acked, no error): nothing undeserved is acked, and each
   * deserved ack that is missing is one of the `faults` failing XACK calls.
   */
  predicate Worked(addressees: seq<Option<Uuid>>, outcomes: seq<bool>, answers: seq<bool>, faults: int) {
    && |answers| == |Asked(addressees)|
    && Within(outcomes, Deserving(addressees, answers))
    && Missed(outcomes, Deserving(addressees, answers), |outcomes|) == faults
  }

  /** With no failing XACK, acked are exactly the malformed messages and those the processor accepted. */
  lemma FaultlessWork(addressees: seq<Option<Uuid>>, outcomes: seq<bool>, answers: seq<bool>)
    requires Worked(addressees, outcomes, answers, 0)
    ensures |outcomes| == |addressees|
    ensures forall k :: 0 <= k < |outcomes| ==> (outcomes[k] <==> Deserves(addressees, answers, k))
  {
    MissedNone(outcomes, Deserving(addressees, answers), |outcomes|);
  }

  /** Working a page and then another is working their concatenation. */
  lemma WorkedConcat(a: seq<Option<Uuid>>, b: seq<Option<Uuid>>, outcomes: seq<bool>, more: seq<bool>,
                     answers: seq<bool>, later: seq<bool>, f: int, g: int)
    requires Worked(a, outcomes, answers, f) && Worked(b, more, later, g)
    ensures Worked(a + b, outcomes + more, answers + later, f + g)
  {
    AskedConcat(a, b);
    DeservingConcat(a, b, answers, later);
    MissedConcat(outcomes, more, Deserving(a, answers), Deserving(b, later), |more|);
  }

  lemma AddresseesConcat(stream: seq<Values>, a: seq<nat>, b: seq<nat>)
    requires InStream(stream, a) && InStream(stream, b)
    ensures InStream(stream, a + b)
    ensures Addressees(stream, a + b) == Addressees(stream, a) + Addressees(stream, b)
  {
  }

  lemma {:induction false} AskedConcat(a: seq<Option<Uuid>>, b: seq<Option<Uuid>>)
    ensures Asked(a + b) == Asked(a) + Asked(b)
    decreases |b|
  {
    if b == [] {
      assert a + b == a;
    } else {
      var last := |b| - 1;
      AskedConcat(a, b[..last]);
      assert (a + b)[..|a| + last] == a + b[..last];
    }
  }

  lemma DeservingConcat(a: seq<Option<Uuid>>, b: seq<Option<Uuid>>, answers: seq<bool>, later: seq<bool>)
    requires |answers| == |Asked(a)|
    ensures Deserving(a + b, answers + later) == Deserving(a, answers) + Deserving(b, later)
  {
    forall k | 0 <= k < |a|
      ensures Deserves(a + b, answers + later, k) <==> Deserves(a, answers, k)
    {
      DeservesBefore(a, b, answers, later, k);
    }
    forall k | |a| <= k < |a + b|
      ensures Deserves(a + b, answers + later, k) <==> Deserves(b, later, k - |a|)
    {
      DeservesAfter(a, b, answers, later, k - |a|);
    }
  }

  /** The processor's answer to a well-formed message is among those to its page. */
  lemma {:induction false} TurnInRange(addressees: seq<Option<Uuid>>, k: nat)
    requires k < |addressees| && addressees[k].Some?
    ensures |Asked(addressees[..k])| < |Asked(addressees)|
    decreases |addressees|
  {
    var last := |addressees| - 1;
    if k < last {
      assert addressees[..last][..k] == addressees[..k];
      TurnInRange(addressees[..last], k);
    }
  }

  lemma DeservesBefore(a: seq<Option<Uuid>>, b: seq<Option<Uuid>>, answers: seq<bool>, later: seq<bool>, k: nat)
    requires k < |a| && |answers| == |Asked(a)|
    ensures Deserves(a + b, answers + later, k) <==> Deserves(a, answers, k)
  {
    assert (a + b)[..k] == a[..k];
    if a[k].Some? {
      TurnInRange(a, k);
    }
  }

  lemma DeservesAfter(a: seq<Option<Uuid>>, b: seq<Option<Uuid>>, answers: seq<bool>, later: seq<bool>, k: nat)
    requires k < |b| && |answers| == |Asked(a)|
    ensures Deserves(a + b, answers + later, |a| + k) <==> Deserves(b, later, k)
  {
    assert (a + b)[..|a| + k] == a + b[..k];
    AskedConcat(a, b[..k]);
    AcceptedAfter(answers, later, |Asked(b[..k])|);
  }

  lemma AcceptedAfter(answers: seq<bool>, later: seq<bool>, turn: nat)
    ensures Accepted(answers + later, |answers| + turn) <==> Accepted(later, turn)
  {
  }

  lemma WinnersConcat(a: seq<nat>, b: seq<nat>, outcomes: seq<bool>, more: seq<bool>)
    requires |a| == |outcomes| && |b| == |more|
    ensures Winners(a + b, outcomes + more) == Winners(a, outcomes) + Winners(b, more)
  {
    forall i | i in Winners(a, outcomes)
      ensures i in Winners(a + b, outcomes + more)
    {
      var k :| 0 <= k < |a| && outcomes[k] && a[k] == i;
      assert (outcomes + more)[k] && (a + b)[k] == i;
    }
    forall i | i in Winners(b, more)
      ensures i in Winners(a + b, outcomes + more)
    {
      var k :| 0 <= k < |b| && more[k] && b[k] == i;
      assert (outcomes + more)[|a| + k] && (a + b)[|a| + k] == i;
    }
  }

  lemma {:induction false} IdlePageConcat(pel: map<nat, PendingEntry>, lo: nat, mid: nat, hi: nat, now: Time, minIdle: Time)
    requires lo <= mid <= hi
    ensures IdlePage(pel, lo, hi, now, minIdle) ==
            IdlePage(pel, lo, mid, now, minIdle) + IdlePage(pel, mid, hi, now, minIdle)
    decreases hi
  {
    if mid < hi {
      IdlePageConcat(pel, lo, mid, hi - 1, now, minIdle);
    }
  }

  lemma {:induction false} IdlePageSame(a: map<nat, PendingEntry>, b: map<nat, PendingEntry>,
                                        lo: nat, hi: nat, now: Time, minIdle: Time)
    requires forall i :: lo <= i < hi ==> (i in a <==> i in b)
    requires forall i :: lo <= i < hi && i in a ==> a[i] == b[i]
    ensures IdlePage(a, lo, hi, now, minIdle) == IdlePage(b, lo, hi, now, minIdle)
    decreases hi
  {
    if lo < hi {
      IdlePageSame(a, b, lo, hi - 1, now, minIdle);
    }
  }

  lemma SlicesConcat(a: seq<bool>, b: seq<bool>, c: seq<bool>)
    requires a <= b <= c
    ensures a <= c && c[|a|..] == b[|a|..] + c[|b|..]
  {
  }

  /** The page consists of the messages a relay builds from these events. */
  predicate Built(stream: seq<Values>, page: seq<nat>, events: seq<Event>) {
    && InStream(stream, page) && |events| == |page|
    && forall k :: 0 <= k < |page| ==> stream[page[k]] == BuildDeliveryMessage(events[k])
  }

  function NidsOf(events: seq<Event>): seq<Uuid> {
    seq(|events|, k requires 0 <= k < |events| => events[k].nid)
  }

  lemma {:induction false} AskedAll(addressees: seq<Option<Uuid>>, events: seq<Event>)
    requires |addressees| == |events|
    requires forall k :: 0 <= k < |events| ==> addressees[k] == Some(events[k].nid)
    ensures Asked(addressees) == NidsOf(events)
    decreases |events|
  {
    if events != [] {
      var last := |events| - 1;
      AskedAll(addressees[..last], events[..last]);
      assert NidsOf(events) == NidsOf(events[..last]) + [events[last].nid];
    }
  }

  /** For a page of relay-published messages the processor is asked for their notifications, one by one. */
  lemma BuiltPage(stream: seq<Values>, page: seq<nat>, events: seq<Event>)
    requires Built(stream, page, events)
    ensures Asked(Addressees(stream, page)) == NidsOf(events)
  {
    forall k | 0 <= k < |page|
      ensures Addressees(stream, page)[k] == Some(events[k].nid)
    {
      AddresseeOfBuilt(events[k]);
    }
    AskedAll(Addressees(stream, page), events);
  }

  /** And each of them deserves its ack exactly if its own call was answered so. */
  lemma BuiltPageDeserves(stream: seq<Values>, page: seq<nat>, events: seq<Event>, answers: seq<bool>, k: nat)
    requires Built(stream, page, events) && k < |page| && |answers| == |page|
    ensures Deserves(Addressees(stream, page), answers, k) <==> answers[k]
  {
    AddresseeOfBuilt(events[k]);
    assert Built(stream, page[..k], events[..k]);
    BuiltPage(stream, page[..k], events[..k]);
    assert Addressees(stream, page)[..k] == Addressees(stream, page[..k]);
  }

  /** What can be seen of a consumer's doings: processor calls and answers, acks, and XACK calls that failed. */
  datatype Account = Account(calls: seq<Uuid>, answers: seq<bool>, acked: set<nat>, ackFaults: nat)

  /**
   * The books before and after a loop that worked `page`: the processor was
   * called once for each well-formed message in order, exactly the messages with
   * outcome true were acked, none was acked that does not deserve it, and as many
   * are missing as XACK calls failed.
   */
  ghost predicate Accounted(stream: seq<Values>, page: seq<nat>, outcomes: seq<bool>, before: Account, after: Account) {
    && before.answers <= after.answers
    && InStream(stream, page) && |outcomes| == |page|
    && Worked(Addressees(stream, page), outcomes, after.answers[|before.answers|..], after.ackFaults - before.ackFaults)
    && after.calls == before.calls + Asked(Addressees(stream, page))
    && after.acked == before.acked + Winners(page, outcomes)
  }

  lemma AccountedCalls(stream: seq<Values>, page: seq<nat>, outcomes: seq<bool>, before: Account, after: Account)
    requires Accounted(stream, page, outcomes, before, after)
    ensures forall events :: Built(stream, page, events) ==> after.calls == before.calls + NidsOf(events)
  {
    forall events | Built(stream, page, events)
      ensures after.calls == before.calls + NidsOf(events)
    {
      BuiltPage(stream, page, events);
    }
  }

  lemma PagesConcat(stream: seq<Values>, a: seq<nat>, b: seq<nat>, outcomes: seq<bool>, more: seq<bool>,
                    answers: seq<bool>, later: seq<bool>, f: int, g: int)
    requires InStream(stream, a) && InStream(stream, b)
    requires Worked(Addressees(stream, a), outcomes, answers, f) && Worked(Addressees(stream, b), more, later, g)
    ensures InStream(stream, a + b) && Worked(Addressees(stream, a + b), outcomes + more, answers + later, f + g)
    ensures Asked(Addressees(stream, a + b)) == Asked(Addressees(stream, a)) + Asked(Addressees(stream, b))
  {
    AddresseesConcat(stream, a, b);
    AskedConcat(Addressees(stream, a), Addressees(stream, b));
    WorkedConcat(Addressees(stream, a), Addressees(stream, b), outcomes, more, answers, later, f, g);
  }

  lemma AccountedConcat(stream: seq<Values>, a: seq<nat>, b: seq<nat>, outcomes: seq<bool>, more: seq<bool>,
                        before: Account, between: Account, after: Account)
    requires Accounted(stream, a, outcomes, before, between)
    requires Accounted(stream, b, more, between, after)
    ensures Accounted(stream, a + b, outcomes + more, before, after)
  {
    WorkAccounted(stream, a, b, outcomes, more, before, between, after);
    WinnersConcat(a, b, outcomes, more);
  }

  lemma WorkAccounted(stream: seq<Values>, a: seq<nat>, b: seq<nat>, outcomes: seq<bool>, more: seq<bool>,
                      before: Account, between: Account, after: Account)
    requires Accounted(stream, a, outcomes, before, between)
    requires Accounted(stream, b, more, between, after)
    ensures before.answers <= after.answers && InStream(stream, a + b)
    ensures Worked(Addressees(stream, a + b), outcomes + more, after.answers[|before.answers|..],
                   after.ackFaults - before.ackFaults)
    ensures after.calls == before.calls + Asked(Addressees(stream, a + b))
  {
    SlicesConcat(before.answers, between.answers, after.answers);
    PagesConcat(stream, a, b, outcomes, more, between.answers[|before.answers|..], after.answers[|between.answers|..],
                between.ackFaults - before.ackFaults, after.ackFaults - between.ackFaults);
  }

  predicate AllTrue(outcomes: seq<bool>) {
    forall k :: 0 <= k < |outcomes| ==> outcomes[k]
  }

  class Consumer {
    const group: Group
    const handler: Handler
    const name: nat

    constructor (group: Group, handler: Handler, name: nat)
      ensures this.group == group && this.handler == handler && this.name == name
    {
      this.group := group;
      this.handler := handler;
      this.name := name;
    }

    ghost function Books(): Account
      reads group, handler
    {
      Account(handler.calls, handler.answers, group.acked, group.ackFaults)
    }

    /** Acked exactly when no error is returned; a malformed message never reaches the processor. */
    method ProcessMessage(i: nat) returns (err: Option<Error>)
      requires group.Valid() && i < |group.stream|
      modifies group`pel, group`acked, group`ackFaults, handler
      ensures group.Valid()
      ensures group.pel == if err.None? then old(group.pel) - {i} else old(group.pel)
      ensures group.acked == if err.None? then old(group.acked) + {i} else old(group.acked)
      ensures match ParseDeliveryMessage(group.stream[i])
              case Malformed(_) =>
                && handler.calls == old(handler.calls) && handler.answers == old(handler.answers)
                && (err.None? <==> group.ackFaults == old(group.ackFaults))
              case Good(message) =>
                && handler.calls == old(handler.calls) + [message.nid]
                && |handler.answers| == |old(handler.answers)| + 1
                && (err.None? <==> handler.answers[|old(handler.answers)|] && group.ackFaults == old(group.ackFaults))
      ensures forall e: Event :: group.stream[i] == BuildDeliveryMessage(e) ==>
                handler.calls == old(handler.calls) + [e.nid]
      ensures Accounted(group.stream, [i], [err.None?], old(Books()), Books())
    {
      match ParseDeliveryMessage(group.stream[i]) {
        case Malformed(_) =>
          err := group.XAck(i);
        case Good(message) =>
          var ok := handler.Process(message.nid);
          if !ok {
            err := Some(ErrTransport("process"));
          } else {
            err := group.XAck(i);
          }
      }
      OneAccounted(group.stream, i, err.None?, old(Books()), Books());
      forall e: Event | group.stream[i] == BuildDeliveryMessage(e)
        ensures handler.calls == old(handler.calls) + [e.nid]
      {
        ParseInvertsBuild(e);
      }
    }

    /** The loop over one batch: an error does not stop it, and is returned in the end. */
    method ProcessBatch(page: seq<nat>, before: Option<Error>) returns (firstErr: Option<Error>, ghost outcomes: seq<bool>)
      requires group.Valid() && InStream(group.stream, page)
      modifies group`pel, group`acked, group`ackFaults, handler
      ensures group.Valid()
      ensures Accounted(group.stream, page, outcomes, old(Books()), Books())
      ensures group.pel == old(group.pel) - Winners(page, outcomes)
      ensures firstErr.None? <==> before.None? && AllTrue(outcomes)
    {
      firstErr, outcomes := before, [];
      for k := 0 to |page|
        invariant group.Valid()
        invariant Accounted(group.stream, page[..k], outcomes, old(Books()), Books())
        invariant group.pel == old(group.pel) - Winners(page[..k], outcomes)
        invariant firstErr.None? <==> before.None? && AllTrue(outcomes)
      {
        ghost var books := Books();
        var err := ProcessMessage(page[k]);
        if err.Some? {
          firstErr := err;
        }
        NextOfPage(group.stream, page, k, outcomes, err.None?, old(Books()), books, Books(), old(group.pel));
        outcomes := outcomes + [err.None?];
      }
      assert page[..|page|] == page;
    }

    /**
     * Every new entry of the page is processed once, in order; those acked are
     * exactly those without an error, and with no failing XACK these are the
     * malformed ones and the ones the processor accepted.
     */
    method ReadAndProcess(count: int, now: Time)
      returns (err: Option<Error>, ghost page: seq<nat>, ghost outcomes: seq<bool>)
      requires group.Valid()
      modifies group`cursor, group`pel, group`acked, group`ackFaults, group`readFaults, handler
      ensures group.Valid() && old(group.readFaults) <= group.readFaults <= old(group.readFaults) + 1
      ensures forall k :: 0 <= k < |page| ==> page[k] == old(group.cursor) + k
      ensures group.cursor == old(group.cursor) + |page|
      ensures forall events :: Built(group.stream, page, events) ==>
                handler.calls == old(handler.calls) + NidsOf(events)
      ensures group.readFaults == old(group.readFaults) ==>
                var unread := |group.stream| - old(group.cursor);
                && |page| == (if 0 < count < unread then count else unread)
                && (err.None? <==> AllTrue(outcomes))
      ensures group.readFaults > old(group.readFaults) ==> err.Some? && page == []
      ensures Accounted(group.stream, page, outcomes, old(Books()), Books())
      ensures group.pel == Hand(old(group.pel), name, page, now) - Winners(page, outcomes)
    {
      page, outcomes := [], [];
      var messages;
      err, messages := group.XReadGroup(name, count, now);
      if err.Some? {
        return;
      }
      page := messages;
      err, outcomes := ProcessBatch(messages, None);
      AccountedCalls(group.stream, page, outcomes, old(Books()), Books());
    }

    /** One turn of the scan: claim a page and work it. On a fault of XAUTOCLAIM nothing has happened. */
    method ClaimPage(minIdle: Time, start: nat, count: int, now: Time, before: Option<Error>)
      returns (fault: Option<Error>, firstErr: Option<Error>, next: nat,
               ghost page: seq<nat>, ghost stop: nat, ghost outcomes: seq<bool>)
      requires group.Valid() && start <= |group.stream|
      modifies group`pel, group`acked, group`ackFaults, group`claimFaults, handler
      ensures group.Valid() && group.claimFaults == old(group.claimFaults) + FaultCount(fault)
      ensures fault.None? || Faulted(fault)
      ensures fault.Some? ==> group.pel == old(group.pel) && group.acked == old(group.acked)
                              && handler.calls == old(handler.calls) && handler.answers == old(handler.answers)
                              && group.ackFaults == old(group.ackFaults)
      ensures start <= stop <= |group.stream| && (next == 0 || (next == stop && start < stop))
      ensures fault.None? && next == 0 ==> stop == |group.stream|
      ensures fault.None? ==> page == IdlePage(old(group.pel), start, stop, now, minIdle)
      ensures fault.None? ==>
                && Accounted(group.stream, page, outcomes, old(Books()), Books())
                && group.pel == Hand(old(group.pel), name, page, now) - Winners(page, outcomes)
      ensures fault.None? ==> (firstErr.None? <==> before.None? && AllTrue(outcomes))
    {
      firstErr, page, outcomes := before, [], [];
      var messages;
      fault, messages, next, stop := group.XAutoClaim(name, minIdle, start, count, now);
      if fault.Some? {
        return;
      }
      page := messages;
      firstErr, outcomes := ProcessBatch(messages, before);
    }

    /**
     * The paged scan terminates, and unless an XAUTOCLAIM failed it has
     * processed exactly the entries that a one-shot filter of the pending list
     * for sufficiently idle ones gives, each once and in order, wherever the
     * server cut its pages.
     */
    method ClaimAndProcess(minIdle: Time, count: int, now: Time)
      returns (firstErr: Option<Error>, ghost done: seq<nat>, ghost outcomes: seq<bool>)
      requires group.Valid()
      modifies group`pel, group`acked, group`ackFaults, group`claimFaults, handler
      ensures group.Valid() && old(group.claimFaults) <= group.claimFaults <= old(group.claimFaults) + 1
      ensures group.claimFaults == old(group.claimFaults) ==>
                && done == IdlePage(old(group.pel), 0, |group.stream|, now, minIdle)
                && (firstErr.None? <==> AllTrue(outcomes))
      ensures group.claimFaults > old(group.claimFaults) ==>
                && firstErr.Some?
                && exists stop :: 0 <= stop <= |group.stream| && done == IdlePage(old(group.pel), 0, stop, now, minIdle)
      ensures Accounted(group.stream, done, outcomes, old(Books()), Books())
      ensures group.pel == Hand(old(group.pel), name, done, now) - Winners(done, outcomes)
      ensures forall events :: Built(group.stream, done, events) ==>
                handler.calls == old(handler.calls) + NidsOf(events)
    {
      var start: nat := 0;
      firstErr, done, outcomes := None, [], [];
      while true
        invariant group.Valid() && start <= |group.stream| && group.claimFaults == old(group.claimFaults)
        invariant done == IdlePage(old(group.pel), 0, start, now, minIdle)
        invariant Accounted(group.stream, done, outcomes, old(Books()), Books())
        invariant group.pel == Hand(old(group.pel), name, done, now) - Winners(done, outcomes)
        invariant firstErr.None? <==> AllTrue(outcomes)
        decreases |group.stream| - start
      {
        ghost var books := Books();
        ghost var pel := group.pel;
        var fault, next;
        ghost var page, stop, more;
        fault, firstErr, next, page, stop, more := ClaimPage(minIdle, start, count, now, firstErr);
        if fault.Some? {
          AccountedCalls(group.stream, done, outcomes, old(Books()), Books());
          return fault, done, outcomes;
        }
        HandedBelow(old(group.pel), name, done, outcomes, start, |group.stream|, now);
        PageOfScan(old(group.pel), pel, start, stop, |group.stream|, now, minIdle);
        HandAgain(old(group.pel), name, done, outcomes, page, more, start, now);
        AccountedConcat(group.stream, done, page, outcomes, more,
                        old(Books()), books, Books());
        AllTrueAppend(outcomes, more);
        done, outcomes := done + page, outcomes + more;
        if next == 0 {
          AccountedCalls(group.stream, done, outcomes, old(Books()), Books());
          return firstErr, done, outcomes;
        }
        start := next;
      }
    }
  }

  predicate SameFrom(a: map<nat, PendingEntry>, b: map<nat, PendingEntry>, lo: nat, hi: nat) {
    forall i :: lo <= i < hi ==> (i in a <==> i in b) && (i in a && i in b ==> a[i] == b[i])
  }

  /** The page found now is the page the original pending list would give, and extends the scan. */
  lemma PageOfScan(before: map<nat, PendingEntry>, pel: map<nat, PendingEntry>, start: nat, stop: nat, end: nat,
                   now: Time, minIdle: Time)
    requires start <= stop <= end && SameFrom(before, pel, start, end)
    ensures IdlePage(before, 0, stop, now, minIdle) ==
            IdlePage(before, 0, start, now, minIdle) + IdlePage(pel, start, stop, now, minIdle)
  {
    IdlePageConcat(before, 0, start, stop, now, minIdle);
    IdlePageSame(before, pel, start, stop, now, minIdle);
  }

  /** What an ack of one more message leaves of the pending list. */
  lemma RemovedOne(pel: map<nat, PendingEntry>, page: seq<nat>, outcomes: seq<bool>, i: nat, won: bool)
    requires |page| == |outcomes|
    ensures pel - Winners(page + [i], outcomes + [won]) ==
            if won then (pel - Winners(page, outcomes)) - {i} else pel - Winners(page, outcomes)
  {
    WinnersConcat(page, [i], outcomes, [won]);
    WinnersOne(i, won);
    assert won ==> pel - Winners(page + [i], outcomes + [won]) == (pel - Winners(page, outcomes)) - {i};
  }

  /** One more message of the page has been worked. */
  lemma NextOfPage(stream: seq<Values>, page: seq<nat>, k: nat, outcomes: seq<bool>, won: bool,
                   before: Account, between: Account, after: Account, pel: map<nat, PendingEntry>)
    requires k < |page| && Accounted(stream, page[..k], outcomes, before, between)
    requires Accounted(stream, [page[k]], [won], between, after)
    ensures Accounted(stream, page[..k + 1], outcomes + [won], before, after)
    ensures pel - Winners(page[..k + 1], outcomes + [won]) ==
            if won then (pel - Winners(page[..k], outcomes)) - {page[k]} else pel - Winners(page[..k], outcomes)
    ensures AllTrue(outcomes + [won]) <==> AllTrue(outcomes) && won
  {
    assert page[..k + 1] == page[..k] + [page[k]];
    AccountedConcat(stream, page[..k], [page[k]], outcomes, [won], before, between, after);
    RemovedOne(pel, page[..k], outcomes, page[k], won);
    AllTrueAppend(outcomes, [won]);
    AllTrueOne(won);
  }

  /** Handing out and acking entries below `start` leaves the pending list from there on alone. */
  lemma HandedBelow(pel: map<nat, PendingEntry>, name: nat, page: seq<nat>, outcomes: seq<bool>,
                    start: nat, end: nat, now: Time)
    requires |page| == |outcomes| && forall i :: i in page ==> i < start
    ensures SameFrom(pel, Hand(pel, name, page, now) - Winners(page, outcomes), start, end)
  {
    forall i | start <= i < end
      ensures i !in page && i !in Winners(page, outcomes)
    {
    }
  }

  /** Handing out and acking two pages in turn, the second beyond the first, is doing so with both. */
  lemma HandAgain(pel: map<nat, PendingEntry>, name: nat, a: seq<nat>, outcomes: seq<bool>,
                  b: seq<nat>, more: seq<bool>, start: nat, now: Time)
    requires |a| == |outcomes| && |b| == |more|
    requires (forall i :: i in a ==> i < start) && (forall i :: i in b ==> i >= start)
    ensures Hand(Hand(pel, name, a, now) - Winners(a, outcomes), name, b, now) - Winners(b, more) ==
            Hand(pel, name, a + b, now) - Winners(a + b, outcomes + more)
  {
    WinnersConcat(a, b, outcomes, more);
    var once := Hand(pel, name, a, now) - Winners(a, outcomes);
    var twice := Hand(once, name, b, now) - Winners(b, more);
    var joint := Hand(pel, name, a + b, now) - Winners(a + b, outcomes + more);
    forall i
      ensures i in twice <==> i in joint
    {
      assert i in a + b <==> i in a || i in b;
    }
  }

  lemma AllTrueOne(outcome: bool)
    ensures AllTrue([outcome]) <==> outcome
  {
    assert [outcome][0] == outcome;
  }

  lemma AllTrueAppend(outcomes: seq<bool>, more: seq<bool>)
    ensures AllTrue(outcomes + more) <==> AllTrue(outcomes) && AllTrue(more)
  {
    if AllTrue(outcomes + more) {
      forall k | 0 <= k < |outcomes|
        ensures outcomes[k]
      {
        assert (outcomes + more)[k];
      }
      forall k | 0 <= k < |more|
        ensures more[k]
      {
        assert (outcomes + more)[|outcomes| + k];
      }
    }
  }

  lemma OneMessage(addressee: Option<Uuid>, won: bool, answers: seq<bool>, faults: int)
    requires |answers| == if addressee.Some? then 1 else 0
    requires won ==> addressee.None? || answers[0]
    requires faults == if (addressee.None? || answers[0]) && !won then 1 else 0
    ensures Worked([addressee], [won], answers, faults)
  {
    var addressees := [addressee];
    assert addressees[..0] == [];
    assert Deserving(addressees, answers) == [addressee.None? || answers[0]];
  }

  /** One message: the processor is asked about a well-formed one, and a deserved ack is missed only by a fault. */
  lemma OneAccounted(stream: seq<Values>, i: nat, won: bool, before: Account, after: Account)
    requires i < |stream| && after.acked == if won then before.acked + {i} else before.acked
    requires var faults := after.ackFaults - before.ackFaults;
             match AddresseeOf(stream[i])
             case None =>
               after.calls == before.calls && after.answers == before.answers && faults == if won then 0 else 1
             case Some(nid) =>
               && after.calls == before.calls + [nid]
               && |after.answers| == |before.answers| + 1 && before.answers <= after.answers
               && (won ==> after.answers[|before.answers|])
               && faults == if after.answers[|before.answers|] && !won then 1 else 0
    ensures Accounted(stream, [i], [won], before, after)
  {
    var addressee := AddresseeOf(stream[i]);
    assert Addressees(stream, [i]) == [addressee];
    var addressees := [addressee];
    assert addressees[..0] == [];
    OneMessage(addressee, won, after.answers[|before.answers|..], after.ackFaults - before.ackFaults);
    WinnersOne(i, won);
  }

  lemma WinnersOne(i: nat, outcome: bool)
    ensures Winners([i], [outcome]) == if outcome then {i} else {}
  {
    if outcome {
      assert [outcome][0] && [i][0] == i;
    }
  }
}

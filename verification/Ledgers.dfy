/**
 * The life of ONE notification as a sequential machine: what the documentation
 * says happens to it, with no relays, streams, workers or snapshots in sight.
 * PipelineRefinement shows that the concurrent system never does anything else.
 */
module Ledgers {
  import opened Common
  import opened Delivery
  import opened Tables

  /**
   * A notification with its books: attempt rows in commit order, how many outbox
   * rows it has, manual retries, successful MarkDelivering calls, and, since
   * creation or the last manual retry, those calls and the Deliver calls.
   */
  datatype Ledger = Ledger(
    n: Notification, history: seq<Attempt>, rows: nat,
    resets: nat, marks: nat, epochMarks: nat, epochDispatches: nat)

  datatype Move =
    | Stay
    | Mark
    | Dispatch
    | Succeed(attempt: Attempt)
    | Reschedule(attempt: Attempt, at: Time)
    | GiveUp(attempt: Attempt)
    | Reset

  predicate Fresh(l: Ledger) {
    && 1 <= l.n.maxAttempts <= 20
    && l == Ledger(Notification(Pending, 0, l.n.maxAttempts, "", None), [], 1, 0, 0, 0, 0)
  }

  function MessageOf(a: Attempt): string {
    if a.error.Some? then a.error.value else ""
  }

  /** `l` to `l'` in one move of the sequential machine; an outcome takes an answered Deliver call for the mark. */
  predicate Moves(l: Ledger, move: Move, l': Ledger) {
    var n := l.n;
    match move
    case Stay => l' == l
    case Mark =>
      && n.status.Live()
      && l' == l.(n := Notification(Delivering, n.attemptCount, n.maxAttempts, n.lastError, None),
                  marks := l.marks + 1, epochMarks := l.epochMarks + 1)
    case Dispatch =>
      && n.status.Delivering?
      && l.epochDispatches < l.epochMarks
      && l' == l.(epochDispatches := l.epochDispatches + 1)
    case Succeed(a) =>
      && n.status.Delivering?
      && l.epochDispatches == l.epochMarks
      && a.number == n.attemptCount + 1
      && a.status.AttemptSucceeded?
      && l' == l.(n := Notification(Succeeded, a.number, n.maxAttempts, "", None), history := l.history + [a])
    case Reschedule(a, at) =>
      && n.status.Delivering?
      && l.epochDispatches == l.epochMarks
      && a.number == n.attemptCount + 1 < n.maxAttempts
      && a.status.AttemptRetrying?
      && l' == l.(n := Notification(Retrying, a.number, n.maxAttempts, MessageOf(a), Some(at)),
                  history := l.history + [a], rows := l.rows + 1)
    case GiveUp(a) =>
      && n.status.Delivering?
      && l.epochDispatches == l.epochMarks
      && a.number == n.attemptCount + 1
      && a.status.AttemptFailed?
      && l' == l.(n := Notification(Failed, a.number, n.maxAttempts, MessageOf(a), None), history := l.history + [a])
    case Reset =>
      && n.status.Failed?
      && l' == l.(n := Notification(Pending, 0, n.maxAttempts, "", None),
                  rows := l.rows + 1, resets := l.resets + 1, epochMarks := 0, epochDispatches := 0)
  }

  // ----- history grammar

  function Tally(history: seq<Attempt>, status: AttemptStatus): nat {
    if history == [] then 0
    else
      Tally(history[..|history| - 1], status) + if history[|history| - 1].status == status then 1 else 0
  }

  lemma TallyAppend(history: seq<Attempt>, a: Attempt, status: AttemptStatus)
    ensures Tally(history + [a], status) == Tally(history, status) + if a.status == status then 1 else 0
  {
    assert (history + [a])[..|history|] == history;
  }

  /** Numbered 1, 2, ..., k, and every row but the last is retrying. */
  predicate Epoch(e: seq<Attempt>) {
    forall i :: 0 <= i < |e| ==> e[i].number == i + 1 && (i < |e| - 1 ==> e[i].status.AttemptRetrying?)
  }

  predicate ClosedEpoch(e: seq<Attempt>, maxAttempts: int) {
    && Epoch(e)
    && 1 <= |e| <= maxAttempts
    && e[|e| - 1].status.AttemptFailed?
  }

  /** The running epoch agrees with the notification row. */
  predicate OpenEpoch(e: seq<Attempt>, n: Notification) {
    && Epoch(e)
    && |e| == n.attemptCount <= n.maxAttempts
    && match n.status
       case Pending => e == []
       case Delivering => e == [] || e[|e| - 1].status.AttemptRetrying?
       case Retrying => e != [] && e[|e| - 1].status.AttemptRetrying?
       case Succeeded => e != [] && e[|e| - 1].status.AttemptSucceeded?
       case Failed => e != [] && e[|e| - 1].status.AttemptFailed?
  }

  function Flatten(epochs: seq<seq<Attempt>>): seq<Attempt> {
    if epochs == [] then [] else Flatten(epochs[..|epochs| - 1]) + epochs[|epochs| - 1]
  }

  /** One way to cut the history: one closed epoch per manual retry, then the open one. */
  ghost predicate Cut(l: Ledger, closed: seq<seq<Attempt>>, open: seq<Attempt>) {
    && |closed| == l.resets
    && l.history == Flatten(closed) + open
    && (forall i :: 0 <= i < |closed| ==> ClosedEpoch(closed[i], l.n.maxAttempts))
    && OpenEpoch(open, l.n)
  }

  ghost predicate Grammatical(l: Ledger) {
    exists closed, open :: Cut(l, closed, open)
  }

  // ----- the books balance

  predicate Balanced(l: Ledger) {
    && l.rows == |l.history| + (if l.n.status.Terminal() then 0 else 1)
    && l.rows == 1 + l.resets + Tally(l.history, AttemptRetrying)
    && l.marks == |l.history| + (if l.n.status.Delivering? then 1 else 0)
    && Tally(l.history, AttemptFailed) == l.resets + (if l.n.status.Failed? then 1 else 0)
    && Tally(l.history, AttemptSucceeded) == (if l.n.status.Succeeded? then 1 else 0)
  }

  predicate WithinBudget(l: Ledger) {
    && 1 <= l.n.maxAttempts <= 20
    && 0 <= l.n.attemptCount <= l.n.maxAttempts
    && (!l.n.status.Terminal() ==> l.n.attemptCount < l.n.maxAttempts)
    && l.epochMarks == l.n.attemptCount + (if l.n.status.Delivering? then 1 else 0)
    && l.epochDispatches <= l.epochMarks <= l.n.maxAttempts
    && l.epochMarks <= l.epochDispatches + (if l.n.status.Delivering? then 1 else 0)
    && (l.n.nextAttemptAt.Some? <==> l.n.status.Retrying?)
  }

  ghost predicate Sound(l: Ledger) {
    Balanced(l) && WithinBudget(l) && Grammatical(l)
  }

  lemma FreshIsSound(l: Ledger)
    requires Fresh(l)
    ensures Sound(l)
  {
    assert Cut(l, [], []);
  }

  lemma MovesKeepSound(l: Ledger, move: Move, l': Ledger)
    requires Sound(l) && Moves(l, move, l')
    ensures Sound(l')
  {
    MovesKeepBalance(l, move, l');
    MovesKeepGrammar(l, move, l');
  }

  lemma MovesKeepBalance(l: Ledger, move: Move, l': Ledger)
    requires Balanced(l) && WithinBudget(l) && Moves(l, move, l')
    ensures Balanced(l') && WithinBudget(l')
  {
    if move.Succeed? || move.Reschedule? || move.GiveUp? {
      TallyAppend(l.history, move.attempt, AttemptRetrying);
      TallyAppend(l.history, move.attempt, AttemptFailed);
      TallyAppend(l.history, move.attempt, AttemptSucceeded);
    }
  }

  lemma MovesKeepGrammar(l: Ledger, move: Move, l': Ledger)
    requires Grammatical(l) && WithinBudget(l) && Moves(l, move, l')
    ensures Grammatical(l')
  {
    var closed, open :| Cut(l, closed, open);
    match move {
      case Succeed(a) => ExtendCut(l, closed, open, a, l');
      case Reschedule(a, _) => ExtendCut(l, closed, open, a, l');
      case GiveUp(a) => ExtendCut(l, closed, open, a, l');
      case Reset => CloseCut(l, closed, open, l');
      case _ => assert Cut(l', closed, open);
    }
  }

  lemma ExtendCut(l: Ledger, closed: seq<seq<Attempt>>, open: seq<Attempt>, a: Attempt, l': Ledger)
    requires Cut(l, closed, open)
    requires l.n.status.Delivering? && a.number == l.n.attemptCount + 1 <= l.n.maxAttempts
    requires l'.history == l.history + [a] && l'.resets == l.resets
    requires l'.n.maxAttempts == l.n.maxAttempts && l'.n.attemptCount == a.number
    requires match a.status
             case AttemptSucceeded => l'.n.status.Succeeded?
             case AttemptRetrying => l'.n.status.Retrying?
             case AttemptFailed => l'.n.status.Failed?
    ensures Cut(l', closed, open + [a])
  {
    assert Flatten(closed) + (open + [a]) == (Flatten(closed) + open) + [a];
  }

  /** A manual retry closes the running epoch and opens an empty one. */
  lemma CloseCut(l: Ledger, closed: seq<seq<Attempt>>, open: seq<Attempt>, l': Ledger)
    requires Cut(l, closed, open) && Moves(l, Reset, l')
    ensures Cut(l', closed + [open], [])
  {
    var cs := closed + [open];
    assert cs[..|cs| - 1] == closed;
    assert Flatten(cs) == Flatten(closed) + open;
    assert Flatten(cs) + [] == l'.history;
  }

  // ----- terminal states

  /** Succeeded is absorbing, and failed is left only by a manual retry. */
  lemma TerminalMoves(l: Ledger, move: Move, l': Ledger)
    requires l.n.status.Terminal() && Moves(l, move, l')
    ensures l' == l || (l.n.status.Failed? && move.Reset? && l'.n.status.Pending?)
  {
  }

  /** The one succeeded attempt row of a succeeded notification is its last row. */
  lemma SucceededRowIsLast(l: Ledger, i: nat)
    requires Sound(l) && i < |l.history| && l.history[i].status.AttemptSucceeded?
    ensures l.n.status.Succeeded? && i == |l.history| - 1
  {
    TallyPositive(l.history, i);
    var closed, open :| Cut(l, closed, open);
    if i < |l.history| - 1 {
      var k := |l.history| - 1;
      assert l.history[k] == open[|open| - 1];
      TallyTwo(l.history, i);
    }
  }

  lemma {:induction false} TallyPositive(history: seq<Attempt>, i: nat)
    requires i < |history|
    ensures Tally(history, history[i].status) >= 1
  {
    if i < |history| - 1 {
      TallyPositive(history[..|history| - 1], i);
    }
  }

  lemma TallyTwo(history: seq<Attempt>, i: nat)
    requires i < |history| - 1 && history[i].status == history[|history| - 1].status
    ensures Tally(history, history[i].status) >= 2
  {
    TallyPositive(history[..|history| - 1], i);
  }
}

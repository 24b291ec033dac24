/** What holds of every notification in every reachable state, and over every run. */
module Guarantees {
  import opened Common
  import opened Uuids
  import opened Delivery
  import opened Tables
  import opened Pipeline
  import opened PipelineShape
  import opened PipelineRefinement
  import L = Ledgers

  lemma BooksSound(s: State, nid: Uuid)
    requires Reachable(s) && nid in s.db.notifications
    ensures L.Sound(LedgerOf(s, nid))
  {
    ReachableInv(s);
  }

  function NonTerminal(s: State, nid: Uuid): nat
    requires nid in s.db.notifications
  {
    if s.db.notifications[nid].status.Terminal() then 0 else 1
  }

  /**
   * Conservation of work: outbox rows are attempt rows plus one while work is
   * open; and they are one, plus the manual retries, plus the retrying attempts.
   */
  lemma ConservationOfWork(s: State, nid: Uuid)
    requires Reachable(s) && nid in s.db.notifications
    ensures |RowsOf(s.db.outbox, nid)| == |AttemptsOf(s.db.attempts, nid)| + NonTerminal(s, nid)
    ensures |RowsOf(s.db.outbox, nid)| ==
            1 + CountResets(s.log, nid) + L.Tally(AttemptsOf(s.db.attempts, nid), AttemptRetrying)
  {
    BooksSound(s, nid);
  }

  /**
   * Two workers never hold the same notification between MarkDelivering and its
   * record, and while one does the row is delivering.
   */
  lemma DispatchExclusion(s: State, v: nat, w: nat, nid: Uuid)
    requires Reachable(s) && v in s.workers && w in s.workers
    requires Flight(s.workers[v]) == Flight(s.workers[w]) == Some(nid)
    ensures v == w
    ensures nid in s.db.notifications && s.db.notifications[nid].status.Delivering?
  {
    ReachableInv(s);
    assert FlightOk(s.db.notifications, s.workers[v]);
  }

  /**
   * Successful MarkDelivering calls are the attempt rows plus the one in flight.
   * Since creation or the last manual retry there are at most max_attempts of
   * them, each followed by at most one Deliver call; and every attempt counted
   * had its answered Deliver call.
   */
  lemma DispatchBudget(s: State, nid: Uuid)
    requires Reachable(s) && nid in s.db.notifications
    ensures CountMarks(s.log, nid) ==
            |AttemptsOf(s.db.attempts, nid)| + (if s.db.notifications[nid].status.Delivering? then 1 else 0)
    ensures s.db.notifications[nid].attemptCount <= EpochDispatches(s.log, nid) <= EpochMarks(s.log, nid)
    ensures EpochMarks(s.log, nid) <= s.db.notifications[nid].maxAttempts
    ensures !s.db.notifications[nid].status.Delivering? ==>
              EpochDispatches(s.log, nid) == s.db.notifications[nid].attemptCount
  {
    BooksSound(s, nid);
  }

  lemma AttemptBound(s: State, nid: Uuid)
    requires Reachable(s) && nid in s.db.notifications
    ensures 0 <= s.db.notifications[nid].attemptCount <= s.db.notifications[nid].maxAttempts
    ensures !s.db.notifications[nid].status.Terminal() ==>
              s.db.notifications[nid].attemptCount < s.db.notifications[nid].maxAttempts
  {
    BooksSound(s, nid);
  }

  /**
   * The attempt rows in commit order are one closed epoch per manual retry
   * followed by an open one: numbered 1..k with k <= max_attempts, retrying but
   * for the last; closed epochs end in failed, and the open one agrees with the
   * notification's status and attempt_count.
   */
  lemma HistoryGrammar(s: State, nid: Uuid)
    requires Reachable(s) && nid in s.db.notifications
    ensures exists closed: seq<seq<Attempt>>, open: seq<Attempt> ::
              && |closed| == CountResets(s.log, nid)
              && AttemptsOf(s.db.attempts, nid) == L.Flatten(closed) + open
              && (forall i :: 0 <= i < |closed| ==> L.ClosedEpoch(closed[i], s.db.notifications[nid].maxAttempts))
              && L.OpenEpoch(open, s.db.notifications[nid])
  {
    BooksSound(s, nid);
    var closed, open :| L.Cut(LedgerOf(s, nid), closed, open);
  }

  /**
   * Each visit to failed leaves one failed row and yields at most one manual
   * retry; there is at most one succeeded row, and it is the last.
   */
  lemma RetriesPerFailure(s: State, nid: Uuid)
    requires Reachable(s) && nid in s.db.notifications
    ensures var history := AttemptsOf(s.db.attempts, nid);
            && L.Tally(history, AttemptFailed) ==
               CountResets(s.log, nid) + (if s.db.notifications[nid].status.Failed? then 1 else 0)
            && forall i :: 0 <= i < |history| && history[i].status.AttemptSucceeded? ==>
                 i == |history| - 1 && s.db.notifications[nid].status.Succeeded?
  {
    BooksSound(s, nid);
    var history := AttemptsOf(s.db.attempts, nid);
    forall i | 0 <= i < |history| && history[i].status.AttemptSucceeded?
      ensures i == |history| - 1 && s.db.notifications[nid].status.Succeeded?
    {
      L.SucceededRowIsLast(LedgerOf(s, nid), i);
    }
  }

  lemma {:induction false} RowsOnlyGrow(s: State, steps: seq<Step>, t: State, nid: Uuid)
    requires Run(s, steps, t)
    ensures RowsOf(s.db.outbox, nid) <= RowsOf(t.db.outbox, nid)
    decreases |steps|
  {
    if steps != [] {
      StepGrows(s, steps[0]);
      RowsOnlyGrow(Apply(s, steps[0]), steps[1..], t, nid);
    }
  }

  lemma SameSize(a: set<Uuid>, b: set<Uuid>)
    requires a <= b && |a| == |b|
    ensures a == b
  {
    assert |b - a| == |b| - |a|;
  }

  /**
   * Over any run, a succeeded notification keeps its row, its attempt rows and
   * its set of outbox rows; a failed one does too unless a manual retry reset it.
   */
  lemma TerminalStability(s: State, steps: seq<Step>, t: State, nid: Uuid)
    requires Reachable(s) && Run(s, steps, t)
    requires nid in s.db.notifications && s.db.notifications[nid].status.Terminal()
    ensures nid in t.db.notifications
    ensures CountResets(t.log, nid) >= CountResets(s.log, nid)
    ensures s.db.notifications[nid].status.Succeeded? || CountResets(t.log, nid) == CountResets(s.log, nid) ==>
              && t.db.notifications[nid] == s.db.notifications[nid]
              && AttemptsOf(t.db.attempts, nid) == AttemptsOf(s.db.attempts, nid)
              && RowsOf(t.db.outbox, nid) == RowsOf(s.db.outbox, nid)
              && LedgerOf(t, nid) == LedgerOf(s, nid)
  {
    TerminalLedger(s, steps, t, nid);
    if LedgerOf(t, nid) == LedgerOf(s, nid) {
      RowsOnlyGrow(s, steps, t, nid);
      SameSize(RowsOf(s.db.outbox, nid), RowsOf(t.db.outbox, nid));
    }
  }

  lemma {:induction false} TerminalLedger(s: State, steps: seq<Step>, t: State, nid: Uuid)
    requires Reachable(s) && Run(s, steps, t)
    requires nid in s.db.notifications && s.db.notifications[nid].status.Terminal()
    ensures nid in t.db.notifications
    ensures CountResets(t.log, nid) >= CountResets(s.log, nid)
    ensures s.db.notifications[nid].status.Succeeded? || CountResets(t.log, nid) == CountResets(s.log, nid) ==>
              LedgerOf(t, nid) == LedgerOf(s, nid)
    decreases |steps|
  {
    if steps != [] {
      var u := Apply(s, steps[0]);
      ReachableInv(s);
      StepRefines(s, steps[0], nid);
      L.TerminalMoves(LedgerOf(s, nid), MoveOf(s, steps[0], nid), LedgerOf(u, nid));
      ReachableStep(s, steps[0]);
      if LedgerOf(u, nid) == LedgerOf(s, nid) {
        TerminalLedger(u, steps[1..], t, nid);
      } else {
        ResetsOnlyGrow(u, steps[1..], t, nid);
      }
    }
  }

  lemma {:induction false} ResetsOnlyGrow(s: State, steps: seq<Step>, t: State, nid: Uuid)
    requires Reachable(s) && Run(s, steps, t) && nid in s.db.notifications
    ensures nid in t.db.notifications && CountResets(t.log, nid) >= CountResets(s.log, nid)
    decreases |steps|
  {
    if steps != [] {
      ReachableInv(s);
      StepRefines(s, steps[0], nid);
      ReachableStep(s, steps[0]);
      ResetsOnlyGrow(Apply(s, steps[0]), steps[1..], t, nid);
    }
  }

  /**
   * A manual retry takes effect exactly on a failed notification. It is then
   * pending with all its attempts again, and has a new outbox row that is due now.
   */
  lemma ManualRetryReopens(s: State, nid: Uuid, row: Uuid)
    requires Enabled(s, ManualRetry(nid, row))
    ensures var t := Apply(s, ManualRetry(nid, row));
            if nid in s.db.notifications && s.db.notifications[nid].status == Failed then
              && t.db.notifications == s.db.notifications[nid :=
                   Notification(Pending, 0, s.db.notifications[nid].maxAttempts, "", None)]
              && t.db.outbox == s.db.outbox[row := OutboxRow(
                   nid, "notification.delivery_requested", OutboxPending, s.now, s.now, None, "", None, "")]
              && row !in s.db.outbox
              && t.db.attempts == s.db.attempts
            else t == s
  {
  }
}

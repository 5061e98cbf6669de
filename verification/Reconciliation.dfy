/** Reconciliation reaches a fixed point, and no run is recovered for ever. */
module Reconciliation {
  import opened Types
  import opened Identity
  import opened RunProtocol
  import opened RunInvariants
  import opened Protocol
  import opened Behaviours

  /** Nothing is overdue and nothing is abandoned at `now`. */
  ghost predicate Settled(entries: map<string, Entry>, now: Time) {
    OverdueRuns(entries, now) == {} && AbandonedRuns(entries, now) == {}
  }

  lemma CancelOverdueSettles(e: Entry, now: Time)
    ensures !Overdue(CancelOverdue(e, now), now)
  {
    hide Terminals, Started, LogShape;
  }

  lemma RecoverSettles(e: Entry, now: Time, id: string)
    requires Sound(e) && Abandoned(e, now) && !Overdue(e, now)
    ensures !Overdue(Recover(e, now, id), now) && !Abandoned(Recover(e, now, id), now)
  {
    hide Terminals, Started, LogShape, LogSound, HistorySound;
  }

  lemma WholeSet(part: set<string>, whole: set<string>, room: int)
    requires part <= whole && |part| == Min(room, |whole|) && |part| < room
    ensures part == whole
  {
    SubsetSize(part, whole);
  }

  /** A reconciliation that was not cut short by its limit leaves nothing to do. */
  lemma ReconcileSettles(s: State, now: Time, limit: int, overdue: set<string>, abandoned: set<string>,
                         ids: map<string, string>, count: int, s': State)
    requires Inv(s) && ReconcileStep(s, now, limit, overdue, abandoned, ids, count, s') && count < limit
    ensures Settled(s'.entries, now)
  {
    hide Inv, Fresh, Retries, Overdue, Abandoned, Recover, Cancel, CancelOverdue, Sound;
    var mid := CancelAll(s.entries, overdue, now);
    WholeSet(overdue, OverdueRuns(s.entries, now), limit);
    WholeSet(abandoned, AbandonedRuns(mid, now), limit - |overdue|);
    forall r | r in s'.entries
      ensures !Overdue(s'.entries[r], now) && !Abandoned(s'.entries[r], now)
    {
      SoundAt(s, r);
      CancelOverdueSettles(s.entries[r], now);
      OverdueCancelSound(s.entries[r], now);
      assert r in OverdueRuns(s.entries, now) <==> Overdue(s.entries[r], now);
      assert !Overdue(mid[r], now);
      assert r in AbandonedRuns(mid, now) <==> Abandoned(mid[r], now);
      if r in abandoned {
        RecoverSettles(mid[r], now, if r in ids then ids[r] else "");
      }
    }
  }

  lemma OverdueCancelSound(e: Entry, now: Time)
    requires Sound(e)
    ensures Sound(CancelOverdue(e, now))
  {
    hide Sound, Evolves, Cancel;
    CancelKeeps(e, "run timeout exceeded", "relay", now);
  }

  /** So a second call at the same moment answers 0 and changes no run. */
  lemma ReconcileConverges(s: State, now: Time, limit: int, overdue: set<string>, abandoned: set<string>,
                           ids: map<string, string>, count: int, s': State,
                           limit': int, overdue': set<string>, abandoned': set<string>,
                           ids': map<string, string>, count': int, s'': State)
    requires Inv(s) && ReconcileStep(s, now, limit, overdue, abandoned, ids, count, s') && count < limit
    requires ReconcileStep(s', now, limit', overdue', abandoned', ids', count', s'')
    ensures count' == 0 && s''.entries == s'.entries && s''.issued == s'.issued
  {
    ReconcileSettles(s, now, limit, overdue, abandoned, ids, count, s');
    hide Inv, Fresh, Retries, Overdue, Abandoned, Recover, Cancel, CancelOverdue;
    SettledStays(s', now, limit', overdue', abandoned', ids', count', s'');
  }

  lemma SettledStays(s: State, now: Time, limit: int, overdue: set<string>, abandoned: set<string>,
                     ids: map<string, string>, count: int, s': State)
    requires Settled(s.entries, now) && ReconcileStep(s, now, limit, overdue, abandoned, ids, count, s')
    ensures count == 0 && s'.entries == s.entries && s'.issued == s.issued
  {
    hide Fresh, Retries, Overdue, Abandoned, Recover, Cancel, CancelOverdue;
    assert overdue == {};
    assert CancelAll(s.entries, overdue, now) == s.entries;
    assert abandoned == {};
    assert RecoverAll(s.entries, abandoned, ids, now) == s.entries;
    assert ids.Keys == {};
    assert ids == map[];
  }

  // ------------------------------------------------------------------ a run is recovered a bounded number of times

  /** How often the steps counted a run as recovered. */
  function Recovered(ops: seq<Op>, r: string): nat {
    if ops == [] then 0
    else
      var op := ops[|ops| - 1];
      Recovered(ops[..|ops| - 1], r) +
      if op.OpReconcile? then (if r in op.overdue then 1 else 0) + (if r in op.abandoned then 1 else 0) else 0
  }

  /** Recoveries a run has left: its attempts, and one cancellation. */
  function Budget(e: Entry): int {
    if Terminal(e.run.status) then 0
    else AttemptLimit(e.request) - e.run.attempt.number + 1 + if e.run.cancelRequestedAt.None? then 1 else 0
  }

  lemma BudgetFalls(e: Entry, e': Entry)
    requires Sound(e) && Sound(e') && Evolves(e, e')
    ensures 0 <= Budget(e') <= Budget(e)
  {
    hide RunSound, LogSound;
  }

  lemma CancelSpends(e: Entry, now: Time)
    requires Sound(e) && Overdue(e, now)
    ensures Budget(CancelOverdue(e, now)) < Budget(e)
  {
    hide Terminals, Started, LogShape, LogSound;
  }

  lemma RecoverSpends(e: Entry, now: Time, id: string)
    requires Sound(e) && Abandoned(e, now)
    ensures Budget(Recover(e, now, id)) < Budget(e)
  {
    hide Terminals, Started, LogShape, LogSound;
  }

  lemma ReconcileSpends(s: State, op: Op, s': State, r: string)
    requires Inv(s) && op.OpReconcile? && Next(s, op, s') && r in s.entries && r in s'.entries
    ensures Budget(s'.entries[r]) + (if r in op.overdue then 1 else 0) + (if r in op.abandoned then 1 else 0)
            <= Budget(s.entries[r])
  {
    hide Inv, Sound, Cancel, Recover, Fresh, Retries, Abandoned, Overdue, CancelOverdue, Budget;
    var e := s.entries[r];
    SoundAt(s, r);
    OverdueCancelSound(e, op.now);
    var mid := CancelAll(s.entries, op.overdue, op.now)[r];
    if r in op.overdue {
      CancelSpends(e, op.now);
    }
    if r in op.abandoned {
      assert Abandoned(mid, op.now);
      RecoverSpends(mid, op.now, if r in op.ids then op.ids[r] else "");
    }
  }

  lemma StepSpends(s: State, op: Op, s': State, r: string)
    requires Inv(s) && Next(s, op, s') && r in s.entries
    ensures r in s'.entries && Budget(s'.entries[r]) >= 0
    ensures Budget(s'.entries[r]) + (if op.OpReconcile? then (if r in op.overdue then 1 else 0) + (if r in op.abandoned then 1 else 0) else 0)
            <= Budget(s.entries[r])
  {
    hide Inv, Next, Sound, Evolves, Budget, IndexInv;
    NextKeeps(s, op, s');
    SoundAt(s, r);
    BudgetFalls(s.entries[r], s'.entries[r]);
    if op.OpReconcile? { ReconcileSpends(s, op, s', r); }
  }

  lemma NotYetRecovered(s: State, op: Op, s': State, r: string)
    requires Next(s, op, s') && r !in s.entries
    ensures op.OpReconcile? ==> r !in op.overdue && r !in op.abandoned
    ensures r in s'.entries ==> Budget(s'.entries[r]) <= AttemptLimit(s'.entries[r].request) + 1
  {
    hide Sweep, Cancel, Recover, Apply, Grant, Fresh, Retries, Abandoned, Overdue, Claimable, LiveOn, Terminals, Started, LogShape;
  }

  lemma {:induction false} BudgetCovers(tr: Trace, n: nat, r: string)
    requires IsTrace(tr) && n <= |tr.ops|
    ensures r !in tr.states[n].entries ==> Recovered(tr.ops[..n], r) == 0
    ensures r in tr.states[n].entries ==>
              Recovered(tr.ops[..n], r) + Budget(tr.states[n].entries[r]) <= AttemptLimit(tr.states[n].entries[r].request) + 1
  {
    hide Inv, Next, Budget;
    if n > 0 {
      var m := n - 1;
      BudgetCovers(tr, m, r);
      assert tr.ops[..n][..m] == tr.ops[..m];
      if r in tr.states[m].entries {
        Reachable(tr, m);
        StepSpends(tr.states[m], tr.ops[m], tr.states[n], r);
        RunBetween(tr, m, n, r);
      } else {
        NotYetRecovered(tr.states[m], tr.ops[m], tr.states[n], r);
      }
    }
  }

  lemma BudgetSign(e: Entry)
    requires Sound(e)
    ensures 0 <= Budget(e)
  {
    hide RunSound, LogSound;
  }

  /** Over its whole life a run is counted as recovered at most once per attempt, and once more for its cancellation. */
  lemma RecoveriesBounded(tr: Trace, n: nat, r: string)
    requires IsTrace(tr) && n <= |tr.ops| && r in tr.states[n].entries
    ensures Recovered(tr.ops[..n], r) <= AttemptLimit(tr.states[n].entries[r].request) + 1
  {
    BudgetCovers(tr, n, r);
    Reachable(tr, n);
    hide Inv, IsTrace, Budget, Recovered;
    SoundAt(tr.states[n], r);
    BudgetSign(tr.states[n].entries[r]);
  }
}

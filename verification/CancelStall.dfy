/** In memory a cancellation can stall for ever; exactly when, and how a run gets there. */
module CancelStall {
  import opened Types
  import opened Identity
  import opened RunProtocol
  import opened RunInvariants
  import opened Protocol
  import opened Behaviours
  import opened Producers
  import opened Reconciliation

  /** The lease ran out while the run was being cancelled, and was put back in the queue. */
  predicate Stalled(e: Entry) {
    e.run.status == RunCancelling && e.run.attempt.status == AttemptQueued
  }

  lemma CancellingIsRecovered(e: Entry, now: Time)
    requires Sound(e) && e.run.status == RunCancelling
    ensures Abandoned(e, now) <==> !Stalled(e) && LeasePassed(e.run.attempt, now)
    ensures forall id :: Recover(e, now, id).run.status == RunCancelled
    ensures CancelOverdue(e, now) == e
  {
    hide Terminals, Started, LogShape, LogSound, HistorySound;
  }

  /** Reconciliation with room to spare finishes a cancelling run exactly when the run has not stalled and its lease is over. */
  lemma ReconcileFinishes(s: State, now: Time, limit: int, overdue: set<string>, abandoned: set<string>,
                          ids: map<string, string>, count: int, s': State, r: string)
    requires Inv(s) && ReconcileStep(s, now, limit, overdue, abandoned, ids, count, s') && count < limit
    requires r in s.entries && s.entries[r].run.status == RunCancelling
    ensures r in s'.entries
    ensures s'.entries[r].run.status == RunCancelled <==> !Stalled(s.entries[r]) && LeasePassed(s.entries[r].run.attempt, now)
  {
    hide Inv, Sound, Recover, Cancel, CancelOverdue, Overdue, Abandoned, Retries, Fresh;
    var mid := CancelAll(s.entries, overdue, now);
    SoundAt(s, r);
    CancellingIsRecovered(s.entries[r], now);
    assert mid[r] == s.entries[r];
    WholeSet(abandoned, AbandonedRuns(mid, now), limit - |overdue|);
    assert r in AbandonedRuns(mid, now) <==> Abandoned(mid[r], now);
  }

  lemma StalledIsDeaf(e: Entry, attemptId: string, lease: string, call: Call)
    requires Sound(e) && Stalled(e)
    ensures Apply(e, attemptId, lease, call) == (e, Refused(ErrInvalidLease))
  {
    hide Terminals, Started, LogShape, LogSound, HistorySound, ApplyAuthorized, Expire;
  }

  lemma StalledIsLeft(e: Entry, now: Time, reason: string, requester: string)
    requires Sound(e) && Stalled(e)
    ensures Sweep(e, now) == e && Cancel(e, reason, requester, now) == e && CancelOverdue(e, now) == e
    ensures !Abandoned(e, now) && !Overdue(e, now)
  {
    hide Terminals, Started, LogShape, LogSound, HistorySound, FinalizeCancel;
  }

  lemma NextStalled(s: State, op: Op, s': State, r: string)
    requires Inv(s) && Next(s, op, s') && r in s.entries && Stalled(s.entries[r])
    ensures r in s'.entries && s'.entries[r].run == s.entries[r].run && !Grants(op, r)
  {
    hide Inv, Sound, Sweep, Cancel, CancelOverdue, Recover, Apply, Grant, Fresh, Retries, Abandoned, Overdue, LiveOn, SubmitStep;
    var e := s.entries[r];
    SoundAt(s, r);
    match op {
      case OpSubmit(_, _, _, _) => SubmitLeaves(s, op, s', r);
      case OpClaim(_, _, t, _) => StalledIsLeft(e, t, "", "");
      case OpCall(runId, attemptId, lease, call, _) => if runId == r { StalledIsDeaf(e, attemptId, lease, call); }
      case OpCancel(_, reason, requester, t) => StalledIsLeft(e, t, reason, requester);
      case OpReconcile(now, _, overdue, abandoned, _, _) =>
        StalledIsLeft(e, now, "", "");
        assert CancelAll(s.entries, overdue, now)[r] == e;
      case _ =>
    }
  }

  /** A stalled run stays cancelling for ever: no call, claim, cancellation or reconciliation finishes it. */
  lemma {:induction false} StalledForEver(tr: Trace, i: nat, j: nat, r: string)
    requires IsTrace(tr) && i <= j < |tr.states| && r in tr.states[i].entries && Stalled(tr.states[i].entries[r])
    ensures r in tr.states[j].entries && tr.states[j].entries[r].run == tr.states[i].entries[r].run
    decreases j - i
  {
    hide Inv, Next;
    if i < j {
      StalledForEver(tr, i, j - 1, r);
      Reachable(tr, j - 1);
      NextStalled(tr.states[j - 1], tr.ops[j - 1], tr.states[j], r);
    }
  }

  // ------------------------------------------------------------------ how a run comes to stall

  /** The old holder of an unstarted attempt calls after its expiry, with anything but a final report. */
  predicate LateCall(e: Entry, attemptId: string, lease: string, call: Call) {
    && Holds(e, attemptId, lease) && e.run.status == RunCancelling && e.run.attempt.status == AttemptLeased
    && !call.Complete? && !call.Fail? && LeasePassed(e.run.attempt, call.t1)
  }

  /** The call makes the run stall in the check it fails. */
  lemma LateCallStalls(e: Entry, attemptId: string, lease: string, call: Call)
    requires LateCall(e, attemptId, lease, call)
    ensures Stalled(Apply(e, attemptId, lease, call).0) && Apply(e, attemptId, lease, call).1 == Refused(ErrInvalidLease)
  {
    hide Terminals, Started, LogShape, ApplyAuthorized;
  }

  lemma AuthorizedDoesNotStall(e: Entry, attemptId: string, lease: string, call: Call, from: Time, to: Time)
    requires Sound(e) && !Stalled(e) && !call.Complete? && !call.Fail? && Ordered(from, call, to)
    requires Holds(e, attemptId, lease) && !LeaseOver(e.run.attempt, call.t1)
    ensures !Stalled(ApplyAuthorized(e, attemptId, lease, call).0)
  {
    hide Terminals, Started, LogShape, LogSound, HistorySound;
  }

  lemma ReportDoesNotStall(e: Entry, attemptId: string, lease: string, t1: Time, t2: Time, result: RunResult, cause: string)
    requires Sound(e) && !Stalled(e)
    ensures !Stalled(ApplyComplete(e, attemptId, lease, t1, t2, result).0)
    ensures !Stalled(ApplyFail(e, attemptId, lease, t1, t2, cause).0)
  {
    hide Terminals, Started, LogShape, LogSound, HistorySound;
  }

  lemma ExpiryStalls(e: Entry, now: Time)
    requires Sound(e) && !Stalled(e)
    ensures Stalled(Expire(e, now)) <==>
            e.run.status == RunCancelling && e.run.attempt.status == AttemptLeased && LeasePassed(e.run.attempt, now)
  {
    hide Terminals, Started, LogShape, LogSound, HistorySound;
  }

  lemma LeasedIsOver(e: Entry, now: Time)
    requires Sound(e) && (e.run.attempt.status == AttemptLeased || e.run.attempt.status == AttemptRunning)
    ensures LeaseOver(e.run.attempt, now) <==> LeasePassed(e.run.attempt, now)
  {
    hide LogSound, HistorySound;
  }

  /** A call makes a run stall exactly when it is such a late call. */
  lemma CallStalls(e: Entry, attemptId: string, lease: string, call: Call, from: Time, to: Time)
    requires Sound(e) && !Stalled(e) && Ordered(from, call, to)
    ensures Stalled(Apply(e, attemptId, lease, call).0) <==> LateCall(e, attemptId, lease, call)
  {
    hide Sound, Expire, ApplyAuthorized, ApplyComplete, ApplyFail;
    match call {
      case Complete(t1, t2, result) => ReportDoesNotStall(e, attemptId, lease, t1, t2, result, "");
      case Fail(t1, t2, cause) => ReportDoesNotStall(e, attemptId, lease, t1, t2, RunResult("", ""), cause);
      case _ =>
        ExpiryStalls(e, call.t1);
        if Holds(e, attemptId, lease) && !LeaseOver(e.run.attempt, call.t1) {
          AuthorizedDoesNotStall(e, attemptId, lease, call, from, to);
        }
        if Live(e) { LeasedIsOver(e, call.t1); }
    }
  }

  /** What puts a run into the stalled state. */
  ghost predicate Stalls(s: State, op: Op, r: string) {
    && op.OpCall? && op.runId == r && r in s.entries
    && LateCall(s.entries[r], op.attemptId, op.lease, op.call)
  }

  lemma OthersDoNotStall(e: Entry, now: Time, reason: string, requester: string, id: string)
    requires Sound(e) && !Stalled(e)
    ensures !Stalled(Sweep(e, now)) && !Stalled(Cancel(e, reason, requester, now))
    ensures Abandoned(e, now) ==> !Stalled(Recover(e, now, id))
  {
    hide Terminals, Started, LogShape, LogSound, HistorySound;
  }

  lemma SmallStepsDoNotStall(e: Entry, nodeId: string, lease: string, expires: Time, subject: Subject, id: string)
    ensures !Stalled(Grant(e, nodeId, lease, expires))
    ensures Stalled(Append(e, EvRecorded(subject, id))) <==> Stalled(e)
  {
    hide Terminals, Started, LogShape;
  }

  lemma NextStalls(s: State, op: Op, s': State, r: string)
    requires Inv(s) && Next(s, op, s') && r in s.entries && !Stalled(s.entries[r])
    ensures r in s'.entries && (Stalled(s'.entries[r]) <==> Stalls(s, op, r))
  {
    hide Inv, Sound, Sweep, Cancel, CancelOverdue, Recover, Apply, Grant, Fresh, Retries, Abandoned, Overdue, LiveOn, SubmitStep,
         Claimable, Stalled, LateCall;
    var e := s.entries[r];
    SoundAt(s, r);
    match op {
      case OpSubmit(_, _, _, _) => SubmitLeaves(s, op, s', r);
      case OpClaim(nodeId, ttl, t, reply) =>
        OthersDoNotStall(e, t, "", "", "");
        if reply.Accepted? { SmallStepsDoNotStall(Sweep(e, t), nodeId, reply.value.lease, t + ttl, ArtifactCreated, ""); }
      case OpCall(runId, attemptId, lease, call, _) =>
        if runId == r { CallStalls(e, attemptId, lease, call, s.clock, s'.clock); }
      case OpCancel(_, reason, requester, t) => OthersDoNotStall(e, t, reason, requester, "");
      case OpNote(_, subject, id) => SmallStepsDoNotStall(e, "", "", 0, subject, id);
      case OpReconcile(now, _, overdue, abandoned, ids, _) =>
        ReconcileDoesNotStall(s, op, s', r);
      case _ =>
    }
  }

  lemma ReconcileDoesNotStall(s: State, op: Op, s': State, r: string)
    requires Inv(s) && op.OpReconcile? && Next(s, op, s') && r in s.entries && !Stalled(s.entries[r])
    ensures r in s'.entries && !Stalled(s'.entries[r])
  {
    hide Inv, Sound, Sweep, Cancel, Recover, Fresh, Retries, Abandoned, Overdue, Stalled;
    var e := s.entries[r];
    SoundAt(s, r);
    OthersDoNotStall(e, op.now, "run timeout exceeded", "relay", "");
    CancelKeeps(e, "run timeout exceeded", "relay", op.now);
    var mid := CancelAll(s.entries, op.overdue, op.now)[r];
    if r in op.abandoned {
      assert Abandoned(mid, op.now);
      OthersDoNotStall(mid, op.now, "", "", if r in op.ids then op.ids[r] else "");
    }
  }

  lemma NewRunIsNotStalled(s: State, op: Op, s': State, r: string)
    requires Next(s, op, s') && r !in s.entries && r in s'.entries
    ensures !Stalled(s'.entries[r])
  {
    hide Sweep, Cancel, Recover, Apply, Grant, Fresh, Retries, Abandoned, Overdue, Claimable, LiveOn, Terminals, Started, LogShape;
  }

  /** In every history, a run has stalled by some moment exactly when a late call was made to it before. */
  lemma {:induction false} StalledByLateCall(tr: Trace, j: nat, r: string)
    requires IsTrace(tr) && j < |tr.states| && r in tr.states[j].entries
    ensures Stalled(tr.states[j].entries[r]) <==> exists i :: 0 <= i < j && Stalls(tr.states[i], tr.ops[i], r)
  {
    hide Inv, Next, Stalled, LateCall;
    if j > 0 {
      var m := j - 1;
      Reachable(tr, m);
      if r in tr.states[m].entries {
        StalledByLateCall(tr, m, r);
        if Stalled(tr.states[m].entries[r]) {
          StalledForEver(tr, m, j, r);
          SameRunStalled(tr.states[m].entries[r], tr.states[j].entries[r]);
          var i :| 0 <= i < m && Stalls(tr.states[i], tr.ops[i], r);
          assert i < j;
        } else {
          NextStalls(tr.states[m], tr.ops[m], tr.states[j], r);
        }
      } else {
        NewRunIsNotStalled(tr.states[m], tr.ops[m], tr.states[j], r);
        forall i | 0 <= i < j
          ensures !Stalls(tr.states[i], tr.ops[i], r)
        {
          if r in tr.states[i].entries { RunBetween(tr, i, m, r); }
        }
      }
    }
  }

  lemma SameRunStalled(e: Entry, e': Entry)
    requires Stalled(e) && e'.run == e.run
    ensures Stalled(e')
  {
  }

  /** Submit, claim, cancel before the start, and renew too late. */
  lemma StallExample() returns (e: Entry)
    ensures Stalled(e)
  {
    hide Terminals, Started, LogShape, ApplyAuthorized;
    var request := Request("tenant", "project", "key", {}, 1, 0, 0);
    var leased := Grant(NewEntry(request, "run", "attempt", 0), "node", "lease", 10);
    var cancelling := Cancel(leased, "enough", "user", 5);
    LateCallStalls(cancelling, "attempt", "lease", Renew(10, 10, 10));
    e := Apply(cancelling, "attempt", "lease", Renew(10, 10, 10)).0;
  }
}

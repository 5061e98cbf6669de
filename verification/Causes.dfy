/** Why a run is in its state: every status has its cause in the history, and every cause its effect. */
module Causes {
  import opened Types
  import opened Identity
  import opened RunProtocol
  import opened RunInvariants
  import opened Protocol
  import opened Behaviours
  import opened Producers
  import opened Reconciliation
  import opened Dispatch

  // ------------------------------------------------------------------ one step

  predicate AcceptedStart(op: Op, r: string, attemptId: string) {
    op.OpCall? && op.runId == r && op.call.Start? && op.attemptId == attemptId && op.answer == Done
  }

  /** The step records a cancellation: a client asked for one, or the deadline was found to have passed. */
  ghost predicate Cancels(s: State, op: Op, r: string) {
    && r in s.entries && (s.entries[r].run.status == RunQueued || s.entries[r].run.status == RunRunning)
    && match op
       case OpCancel(runId, _, _, _) => runId == r
       case OpReconcile(now, _, overdue, _, _, _) => r in overdue && Over(s.entries[r].run.deadlineAt, now)
       case OpClaim(nodeId, _, t, _) =>
         nodeId in s.nodes && |Load(s.entries, nodeId)| < s.nodes[nodeId].capacity && Over(s.entries[r].run.deadlineAt, t)
       case _ => false
  }

  /** What changed on a run, and because of what. */
  ghost predicate Caused(e: Entry, op: Op, e': Entry, r: string, cancels: bool) {
    && (e'.run.status == RunSucceeded && e.run.status != RunSucceeded ==>
          e'.run.result.Some? && Reported(op, r, e'.run.result.value))
    && (e'.run.status == RunFailed && e.run.status != RunFailed ==>
          if e'.run.attempt.status == AttemptFailed then ReportedFailure(op, r, e'.run.error)
          else op.OpReconcile? && LostAttempt(e, e', op.now))
    && (e'.run.cancelRequestedAt.Some? && e.run.cancelRequestedAt.None? <==> cancels)
    && (e'.run.attempt.startedAt.Some? && e.run.attempt.startedAt.None? ==> AcceptedStart(op, r, e'.run.attempt.id))
    && (op.OpCall? && AcceptedStart(op, r, op.attemptId) ==>
          e'.run.attempt.startedAt.Some? && e'.run.attempt.id == op.attemptId)
  }

  lemma ReportCause(e: Entry, r: string, attemptId: string, lease: string, t1: Time, t2: Time, result: RunResult, cause: string)
    requires Sound(e)
    ensures var (e', answer) := ApplyComplete(e, attemptId, lease, t1, t2, result);
      Caused(e, OpCall(r, attemptId, lease, Complete(t1, t2, result), answer), e', r, false)
    ensures var (e', answer) := ApplyFail(e, attemptId, lease, t1, t2, cause);
      Caused(e, OpCall(r, attemptId, lease, Fail(t1, t2, cause), answer), e', r, false)
  {
    hide Terminals, Started, LogShape, LogSound, HistorySound, LostAttempt, Appendable, HasEvent;
  }

  lemma ExpireCause(e: Entry, op: Op, now: Time, r: string)
    requires Sound(e) && (op.OpCall? ==> op.answer != Done)
    ensures Caused(e, op, Expire(e, now), r, false)
  {
    hide Terminals, Started, LogShape, LogSound, HistorySound, LostAttempt, Appendable, HasEvent;
  }

  lemma AuthorizedCause(e: Entry, r: string, attemptId: string, lease: string, call: Call)
    requires Sound(e) && !call.Complete? && !call.Fail? && e.run.attempt.id == attemptId
    ensures var (e', answer) := ApplyAuthorized(e, attemptId, lease, call);
      Caused(e, OpCall(r, attemptId, lease, call, answer), e', r, false)
  {
    hide Terminals, Started, LogShape, LogSound, HistorySound, LostAttempt, Appendable, HasEvent;
  }

  lemma ApplyCause(e: Entry, r: string, attemptId: string, lease: string, call: Call)
    requires Sound(e)
    ensures var (e', answer) := Apply(e, attemptId, lease, call);
      Caused(e, OpCall(r, attemptId, lease, call, answer), e', r, false)
  {
    hide Sound, Caused, Expire, ApplyAuthorized, ApplyComplete, ApplyFail;
    match call {
      case Complete(t1, t2, result) => ReportCause(e, r, attemptId, lease, t1, t2, result, "");
      case Fail(t1, t2, cause) => ReportCause(e, r, attemptId, lease, t1, t2, RunResult("", ""), cause);
      case _ =>
        var op := OpCall(r, attemptId, lease, call, Refused(ErrInvalidLease));
        ExpireCause(e, op, call.t1, r);
        StayCause(e, op, r);
        if Holds(e, attemptId, lease) { AuthorizedCause(e, r, attemptId, lease, call); }
    }
  }

  lemma StayCause(e: Entry, op: Op, r: string)
    requires Sound(e) && (op.OpCall? && op.runId == r ==> op.answer != Done)
    ensures Caused(e, op, e, r, false)
  {
    hide LogSound, HistorySound, LostAttempt;
  }

  lemma CancelCause(e: Entry, op: Op, reason: string, requester: string, now: Time, r: string)
    requires Sound(e) && !op.OpCall?
    ensures Caused(e, op, Cancel(e, reason, requester, now), r, e.run.status == RunQueued || e.run.status == RunRunning)
  {
    hide Terminals, Started, LogShape, LogSound, HistorySound, LostAttempt, Appendable, HasEvent;
  }

  lemma TailCause(e: Entry, e1: Entry, op: Op, now: Time, r: string, cancels: bool)
    requires Sound(e1) && !op.OpCall? && Caused(e, op, e1, r, cancels)
    ensures Caused(e, op, Expire(e1, now), r, cancels)
    ensures e1.run.status == RunCancelling ==> Caused(e, op, FinalizeCancel(e1, now), r, cancels)
  {
    hide Terminals, Started, LogShape, LogSound, HistorySound, LostAttempt, Appendable, HasEvent;
    LostEnds(e, e1);
  }

  lemma LostEnds(e: Entry, e1: Entry)
    ensures forall now :: LostAttempt(e, e1, now) && e1.run.status == RunFailed ==> e1.run.attempt.status == AttemptLost
  {
  }

  lemma SweepCause(e: Entry, op: Op, now: Time, r: string)
    requires Sound(e) && !op.OpCall?
    ensures Caused(e, op, Sweep(e, now), r,
                   (e.run.status == RunQueued || e.run.status == RunRunning) && Over(e.run.deadlineAt, now))
  {
    hide Cancel, Expire, FinalizeCancel, Caused, Sound;
    CancelCause(e, op, "run timeout exceeded", "relay", now, r);
    OverdueCancelSound(e, now);
    StayCause(e, op, r);
    FieldsOf(e, now);
    Uncancelled(e);
    var e1 := if DeadlinePassed(e, now) && e.run.cancelRequestedAt.None? then CancelOverdue(e, now) else e;
    TailCause(e, e1, op, now, r, (e.run.status == RunQueued || e.run.status == RunRunning) && Over(e.run.deadlineAt, now));
  }

  lemma Uncancelled(e: Entry)
    requires Sound(e)
    ensures e.run.status == RunQueued || e.run.status == RunRunning ==> e.run.cancelRequestedAt.None?
  {
    hide LogSound, HistorySound;
  }

  lemma GrantCause(e: Entry, e': Entry, op: Op, nodeId: string, lease: string, expires: Time, r: string, cancels: bool)
    requires Caused(e, op, e', r, cancels) && op.OpClaim?
    ensures Caused(e, op, Grant(e', nodeId, lease, expires), r, cancels)
  {
    hide Terminals, Started, LogShape, LostAttempt, Appendable, HasEvent;
  }

  lemma NoteCause(e: Entry, op: Op, subject: Subject, id: string, r: string)
    requires Sound(e) && !op.OpCall?
    ensures Caused(e, op, Append(e, EvRecorded(subject, id)), r, false)
  {
    hide Terminals, Started, LogShape, LogSound, HistorySound, LostAttempt, Appendable, HasEvent;
  }

  /** Recovery after a possible cancellation in the same pass. */
  lemma RecoverCause(e: Entry, mid: Entry, op: Op, id: string, r: string, cancels: bool)
    requires Sound(e) && Sound(mid) && op.OpReconcile? && Caused(e, op, mid, r, cancels) && Abandoned(mid, op.now)
    requires mid == e || mid.run.cancelRequestedAt.Some?
    ensures Caused(e, op, Recover(mid, op.now, id), r, cancels)
  {
    RecoverEffect(mid, op.now, id);
    hide Terminals, Started, LogShape, LogSound, HistorySound, Appendable, HasEvent, Recover;
    RecoveredStart(mid, op.now, id);
  }

  lemma RecoveredStart(e: Entry, now: Time, id: string)
    ensures var e' := Recover(e, now, id);
      e'.run.attempt.startedAt == e.run.attempt.startedAt || e'.run.attempt.startedAt.None?
    ensures e.run.status != RunCancelling ==> Recover(e, now, id).run.cancelRequestedAt == e.run.cancelRequestedAt
  {
    hide Terminals, Started, LogShape, Appendable, HasEvent;
  }

  /** Every change of a run is caused by the step, and a cancellation is recorded exactly by a step that cancels. */
  lemma StepCause(s: State, op: Op, s': State, r: string)
    requires Inv(s) && Next(s, op, s') && r in s.entries
    ensures r in s'.entries && Caused(s.entries[r], op, s'.entries[r], r, Cancels(s, op, r))
  {
    hide Inv, Sound, Sweep, Cancel, CancelOverdue, Recover, Apply, Grant, Fresh, Retries, Abandoned, Overdue, LiveOn, Load,
         SubmitStep, Claimable, Caused;
    var e := s.entries[r];
    SoundAt(s, r);
    match op {
      case OpSubmit(_, _, _, _) => SubmitLeaves(s, op, s', r); StayCause(e, op, r);
      case OpClaim(nodeId, ttl, t, reply) =>
        LoadIsLive(s.entries, nodeId);
        SweepCause(e, op, t, r);
        StayCause(e, op, r);
        if reply.Accepted? {
          GrantCause(e, Sweep(e, t), op, nodeId, reply.value.lease, t + ttl, r, Cancels(s, op, r));
        }
      case OpCall(runId, attemptId, lease, call, answer) =>
        if runId == r { ApplyCause(e, r, attemptId, lease, call); } else { StayCause(e, op, r); }
      case OpCancel(runId, reason, requester, t) =>
        CancelCause(e, op, reason, requester, t, r);
        StayCause(e, op, r);
      case OpNote(runId, subject, id) =>
        NoteCause(e, op, subject, id, r);
        StayCause(e, op, r);
      case OpReconcile(now, _, overdue, abandoned, ids, _) => ReconcileCause(s, op, s', r);
      case _ => StayCause(e, op, r);
    }
  }

  lemma ReconcileCause(s: State, op: Op, s': State, r: string)
    requires Inv(s) && op.OpReconcile? && Next(s, op, s') && r in s.entries
    ensures r in s'.entries && Caused(s.entries[r], op, s'.entries[r], r, Cancels(s, op, r))
  {
    hide Inv, Sound, Sweep, Cancel, Recover, Fresh, Retries, Abandoned, Overdue, Caused;
    var e := s.entries[r];
    SoundAt(s, r);
    FieldsOf(e, op.now);
    CancelCause(e, op, "run timeout exceeded", "relay", op.now, r);
    StayCause(e, op, r);
    OverdueCancelSound(e, op.now);
    var mid := CancelAll(s.entries, op.overdue, op.now)[r];
    assert r in op.overdue ==> Overdue(e, op.now);
    if r in op.abandoned {
      assert Abandoned(mid, op.now);
      if r in op.overdue { OverdueEffect(e, op.now); }
      RecoverCause(e, mid, op, if r in op.ids then op.ids[r] else "", r, Cancels(s, op, r));
    }
  }

  /** A run that was just submitted. */
  lemma NewRunCause(s: State, op: Op, s': State, r: string)
    requires Inv(s) && Next(s, op, s') && r !in s.entries && r in s'.entries
    ensures op.OpSubmit? && op.runId == r
    ensures var e := s'.entries[r];
      && e.run.status == RunQueued && e.run.attempt.startedAt.None? && e.run.cancelRequestedAt.None?
      && e.request == op.request && e.run.deadlineAt == if op.request.timeout > 0 then Some(op.t + op.request.timeout) else None
  {
    hide Inv, Sweep, Cancel, Recover, Apply, Grant, Fresh, Retries, Abandoned, Overdue, Claimable, LiveOn, Terminals, Started, LogShape,
         SubmitScope;
  }

  lemma NothingBefore(s: State, op: Op, s': State, r: string)
    requires Next(s, op, s') && r !in s.entries
    ensures !(op.OpCall? && op.runId == r && op.answer == Done) && !Cancels(s, op, r)
  {
    hide Sweep, Cancel, Recover, Apply, Grant, Fresh, Retries, Abandoned, Overdue, Claimable, LiveOn, Load, NewEntry, SubmitScope;
  }

  // ------------------------------------------------------------------ histories

  /** A run has succeeded exactly when a completion was accepted, and with its result. */
  lemma {:induction false} SucceededBecause(tr: Trace, n: nat, r: string, result: RunResult)
    requires IsTrace(tr) && n < |tr.states| && r in tr.states[n].entries
    ensures tr.states[n].entries[r].run.status == RunSucceeded && tr.states[n].entries[r].run.result == Some(result)
            <==> exists i :: 0 <= i < n && Reported(tr.ops[i], r, result)
  {
    hide Inv, Next, Init, Reported, Cancels;
    if i :| 0 <= i < n && Reported(tr.ops[i], r, result) { AcceptedReportHolds(tr, i, n, r, result, ""); }
    if n > 0 {
      var m := n - 1;
      Stepped(tr, m);
      if r in tr.states[m].entries {
        SucceededBecause(tr, m, r, result);
        StepCause(tr.states[m], tr.ops[m], tr.states[n], r);
        if tr.states[m].entries[r].run.status == RunSucceeded { TerminalIsFinal(tr, m, n, r); }
      } else {
        NewRunCause(tr.states[m], tr.ops[m], tr.states[n], r);
      }
    } else {
      NoRuns(tr);
    }
  }

  lemma Stepped(tr: Trace, m: nat)
    requires IsTrace(tr) && m < |tr.ops|
    ensures Inv(tr.states[m]) && Next(tr.states[m], tr.ops[m], tr.states[m + 1]) && Inv(tr.states[m + 1]) && |tr.states| == |tr.ops| + 1
  {
    hide Inv, Next;
    Reachable(tr, m);
    Reachable(tr, m + 1);
  }

  lemma NoRuns(tr: Trace)
    requires IsTrace(tr)
    ensures |tr.states| > 0 && tr.states[0].entries == map[]
  {
    hide Next;
  }

  /** A run was failed by its node exactly when a failure report was accepted, and with its cause. */
  lemma {:induction false} FailedBecause(tr: Trace, n: nat, r: string, cause: string)
    requires IsTrace(tr) && n < |tr.states| && r in tr.states[n].entries
    ensures var run := tr.states[n].entries[r].run;
      run.status == RunFailed && run.attempt.status == AttemptFailed && run.error == cause
      <==> exists i :: 0 <= i < n && ReportedFailure(tr.ops[i], r, cause)
  {
    hide Inv, Next, Init, ReportedFailure, Cancels;
    if i :| 0 <= i < n && ReportedFailure(tr.ops[i], r, cause) {
      AcceptedReportHolds(tr, i, n, r, RunResult("", ""), cause);
      AcceptedFailure(tr, i, n, r, cause);
    }
    if n > 0 {
      var m := n - 1;
      Stepped(tr, m);
      if r in tr.states[m].entries {
        FailedBecause(tr, m, r, cause);
        StepCause(tr.states[m], tr.ops[m], tr.states[n], r);
        if tr.states[m].entries[r].run.status == RunFailed { TerminalIsFinal(tr, m, n, r); }
      } else {
        NewRunCause(tr.states[m], tr.ops[m], tr.states[n], r);
      }
    } else {
      NoRuns(tr);
    }
  }

  lemma AcceptedFailure(tr: Trace, i: nat, n: nat, r: string, cause: string)
    requires IsTrace(tr) && i < n < |tr.states| && ReportedFailure(tr.ops[i], r, cause)
    ensures r in tr.states[n].entries && tr.states[n].entries[r].run.attempt.status == AttemptFailed
  {
    hide Inv, Next, Init;
    Stepped(tr, i);
    FailureStep(tr.states[i], tr.ops[i], tr.states[i + 1], r, cause);
    hide Next;
    TerminalIsFinal(tr, i + 1, n, r);
  }

  lemma FailureStep(s: State, op: Op, s': State, r: string, cause: string)
    requires Next(s, op, s') && ReportedFailure(op, r, cause)
    ensures r in s'.entries && s'.entries[r].run.status == RunFailed && s'.entries[r].run.attempt.status == AttemptFailed
  {
    hide Terminals, Started, LogShape, ApplyAuthorized, FinalizeCancel, Expire;
  }

  /** A cancellation is on record exactly when a client asked for one, or the deadline was found to have passed,
      while the run was neither finished nor already cancelled. */
  lemma {:induction false} CancelledBecause(tr: Trace, n: nat, r: string)
    requires IsTrace(tr) && n < |tr.states| && r in tr.states[n].entries
    ensures tr.states[n].entries[r].run.cancelRequestedAt.Some?
            <==> exists i :: 0 <= i < n && Cancels(tr.states[i], tr.ops[i], r)
  {
    hide Inv, Next, Init, Cancels;
    if n > 0 {
      var m := n - 1;
      Stepped(tr, m);
      if r in tr.states[m].entries {
        CancelledBecause(tr, m, r);
        StepCause(tr.states[m], tr.ops[m], tr.states[n], r);
        if tr.states[m].entries[r].run.cancelRequestedAt.Some? {
          CancelKept(tr, m, n, r);
          var i :| 0 <= i < m && Cancels(tr.states[i], tr.ops[i], r);
          assert i < n;
        }
      } else {
        NewRunCause(tr.states[m], tr.ops[m], tr.states[n], r);
        forall i | 0 <= i < n
          ensures !Cancels(tr.states[i], tr.ops[i], r)
        {
          if r in tr.states[i].entries { RunBetween(tr, i, m, r); }
          Stepped(tr, i);
          NothingBefore(tr.states[i], tr.ops[i], tr.states[i + 1], r);
        }
      }
    } else {
      NoRuns(tr);
    }
  }

  lemma CancelKept(tr: Trace, i: nat, j: nat, r: string)
    requires IsTrace(tr) && i <= j < |tr.states| && r in tr.states[i].entries
    requires tr.states[i].entries[r].run.cancelRequestedAt.Some?
    ensures r in tr.states[j].entries && tr.states[j].entries[r].run.cancelRequestedAt.Some?
  {
    hide IsTrace, Sound, EntryStep;
    RunBetween(tr, i, j, r);
  }

  /** A run that failed without a report had used up its attempts, and lost the last one. */
  lemma {:induction false} LostBecauseExhausted(tr: Trace, n: nat, r: string)
    requires IsTrace(tr) && n < |tr.states| && r in tr.states[n].entries
    requires tr.states[n].entries[r].run.status == RunFailed && tr.states[n].entries[r].run.attempt.status != AttemptFailed
    ensures var e := tr.states[n].entries[r];
      && e.run.attempt.status == AttemptLost && e.run.error == "attempt lease expired"
      && e.run.attempt.number == if e.request.maxAttempts > 1 then e.request.maxAttempts else 1
  {
    hide Inv, Next, Init, Cancels;
    if n > 0 {
      var m := n - 1;
      Stepped(tr, m);
      if r in tr.states[m].entries {
        StepCause(tr.states[m], tr.ops[m], tr.states[n], r);
        if tr.states[m].entries[r].run.status == RunFailed {
          TerminalIsFinal(tr, m, n, r);
          RunBetween(tr, m, n, r);
          LostBecauseExhausted(tr, m, r);
        } else {
          RunBetween(tr, m, n, r);
          LastAttempt(tr.states[m].entries[r], tr.states[n].entries[r], tr.ops[m].now);
        }
      } else {
        NewRunCause(tr.states[m], tr.ops[m], tr.states[n], r);
      }
    } else {
      NoRuns(tr);
    }
  }

  lemma LastAttempt(e: Entry, e': Entry, now: Time)
    requires Sound(e) && LostAttempt(e, e', now) && e'.run.status == RunFailed && e'.request == e.request
    ensures e'.run.attempt.status == AttemptLost && e'.run.error == "attempt lease expired"
    ensures e'.run.attempt.number == if e'.request.maxAttempts > 1 then e'.request.maxAttempts else 1
  {
    hide RunSound, LogSound;
  }

  /** The present attempt has started exactly when its start was accepted. */
  lemma {:induction false} StartedBecause(tr: Trace, n: nat, r: string, attemptId: string)
    requires IsTrace(tr) && n < |tr.states| && r in tr.states[n].entries && tr.states[n].entries[r].run.attempt.id == attemptId
    ensures tr.states[n].entries[r].run.attempt.startedAt.Some?
            <==> exists i :: 0 <= i < n && AcceptedStart(tr.ops[i], r, attemptId)
  {
    hide Inv, Next, Init, Cancels, AcceptedStart;
    if i :| 0 <= i < n && AcceptedStart(tr.ops[i], r, attemptId) { StartKept(tr, i, n, r, attemptId); }
    if n > 0 {
      var m := n - 1;
      Stepped(tr, m);
      if r in tr.states[m].entries {
        StepCause(tr.states[m], tr.ops[m], tr.states[n], r);
        if tr.states[n].entries[r].run.attempt.startedAt.Some? && tr.states[m].entries[r].run.attempt.startedAt.Some? {
          SameAttempt(tr, m, n, r);
          StartedBecause(tr, m, r, attemptId);
        }
      } else {
        NewRunCause(tr.states[m], tr.ops[m], tr.states[n], r);
      }
    } else {
      NoRuns(tr);
    }
  }

  /** From one started attempt to the next there is a moment without one. */
  lemma SameAttempt(tr: Trace, m: nat, n: nat, r: string)
    requires IsTrace(tr) && n == m + 1 < |tr.states| && r in tr.states[m].entries
    ensures r in tr.states[n].entries
    ensures tr.states[m].entries[r].run.attempt.startedAt.Some? && tr.states[n].entries[r].run.attempt.startedAt.Some? ==>
              tr.states[n].entries[r].run.attempt.id == tr.states[m].entries[r].run.attempt.id
  {
    hide Inv, Next, Init;
    Stepped(tr, m);
    SameAttemptStep(tr.states[m], tr.ops[m], tr.states[n], r);
  }

  /** A step replaces an attempt only by one that was not handed out yet. */
  lemma SameAttemptStep(s: State, op: Op, s': State, r: string)
    requires Inv(s) && Next(s, op, s') && r in s.entries
    ensures r in s'.entries
    ensures s'.entries[r].run.attempt.id == s.entries[r].run.attempt.id
            || (s'.entries[r].run.attempt.status == AttemptQueued && s'.entries[r].run.attempt.startedAt.None? && s'.entries[r].run.attempt.lease == "")
  {
    hide Inv, Sound, Sweep, Cancel, CancelOverdue, Recover, Apply, Grant, Fresh, Retries, Abandoned, Overdue, LiveOn, SubmitStep, Claimable;
    var e := s.entries[r];
    SoundAt(s, r);
    match op {
      case OpSubmit(_, _, _, _) => SubmitLeaves(s, op, s', r);
      case OpClaim(nodeId, ttl, t, reply) =>
        SweepSameHolder(e, t);
        if reply.Accepted? { GrantSameAttempt(Sweep(e, t), nodeId, reply.value.lease, t + ttl); }
      case OpCall(runId, attemptId, lease, call, _) => ApplySameHolder(e, attemptId, lease, call);
      case OpCancel(_, reason, requester, t) => CancelSameHolder(e, reason, requester, t);
      case OpReconcile(now, _, overdue, abandoned, ids, _) =>
        CancelSameHolder(e, "run timeout exceeded", "relay", now);
        CancelOverdueIs(e, now);
        RecoverAttempt(CancelAll(s.entries, overdue, now)[r], now, if r in ids then ids[r] else "");
      case _ =>
    }
  }

  lemma CancelOverdueIs(e: Entry, now: Time)
    ensures CancelOverdue(e, now) == Cancel(e, "run timeout exceeded", "relay", now)
  {
    hide Cancel;
  }

  lemma GrantSameAttempt(e: Entry, nodeId: string, lease: string, expires: Time)
    ensures Grant(e, nodeId, lease, expires).run.attempt.id == e.run.attempt.id
  {
    hide Terminals, Started, LogShape;
  }

  lemma RecoverAttempt(e: Entry, now: Time, id: string)
    ensures var e' := Recover(e, now, id);
      e'.run.attempt.id == e.run.attempt.id
      || (e'.run.attempt.status == AttemptQueued && e'.run.attempt.startedAt.None? && e'.run.attempt.lease == "")
  {
    hide Terminals, Started, LogShape;
  }

  lemma StartKept(tr: Trace, i: nat, n: nat, r: string, attemptId: string)
    requires IsTrace(tr) && i < n < |tr.states| && AcceptedStart(tr.ops[i], r, attemptId)
    requires r in tr.states[n].entries && tr.states[n].entries[r].run.attempt.id == attemptId
    ensures tr.states[n].entries[r].run.attempt.startedAt.Some?
  {
    hide Inv, Next, Init, Cancels, LogShape, Terminals, Started, PastShape;
    Stepped(tr, i);
    if r !in tr.states[i].entries { NothingBefore(tr.states[i], tr.ops[i], tr.states[i + 1], r); }
    StepCause(tr.states[i], tr.ops[i], tr.states[i + 1], r);
    RunBetween(tr, i + 1, n, r);
    var e, e' := tr.states[i + 1].entries[r], tr.states[n].entries[r];
    assert e.run.attempt.id in Started(e.log);
    StartedGrows(e.log, e'.log);
    assert attemptId in Started(e'.log);
  }

  lemma {:induction false} StartedGrows(log: seq<Event>, log': seq<Event>)
    requires log <= log'
    ensures Started(log) <= Started(log')
    decreases |log'|
  {
    if log != log' {
      var before := log'[..|log'| - 1];
      assert log <= before;
      StartedGrows(log, before);
    }
  }

  /** A run keeps what was submitted: its request, and the deadline that its timeout gives. */
  lemma {:induction false} Submitted(tr: Trace, n: nat, r: string)
    requires IsTrace(tr) && n < |tr.states| && r in tr.states[n].entries
    ensures exists i :: 0 <= i < n && tr.ops[i].OpSubmit? && tr.ops[i].runId == r && r !in tr.states[i].entries
              && tr.states[n].entries[r].request == tr.ops[i].request
              && tr.states[n].entries[r].run.deadlineAt ==
                 if tr.ops[i].request.timeout > 0 then Some(tr.ops[i].t + tr.ops[i].request.timeout) else None
  {
    hide Inv, Next, Init, EntryStep, Sound;
    if n > 0 {
      var m := n - 1;
      Stepped(tr, m);
      if r in tr.states[m].entries {
        Submitted(tr, m, r);
        RunBetween(tr, m, n, r);
        var i :| 0 <= i < m && tr.ops[i].OpSubmit? && tr.ops[i].runId == r && r !in tr.states[i].entries
              && tr.states[m].entries[r].request == tr.ops[i].request
              && tr.states[m].entries[r].run.deadlineAt ==
                 if tr.ops[i].request.timeout > 0 then Some(tr.ops[i].t + tr.ops[i].request.timeout) else None;
        assert i < n;
      } else {
        NewRunCause(tr.states[m], tr.ops[m], tr.states[n], r);
      }
    } else {
      NoRuns(tr);
    }
  }

  /** A reconciliation with room to spare leaves no run queued or executing whose timeout, counted from its submission,
      has passed. */
  lemma DeadlineEnforced(tr: Trace, i: nat, n: nat, r: string)
    requires IsTrace(tr) && i < n < |tr.ops| && tr.ops[i].OpSubmit? && tr.ops[i].runId == r && r !in tr.states[i].entries
    requires tr.ops[n].OpReconcile? && tr.ops[n].count < tr.ops[n].limit
    requires 0 < tr.ops[i].request.timeout && tr.ops[i].t + tr.ops[i].request.timeout <= tr.ops[n].now
    ensures r in tr.states[n + 1].entries
    ensures tr.states[n + 1].entries[r].run.status != RunQueued && tr.states[n + 1].entries[r].run.status != RunRunning
  {
    hide Inv, Next, Init, EntryStep, Sound;
    Stepped(tr, i);
    NewRunThere(tr.states[i], tr.ops[i], tr.states[i + 1]);
    RunBetween(tr, i + 1, n, r);
    Submitted(tr, n, r);
    var j :| 0 <= j < n && tr.ops[j].OpSubmit? && tr.ops[j].runId == r && r !in tr.states[j].entries
              && tr.states[n].entries[r].request == tr.ops[j].request
              && tr.states[n].entries[r].run.deadlineAt ==
                 if tr.ops[j].request.timeout > 0 then Some(tr.ops[j].t + tr.ops[j].request.timeout) else None;
    if i < j { RunBetween(tr, i + 1, j, r); }
    Stepped(tr, j);
    NewRunThere(tr.states[j], tr.ops[j], tr.states[j + 1]);
    if j < i { RunBetween(tr, j + 1, i, r); }
    Stepped(tr, n);
    ReconciledRun(tr.states[n], tr.ops[n], tr.states[n + 1], r);
  }

  lemma NewRunThere(s: State, op: Op, s': State)
    requires Next(s, op, s') && op.OpSubmit? && op.runId !in s.entries && Inv(s)
    ensures op.runId in s'.entries
  {
    hide EntryInv, LeasesDistinct, SubmitScope, NewEntry;
  }
}

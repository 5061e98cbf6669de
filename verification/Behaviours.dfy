/** What holds over whole runs of the control plane: every state of every sequence of steps. */
module Behaviours {
  import opened Types
  import opened Identity
  import opened RunProtocol
  import opened RunInvariants
  import opened Protocol

  /** `states[i]` is the state before `ops[i]`. */
  datatype Trace = Trace(states: seq<State>, ops: seq<Op>)

  ghost predicate IsTrace(tr: Trace) {
    && |tr.states| == |tr.ops| + 1
    && Init(tr.states[0])
    && forall i :: 0 <= i < |tr.ops| ==> Next(tr.states[i], tr.ops[i], tr.states[i + 1])
  }

  lemma {:induction false} Reachable(tr: Trace, i: nat)
    requires IsTrace(tr) && i < |tr.states|
    ensures Inv(tr.states[i])
  {
    hide Inv, Next, Advances;
    if i == 0 {
      InitInv(tr.states[0]);
    } else {
      Reachable(tr, i - 1);
      NextKeeps(tr.states[i - 1], tr.ops[i - 1], tr.states[i]);
    }
  }

  lemma InitInv(s: State)
    requires Init(s)
    ensures Inv(s)
  {
  }

  lemma {:induction false} Between(tr: Trace, i: nat, j: nat)
    requires IsTrace(tr) && i <= j < |tr.states|
    ensures Advances(tr.states[i], tr.states[j])
    decreases j - i
  {
    hide Inv, Next, Advances;
    Reachable(tr, i);
    if i == j {
      StillStep(tr.states[i], tr.states[i]);
    } else {
      Between(tr, i, j - 1);
      Reachable(tr, j - 1);
      NextKeeps(tr.states[j - 1], tr.ops[j - 1], tr.states[j]);
      AdvancesTransitive(tr.states[i], tr.states[j - 1], tr.states[j]);
    }
  }

  /** The state of a run at two moments of a trace. */
  lemma RunBetween(tr: Trace, i: nat, j: nat, r: string)
    requires IsTrace(tr) && i <= j < |tr.states| && r in tr.states[i].entries
    ensures r in tr.states[j].entries && Sound(tr.states[i].entries[r]) && Sound(tr.states[j].entries[r])
    ensures Evolves(tr.states[i].entries[r], tr.states[j].entries[r])
    ensures EntryStep(tr.states[i], tr.states[j], tr.states[i].entries[r], tr.states[j].entries[r])
  {
    hide Inv, Sound, Evolves;
    Between(tr, i, j);
    Reachable(tr, i);
    Reachable(tr, j);
    SoundAt(tr.states[i], r);
    SoundAt(tr.states[j], r);
  }

  // ------------------------------------------------------------------ terminal states

  /** A finished run never changes status, attempt, result or error again. */
  lemma TerminalIsFinal(tr: Trace, i: nat, j: nat, r: string)
    requires IsTrace(tr) && i <= j < |tr.states| && r in tr.states[i].entries
    requires Terminal(tr.states[i].entries[r].run.status)
    ensures r in tr.states[j].entries && tr.states[j].entries[r].run == tr.states[i].entries[r].run
    ensures tr.states[j].entries[r].past == tr.states[i].entries[r].past
  {
    RunBetween(tr, i, j, r);
    hide Sound, EntryStep, IsTrace;
  }

  /** The log holds the terminal event the run's state calls for once, and no other. */
  lemma OneTerminalEvent(tr: Trace, i: nat, r: string)
    requires IsTrace(tr) && i < |tr.states| && r in tr.states[i].entries
    ensures var e := tr.states[i].entries[r];
      && (!Terminal(e.run.status) ==> Terminals(e.log) == [])
      && (e.run.status == RunSucceeded ==> e.run.result.Some? && Terminals(e.log) == [EvRunSucceeded(e.run.result.value)])
      && (e.run.status == RunFailed ==> Terminals(e.log) == [EvRunFailed(e.run.error)])
      && (e.run.status == RunCancelled ==> Terminals(e.log) == [EvRunCancelled(e.run.cancelReason)])
  {
    RunBetween(tr, i, i, r);
    hide EntryStep, IsTrace, Terminals, LogShape, Started, PastShape, Evolves;
  }

  // ------------------------------------------------------------------ cancellation

  /** Once a cancellation is recorded the run is cancelling or cancelled for ever, on the same attempt,
      and its lease is at most given up. */
  lemma CancellationWins(tr: Trace, i: nat, j: nat, r: string)
    requires IsTrace(tr) && i <= j < |tr.states| && r in tr.states[i].entries
    requires tr.states[i].entries[r].run.cancelRequestedAt.Some?
    ensures r in tr.states[j].entries
    ensures var e, e' := tr.states[i].entries[r], tr.states[j].entries[r];
      && (e'.run.status == RunCancelling || e'.run.status == RunCancelled)
      && e'.run.attempt.number == e.run.attempt.number && e'.run.cancelReason == e.run.cancelReason
      && (e'.run.attempt.lease == e.run.attempt.lease || e'.run.attempt.lease == "")
  {
    RunBetween(tr, i, j, r);
    hide EntryStep, IsTrace, LogSound, HistorySound;
  }

  ghost predicate Grants(op: Op, r: string) {
    op.OpClaim? && op.reply.Accepted? && op.reply.value.runId == r
  }

  /** A claim hands out a queued run that was not cancelled and whose deadline lies ahead. */
  lemma GrantedRun(s: State, op: Op, s': State, r: string)
    requires Inv(s) && Next(s, op, s') && Grants(op, r)
    ensures r in s.entries && r in s'.entries
    ensures var e, e' := s.entries[r], s'.entries[r];
      && e.run.cancelRequestedAt.None? && !DeadlinePassed(e, op.t) && !DeadlinePassed(e', op.t)
      && e'.run.status == RunQueued && e'.run.attempt.status == AttemptLeased
      && e'.run.attempt.lease == op.reply.value.lease && op.reply.value.lease !in s.issued
      && e'.run.attempt.leaseExpiresAt == Some(op.t + op.ttl) && op.reply.value.leaseExpiresAt == op.t + op.ttl
  {
    hide Inv, Sweep, Grant, LiveOn, Live;
    SoundAt(s, r);
    SweptQueued(s.entries[r], op.t);
    GrantFacts(Sweep(s.entries[r], op.t), op.nodeId, op.reply.value.lease, op.t + op.ttl);
  }

  lemma GrantFacts(e: Entry, nodeId: string, lease: string, expires: Time)
    ensures var e' := Grant(e, nodeId, lease, expires);
      && e'.run.status == e.run.status && e'.run.deadlineAt == e.run.deadlineAt
      && e'.run.attempt.status == AttemptLeased && e'.run.attempt.lease == lease
      && e'.run.attempt.leaseExpiresAt == Some(expires) && e'.run.attempt.nodeId == nodeId
  {
    hide Terminals, Started, LogShape;
  }

  lemma SweptQueued(e: Entry, t: Time)
    requires Sound(e) && Sweep(e, t).run.status == RunQueued
    ensures e.run.cancelRequestedAt.None? && !DeadlinePassed(e, t)
    ensures Sweep(e, t).run.deadlineAt == e.run.deadlineAt
  {
    hide Terminals, Started, LogShape, LogSound, HistorySound;
  }

  lemma NeverClaimedAgain(tr: Trace, i: nat, k: nat, r: string)
    requires IsTrace(tr) && i <= k < |tr.ops| && r in tr.states[i].entries
    requires tr.states[i].entries[r].run.cancelRequestedAt.Some?
    ensures !Grants(tr.ops[k], r)
  {
    hide Inv, Sound;
    if Grants(tr.ops[k], r) {
      Reachable(tr, k);
      RunBetween(tr, i, k, r);
      GrantedRun(tr.states[k], tr.ops[k], tr.states[k + 1], r);
      assert false;
    }
  }

  // ------------------------------------------------------------------ fencing

  /** A superseded lease token never becomes valid again. */
  lemma SupersededForEver(tr: Trace, i: nat, j: nat, k: nat, r: string, lease: string)
    requires IsTrace(tr) && i <= j <= k < |tr.states| && r in tr.states[i].entries && lease != ""
    requires tr.states[i].entries[r].run.attempt.lease == lease
    requires r in tr.states[j].entries && tr.states[j].entries[r].run.attempt.lease != lease
    ensures r in tr.states[k].entries && tr.states[k].entries[r].run.attempt.lease != lease
  {
    RunBetween(tr, i, i, r);
    Between(tr, i, j);
    RunBetween(tr, j, k, r);
    hide Sound, Keeps, IsTrace, EntryInv;
  }

  /** A lease token of one run never opens another run. */
  lemma LeaseOpensOneRun(tr: Trace, i: nat, j: nat, r: string, q: string)
    requires IsTrace(tr) && i <= j < |tr.states| && r != q
    requires r in tr.states[i].entries && tr.states[i].entries[r].run.attempt.lease != ""
    requires q in tr.states[j].entries && q in tr.states[i].entries
    ensures tr.states[j].entries[q].run.attempt.lease != tr.states[i].entries[r].run.attempt.lease
  {
    Reachable(tr, i);
    RunBetween(tr, i, j, q);
    hide Sound, Keeps, IsTrace, IndexInv;
    assert EntryInv(tr.states[i], r, tr.states[i].entries[r]);
  }

  /** Without the current token every call is refused and changes nothing. */
  lemma FencedOut(e: Entry, attemptId: string, lease: string, call: Call)
    requires e.run.attempt.lease != lease
    ensures Apply(e, attemptId, lease, call) == (e, Refused(ErrInvalidLease))
  {
    hide Expire, ApplyAuthorized, FinalizeCancel;
  }

  // ------------------------------------------------------------------ submissions

  /** Submissions map to the same run exactly when their keys agree. */
  lemma SubmitIsStable(tr: Trace, i: nat, j: nat)
    requires IsTrace(tr) && i <= j < |tr.ops| && tr.ops[i].OpSubmit? && tr.ops[j].OpSubmit?
    ensures tr.ops[i].runId == tr.ops[j].runId <==> SubmitScope(tr.ops[i].request) == SubmitScope(tr.ops[j].request)
  {
    hide Inv, Advances, SubmitScope, Next, Init;
    Reachable(tr, i);
    SubmitRecorded(tr.states[i], tr.ops[i], tr.states[i + 1]);
    if i < j {
      Between(tr, i + 1, j + 1);
      SubmitRecorded(tr.states[j], tr.ops[j], tr.states[j + 1]);
      IndexKept(tr.states[i + 1], tr.states[j + 1], SubmitScope(tr.ops[i].request));
      Reachable(tr, j + 1);
      IndexInjective(tr.states[j + 1], SubmitScope(tr.ops[i].request), SubmitScope(tr.ops[j].request));
    }
  }

  lemma SubmitRecorded(s: State, op: Op, s': State)
    requires op.OpSubmit? && Next(s, op, s')
    ensures SubmitScope(op.request) in s'.index && s'.index[SubmitScope(op.request)] == op.runId
  {
    hide SubmitScope, NewEntry, Fresh;
  }

  lemma IndexKept(s: State, s': State, scope: string)
    requires Advances(s, s') && scope in s.index
    ensures scope in s'.index && s'.index[scope] == s.index[scope]
  {
    hide EntryStep;
  }

  lemma IndexInjective(s: State, scope: string, other: string)
    requires Inv(s) && scope in s.index && other in s.index
    ensures s.index[scope] == s.index[other] <==> scope == other
  {
    hide SubmitScope, EntryInv, LeasesDistinct;
  }

  // ------------------------------------------------------------------ capacity

  /** A claim that grants leaves the node with no more live attempts than its capacity. */
  lemma GrantWithinCapacity(s: State, op: Op, s': State)
    requires Inv(s) && Next(s, op, s') && op.OpClaim? && op.reply.Accepted?
    ensures op.nodeId in s'.nodes && |LiveOn(s'.entries, op.nodeId)| <= s'.nodes[op.nodeId].capacity
  {
    hide Inv, Grant, Sweep, Fresh, Claimable, Live;
    var r := op.reply.value.runId;
    forall q | q in LiveOn(s'.entries, op.nodeId) && q != r
      ensures q in LiveOn(s.entries, op.nodeId)
    {
      SweepSameHolder(s.entries[q], op.t);
    }
    assert LiveOn(s'.entries, op.nodeId) <= LiveOn(s.entries, op.nodeId) + {r};
    SubsetSize(LiveOn(s'.entries, op.nodeId), LiveOn(s.entries, op.nodeId) + {r});
  }

  lemma {:induction false} SubsetSize<T>(a: set<T>, b: set<T>)
    requires a <= b
    ensures |a| <= |b| && (|a| == |b| ==> a == b)
  {
    if a != {} {
      var x :| x in a;
      SubsetSize(a - {x}, b - {x});
    }
  }

  // ------------------------------------------------------------------ final reports

  ghost predicate Reported(op: Op, r: string, result: RunResult) {
    op.OpCall? && op.runId == r && op.call.Complete? && op.call.result == result && op.answer == Done
  }

  ghost predicate ReportedFailure(op: Op, r: string, cause: string) {
    op.OpCall? && op.runId == r && op.call.Fail? && op.call.cause == cause && op.answer == Done
  }

  /** An accepted report is what the run holds from then on. */
  lemma AcceptedReportHolds(tr: Trace, i: nat, j: nat, r: string, result: RunResult, cause: string)
    requires IsTrace(tr) && i < j < |tr.states|
    ensures Reported(tr.ops[i], r, result) || ReportedFailure(tr.ops[i], r, cause) ==> r in tr.states[j].entries
    ensures Reported(tr.ops[i], r, result) ==>
              tr.states[j].entries[r].run.status == RunSucceeded && tr.states[j].entries[r].run.result == Some(result)
    ensures ReportedFailure(tr.ops[i], r, cause) ==>
              tr.states[j].entries[r].run.status == RunFailed && tr.states[j].entries[r].run.error == cause
  {
    if Reported(tr.ops[i], r, result) || ReportedFailure(tr.ops[i], r, cause) {
      ReportLands(tr.states[i], tr.ops[i], tr.states[i + 1], r, result, cause);
      hide Inv, Next;
      TerminalIsFinal(tr, i + 1, j, r);
    }
  }

  lemma ReportLands(s: State, op: Op, s': State, r: string, result: RunResult, cause: string)
    requires Next(s, op, s') && (Reported(op, r, result) || ReportedFailure(op, r, cause))
    ensures r in s.entries && r in s'.entries
    ensures Reported(op, r, result) ==> s'.entries[r].run.status == RunSucceeded && s'.entries[r].run.result == Some(result)
    ensures ReportedFailure(op, r, cause) ==> s'.entries[r].run.status == RunFailed && s'.entries[r].run.error == cause
  {
    hide Terminals, Started, LogShape, ApplyAuthorized, FinalizeCancel, Expire;
  }

  /** Reports that disagree are never both accepted, so the run is finished by one of them only. */
  lemma ReportsAgree(tr: Trace, i: nat, j: nat, r: string, result: RunResult, other: RunResult, cause: string)
    requires IsTrace(tr) && i < |tr.ops| && j < |tr.ops| && Reported(tr.ops[i], r, result)
    ensures Reported(tr.ops[j], r, other) ==> other == result
    ensures !ReportedFailure(tr.ops[j], r, cause)
  {
    hide Init, Next;
    var k := |tr.ops|;
    AcceptedReportHolds(tr, i, k, r, result, cause);
    AcceptedReportHolds(tr, j, k, r, other, cause);
  }

  /** A report whose content differs from the committed one is refused without effect. */
  lemma DifferentReportRefused(e: Entry, attemptId: string, lease: string, t1: Time, t2: Time, result: RunResult, cause: string)
    requires Sound(e)
    ensures e.run.status == RunSucceeded && e.run.result != Some(result) ==>
              ApplyComplete(e, attemptId, lease, t1, t2, result).0 == e && ApplyComplete(e, attemptId, lease, t1, t2, result).1.Refused?
    ensures e.run.status == RunFailed && e.run.error != cause ==>
              ApplyFail(e, attemptId, lease, t1, t2, cause).0 == e && ApplyFail(e, attemptId, lease, t1, t2, cause).1.Refused?
  {
    hide Terminals, Started, LogShape, LogSound, HistorySound;
  }
}

/** The invariant of one run, and the relation between its earlier and later states. */
module RunInvariants {
  import opened Types
  import opened Identity
  import opened RunProtocol

  /** The attempt states that can accompany a run state. */
  predicate StatusPair(run: RunStatus, attempt: AttemptStatus) {
    match run
    case RunQueued => attempt == AttemptQueued || attempt == AttemptLeased
    case RunRunning => attempt == AttemptRunning
    case RunCancelling => attempt == AttemptQueued || attempt == AttemptLeased || attempt == AttemptRunning
    case RunCancelled => attempt == AttemptCancelled
    case RunSucceeded => attempt == AttemptSucceeded
    case RunFailed => attempt == AttemptFailed || attempt == AttemptLost
  }

  ghost predicate AttemptSound(at: Attempt) {
    && at.id != "" && NulFree(at.id) && NulFree(at.lease)
    && (at.status == AttemptQueued ==> at.nodeId == "" && at.lease == "" && at.leaseExpiresAt.None?)
    && (at.status == AttemptLeased || at.status == AttemptRunning ==>
          at.nodeId != "" && at.lease != "" && at.leaseExpiresAt.Some?)
    && (at.status == AttemptQueued || at.status == AttemptLeased ==> at.startedAt.None?)
    && (at.status == AttemptRunning || at.status == AttemptSucceeded || at.status == AttemptLost ==> at.startedAt.Some?)
  }

  /** The terminal event that a run's status, result, error and reason call for. */
  function Verdict(run: Run): seq<EventBody> {
    match run.status
    case RunSucceeded => if run.result.Some? then [EvRunSucceeded(run.result.value)] else []
    case RunFailed => [EvRunFailed(run.error)]
    case RunCancelled => [EvRunCancelled(run.cancelReason)]
    case _ => []
  }

  ghost predicate RunSound(run: Run) {
    && StatusPair(run.status, run.attempt.status)
    && AttemptSound(run.attempt)
    && (run.cancelRequestedAt.Some? <==> run.status == RunCancelling || run.status == RunCancelled)
    && (run.result.Some? <==> run.status == RunSucceeded)
  }

  ghost predicate LogSound(e: Entry) {
    LogShape(e.run.id, e.log) && Terminals(e.log) == Verdict(e.run)
  }

  function AttemptLimit(request: Request): int {
    if request.maxAttempts > 1 then request.maxAttempts else 1
  }

  function Ids(attempts: seq<Attempt>): (ids: seq<string>)
    ensures |ids| == |attempts| && forall i :: 0 <= i < |ids| ==> ids[i] == attempts[i].id
  {
    if attempts == [] then [] else Ids(attempts[..|attempts| - 1]) + [attempts[|attempts| - 1].id]
  }

  /** Numbered from 1, all lost, no identifier twice. */
  predicate PastShape(past: seq<Attempt>) {
    past == [] ||
    var before, last := past[..|past| - 1], past[|past| - 1];
    PastShape(before) && last.status == AttemptLost && last.number == |past| && last.id !in Ids(before)
  }

  ghost predicate HistorySound(e: Entry) {
    && PastShape(e.past) && e.run.attempt.id !in Ids(e.past)
    && e.run.attempt.number == |e.past| + 1 <= AttemptLimit(e.request)
    && Started(e.log) == Ids(e.past) + if e.run.attempt.startedAt.Some? then [e.run.attempt.id] else []
  }

  ghost predicate Sound(e: Entry) {
    RunSound(e.run) && LogSound(e) && HistorySound(e)
  }

  /** Everything about a run that later states keep. */
  ghost predicate Evolves(e: Entry, e': Entry) {
    && e'.request == e.request && e.log <= e'.log
    && e'.run.id == e.run.id && e'.run.deadlineAt == e.run.deadlineAt
    && (Terminal(e.run.status) ==> e'.run == e.run && e'.past == e.past)
    && (e.run.cancelRequestedAt.Some? ==>
          && e'.run.cancelRequestedAt == e.run.cancelRequestedAt && e'.run.cancelReason == e.run.cancelReason
          && e'.run.attempt.number == e.run.attempt.number
          && (e'.run.attempt.lease == e.run.attempt.lease || e'.run.attempt.lease == ""))
    && e.run.attempt.number <= e'.run.attempt.number
    && e.past <= e'.past
  }

  /** One transition of a run: what it keeps and where its lease can come from. */
  ghost predicate Keeps(e: Entry, e': Entry) {
    Sound(e') && Evolves(e, e')
  }

  lemma EvolvesTransitive(a: Entry, b: Entry, c: Entry)
    requires Evolves(a, b) && Evolves(b, c)
    ensures Evolves(a, c)
  {
  }

  lemma StayKeeps(e: Entry)
    requires Sound(e)
    ensures Keeps(e, e)
  {
    hide Terminals, Started, LogShape, PastShape, Ids;
  }

  lemma NewEntryKeeps(request: Request, runId: string, attemptId: string, now: Time)
    requires attemptId != "" && NulFree(attemptId)
    ensures Sound(NewEntry(request, runId, attemptId, now))
  {
  }

  lemma ExpireKeeps(e: Entry, now: Time)
    requires Sound(e)
    ensures Keeps(e, Expire(e, now))
  {
    hide Terminals, Started, LogShape, PastShape, Ids;
  }

  lemma FinalizeKeeps(e: Entry, now: Time)
    requires Sound(e) && e.run.status == RunCancelling
    ensures Keeps(e, FinalizeCancel(e, now))
  {
    hide Terminals, Started, LogShape, PastShape, Ids;
  }

  lemma CancelQueuedKeeps(e: Entry, reason: string, requester: string, now: Time)
    requires Sound(e) && e.run.status == RunQueued && e.run.attempt.status == AttemptQueued
    ensures Keeps(e, Cancel(e, reason, requester, now))
  {
    hide Terminals, Started, LogShape, PastShape, Ids;
    var asked := Append(e.(run := e.run.(cancelRequestedAt := Some(now), cancelReason := reason)),
                        EvCancelRequested(reason, requester));
    assert LogShape(e.run.id, asked.log) && Terminals(asked.log) == [] && Started(asked.log) == Started(e.log);
    assert Cancel(e, reason, requester, now) == FinalizeCancel(asked, now);
  }

  lemma CancelKeeps(e: Entry, reason: string, requester: string, now: Time)
    requires Sound(e)
    ensures Keeps(e, Cancel(e, reason, requester, now))
  {
    hide Terminals, Started, LogShape, PastShape, Ids;
    if !Terminal(e.run.status) && e.run.cancelRequestedAt.None? && e.run.attempt.status == AttemptQueued {
      CancelQueuedKeeps(e, reason, requester, now);
    }
  }

  lemma SweepKeeps(e: Entry, now: Time)
    requires Sound(e)
    ensures Keeps(e, Sweep(e, now))
  {
    hide Terminals, Started, LogShape, PastShape, Ids;
    CancelKeeps(e, "run timeout exceeded", "relay", now);
    var e1 := if DeadlinePassed(e, now) && e.run.cancelRequestedAt.None? then CancelOverdue(e, now) else e;
    SweepTailKeeps(e, e1, now);
  }

  lemma SweepTailKeeps(e: Entry, e1: Entry, now: Time)
    requires Keeps(e, e1)
    ensures Keeps(e, Expire(e1, now))
    ensures e1.run.status == RunCancelling ==> Keeps(e, FinalizeCancel(e1, now))
  {
    hide Terminals, Started, LogShape, PastShape, Ids;
    ExpireKeeps(e1, now);
    EvolvesTransitive(e, e1, Expire(e1, now));
    if e1.run.status == RunCancelling {
      FinalizeKeeps(e1, now);
      EvolvesTransitive(e, e1, FinalizeCancel(e1, now));
    }
  }

  lemma GrantKeeps(e: Entry, nodeId: string, lease: string, expires: Time)
    requires Sound(e) && e.run.status == RunQueued && e.run.attempt.status == AttemptQueued
    requires nodeId != "" && lease != "" && NulFree(lease)
    ensures Keeps(e, Grant(e, nodeId, lease, expires))
  {
    hide Terminals, Started, LogShape, PastShape, Ids;
  }

  ghost predicate FreshAttempt(e: Entry, attemptId: string) {
    attemptId != "" && NulFree(attemptId) && attemptId != e.run.attempt.id && attemptId !in Ids(e.past)
  }

  lemma PastGrows(past: seq<Attempt>, lost: Attempt)
    requires PastShape(past) && lost.status == AttemptLost && lost.number == |past| + 1 && lost.id !in Ids(past)
    ensures PastShape(past + [lost]) && Ids(past + [lost]) == Ids(past) + [lost.id]
  {
    assert (past + [lost])[..|past|] == past;
  }

  lemma ExhaustKeeps(e: Entry, now: Time)
    requires Sound(e) && e.run.status == RunRunning
    ensures Keeps(e, Exhaust(Lose(e, now), now))
  {
    hide Terminals, Started, LogShape, PastShape, Ids;
    var lost := Lose(e, now);
    assert LogShape(e.run.id, lost.log) && Terminals(lost.log) == [] && Started(lost.log) == Started(e.log);
  }

  lemma RetryHistory(e: Entry, now: Time, attemptId: string)
    requires Sound(e) && e.run.status == RunRunning && Retries(e) && FreshAttempt(e, attemptId)
    ensures HistorySound(Requeue(Lose(e, now), now, attemptId))
  {
    var lost := Lose(e, now);
    PastGrows(e.past, lost.run.attempt);
    hide Terminals, Started, LogShape, PastShape, Ids, LogSound;
    assert attemptId !in Ids(e.past) + [e.run.attempt.id];
  }

  lemma RetryKeeps(e: Entry, now: Time, attemptId: string)
    requires Sound(e) && e.run.status == RunRunning && Retries(e) && FreshAttempt(e, attemptId)
    ensures Keeps(e, Requeue(Lose(e, now), now, attemptId))
  {
    RetryHistory(e, now, attemptId);
    assert e.run.attempt.number == |e.past| + 1;
    hide Terminals, Started, LogShape, HistorySound;
    var lost := Lose(e, now);
    assert LogShape(e.run.id, lost.log) && Terminals(lost.log) == [];
  }

  lemma RecoverKeeps(e: Entry, now: Time, attemptId: string)
    requires Sound(e) && Abandoned(e, now)
    requires Retries(e) ==> FreshAttempt(e, attemptId)
    ensures Keeps(e, Recover(e, now, attemptId))
  {
    hide Sound, Keeps;
    if e.run.status == RunCancelling {
      FinalizeKeeps(e, now);
    } else if Retries(e) {
      RetryKeeps(e, now, attemptId);
    } else {
      ExhaustKeeps(e, now);
    }
  }

  lemma BeginKeeps(e: Entry, now: Time)
    requires Sound(e) && e.run.status == RunQueued && e.run.attempt.status == AttemptLeased
    ensures Keeps(e, Begin(e, now))
  {
    hide Terminals, Started, LogShape, PastShape, Ids;
  }

  lemma SucceedKeeps(e: Entry, result: RunResult, now: Time)
    requires Sound(e) && e.run.status == RunRunning
    ensures Keeps(e, Succeed(e, result, now))
  {
    hide Terminals, Started, LogShape, PastShape, Ids;
  }

  lemma BreakKeeps(e: Entry, cause: string, now: Time)
    requires Sound(e) && Live(e) && e.run.status != RunCancelling
    ensures Keeps(e, Break(e, cause, now))
  {
    hide Terminals, Started, LogShape, PastShape, Ids;
  }

  lemma NoteKeeps(e: Entry, subject: Subject, id: string)
    requires Sound(e)
    ensures Keeps(e, Append(e, EvRecorded(subject, id)))
  {
    hide Terminals, Started, LogShape, PastShape, Ids;
  }

  lemma AppendOnceKeeps(e: Entry, attemptId: string, lease: string, kind: string, payload: Payload, ids: seq<string>)
    requires Sound(e) && e.run.attempt.status == AttemptRunning
    ensures Keeps(e, AppendOnce(e, attemptId, lease, kind, payload, ids).0)
  {
    hide Terminals, Started, LogShape, PastShape, Ids;
  }

  lemma CompleteKeeps(e: Entry, attemptId: string, lease: string, t1: Time, t2: Time, result: RunResult)
    requires Sound(e)
    ensures Keeps(e, ApplyComplete(e, attemptId, lease, t1, t2, result).0)
  {
    assert e.run.attempt.status == AttemptRunning ==> e.run.status == RunRunning || e.run.status == RunCancelling;
    hide Keeps, Sound;
    StayKeeps(e);
    if e.run.status == RunRunning { SucceedKeeps(e, result, t2); }
  }

  lemma FailKeeps(e: Entry, attemptId: string, lease: string, t1: Time, t2: Time, cause: string)
    requires Sound(e)
    ensures Keeps(e, ApplyFail(e, attemptId, lease, t1, t2, cause).0)
  {
    hide Keeps, Sound;
    StayKeeps(e);
    if e.run.status == RunCancelling {
      FinalizeKeeps(e, t2);
    } else if Live(e) {
      BreakKeeps(e, cause, t2);
    }
  }

  lemma StartKeeps(e: Entry, t2: Time, t3: Time)
    requires Sound(e) && e.run.attempt.status == AttemptLeased
    ensures Keeps(e, Begin(e, t3)) || e.run.status == RunCancelling
    ensures Keeps(e, FinalizeCancel(e, t2)) || e.run.status != RunCancelling
    ensures Keeps(e, Expire(e, t3))
  {
    hide Terminals, Started, LogShape, PastShape, Ids;
    ExpireKeeps(e, t3);
    if e.run.status == RunCancelling { FinalizeKeeps(e, t2); } else { BeginKeeps(e, t3); }
  }

  lemma RenewKeeps(e: Entry, expires: Time)
    requires Sound(e) && Live(e)
    ensures Keeps(e, e.(run := e.run.(attempt := e.run.attempt.(leaseExpiresAt := Some(expires)))))
  {
    hide Terminals, Started, LogShape, PastShape, Ids;
  }

  lemma AuthorizedKeeps(e: Entry, attemptId: string, lease: string, call: Call)
    requires Sound(e) && !call.Complete? && !call.Fail?
    ensures Keeps(e, ApplyAuthorized(e, attemptId, lease, call).0)
  {
    hide Keeps, Sound;
    StayKeeps(e);
    var at := e.run.attempt;
    match call {
      case Renew(_, t2, ttl) => if Live(e) { RenewKeeps(e, t2 + ttl); }
      case Start(_, t2, t3) => if at.status == AttemptLeased { StartKeeps(e, t2, t3); }
      case AppendEvent(_, kind, payload, ids) =>
        if at.status == AttemptRunning { AppendOnceKeeps(e, attemptId, lease, kind, payload, ids); }
      case Acknowledge(_, t2) => if e.run.status == RunCancelling { FinalizeKeeps(e, t2); }
      case Record(_, subject, id) => NoteKeeps(e, subject, id);
      case Inspect(_, _) =>
    }
  }

  /** No call by a lease holder breaks the invariant or rewrites what was settled. */
  lemma ApplyKeeps(e: Entry, attemptId: string, lease: string, call: Call)
    requires Sound(e)
    ensures Keeps(e, Apply(e, attemptId, lease, call).0)
  {
    hide Keeps, Sound;
    StayKeeps(e);
    match call {
      case Complete(t1, t2, result) => CompleteKeeps(e, attemptId, lease, t1, t2, result);
      case Fail(t1, t2, cause) => FailKeeps(e, attemptId, lease, t1, t2, cause);
      case _ =>
        ExpireKeeps(e, call.t1);
        AuthorizedKeeps(e, attemptId, lease, call);
    }
  }

  /** A step that hands out nothing: same attempt, and its lease and node kept or given up. */
  ghost predicate SameHolder(e: Entry, e': Entry) {
    && e'.run.attempt.id == e.run.attempt.id && e'.past == e.past
    && (e'.run.attempt.lease == e.run.attempt.lease || e'.run.attempt.lease == "")
    && (Live(e') ==> Live(e) && e'.run.attempt.lease == e.run.attempt.lease && e'.run.attempt.nodeId == e.run.attempt.nodeId)
  }

  lemma ExpireSameHolder(e: Entry, now: Time)
    ensures SameHolder(e, Expire(e, now))
  {
    hide Terminals, Started, LogShape, Appendable, HasEvent;
  }

  lemma FinalizeSameHolder(e: Entry, now: Time)
    ensures SameHolder(e, FinalizeCancel(e, now))
  {
    hide Terminals, Started, LogShape, Appendable, HasEvent;
  }

  lemma CancelSameHolder(e: Entry, reason: string, requester: string, now: Time)
    ensures SameHolder(e, Cancel(e, reason, requester, now))
  {
    hide Terminals, Started, LogShape, Appendable, HasEvent;
  }

  lemma SweepSameHolder(e: Entry, now: Time)
    ensures SameHolder(e, Sweep(e, now))
  {
    var e1 := if DeadlinePassed(e, now) && e.run.cancelRequestedAt.None? then CancelOverdue(e, now) else e;
    CancelSameHolder(e, "run timeout exceeded", "relay", now);
    ExpireSameHolder(e1, now);
    FinalizeSameHolder(e1, now);
    hide Cancel, Expire, FinalizeCancel;
  }

  lemma AuthorizedSameHolder(e: Entry, attemptId: string, lease: string, call: Call)
    requires !call.Complete? && !call.Fail?
    ensures SameHolder(e, ApplyAuthorized(e, attemptId, lease, call).0)
  {
    hide Terminals, Started, LogShape, Appendable, HasEvent;
    match call {
      case Start(_, t2, t3) =>
        FinalizeSameHolder(e, t2);
        ExpireSameHolder(e, t3);
        hide FinalizeCancel, Expire;
      case Acknowledge(_, t2) =>
        FinalizeSameHolder(e, t2);
        hide FinalizeCancel;
      case _ =>
    }
  }

  lemma ReportSameHolder(e: Entry, attemptId: string, lease: string, t1: Time, t2: Time, result: RunResult, cause: string)
    ensures SameHolder(e, ApplyComplete(e, attemptId, lease, t1, t2, result).0)
    ensures SameHolder(e, ApplyFail(e, attemptId, lease, t1, t2, cause).0)
  {
    hide Terminals, Started, LogShape, Appendable, HasEvent;
    FinalizeSameHolder(e, t2);
    hide FinalizeCancel;
  }

  /** Calls by lease holders never hand the lease to anyone. */
  lemma ApplySameHolder(e: Entry, attemptId: string, lease: string, call: Call)
    ensures SameHolder(e, Apply(e, attemptId, lease, call).0)
  {
    hide ApplyAuthorized, ApplyComplete, ApplyFail, Expire;
    match call {
      case Complete(t1, t2, result) => ReportSameHolder(e, attemptId, lease, t1, t2, result, "");
      case Fail(t1, t2, cause) => ReportSameHolder(e, attemptId, lease, t1, t2, RunResult("", ""), cause);
      case _ =>
        ExpireSameHolder(e, call.t1);
        AuthorizedSameHolder(e, attemptId, lease, call);
    }
  }

  lemma RecoverSameHolder(e: Entry, now: Time, attemptId: string)
    requires !Retries(e)
    ensures SameHolder(e, Recover(e, now, attemptId))
  {
    hide Terminals, Started, LogShape, Appendable, HasEvent;
  }

  // ------------------------------------------------------------------ what the invariant says

  lemma {:induction false} PastAt(past: seq<Attempt>)
    requires PastShape(past)
    ensures forall i :: 0 <= i < |past| ==> past[i].number == i + 1 && past[i].status == AttemptLost
    ensures forall i, j :: 0 <= i < j < |past| ==> past[i].id != past[j].id
  {
    if past != [] {
      var before := past[..|past| - 1];
      PastAt(before);
      assert forall i :: 0 <= i < |before| ==> past[i] == before[i] && past[i].id == Ids(before)[i];
    }
  }

  /** What `Attempts` answers. */
  function Attempts(e: Entry): seq<Attempt> { e.past + [e.run.attempt] }

  /** `Attempts` is numbered 1 to n, all but the last are lost, and n respects the retry policy. */
  lemma AttemptHistory(e: Entry)
    requires Sound(e)
    ensures |Attempts(e)| == e.run.attempt.number <= AttemptLimit(e.request)
    ensures forall i :: 0 <= i < |Attempts(e)| ==> Attempts(e)[i].number == i + 1
    ensures forall i :: 0 <= i < |Attempts(e)| - 1 ==> Attempts(e)[i].status == AttemptLost
    ensures forall i, j :: 0 <= i < j < |Attempts(e)| ==> Attempts(e)[i].id != Attempts(e)[j].id
  {
    PastAt(e.past);
    assert forall i :: 0 <= i < |e.past| ==> e.past[i].id == Ids(e.past)[i];
  }

  /** No attempt starts twice, so a run starts executing at most as often as the policy allows. */
  lemma StartsOnce(e: Entry)
    requires Sound(e)
    ensures |Started(e.log)| <= AttemptLimit(e.request)
    ensures forall i, j :: 0 <= i < j < |Started(e.log)| ==> Started(e.log)[i] != Started(e.log)[j]
  {
    PastAt(e.past);
    assert forall i :: 0 <= i < |e.past| ==> e.past[i].id == Ids(e.past)[i];
  }

  /** The log is numbered 1 to n, holds a producer identity once, and nothing from a node follows the end of the run. */
  lemma {:induction false} LogAt(runId: string, log: seq<Event>)
    requires LogShape(runId, log)
    ensures forall i :: 0 <= i < |log| ==> log[i].sequence == i + 1 && log[i].runId == runId
    ensures forall i, j :: 0 <= i < j < |log| && log[i].id.Producer? ==> log[i].id != log[j].id
    ensures forall i :: 0 <= i < |log| && log[i].id.Producer? ==> log[i].body.EvFromNode?
    ensures forall i, j :: 0 <= i < j < |log| && IsTerminalEvent(log[i].body) ==> !log[j].body.EvFromNode?
  {
    if log != [] {
      var before := log[..|log| - 1];
      LogAt(runId, before);
      assert forall i :: 0 <= i < |before| ==> log[i] == before[i];
      if log[|log| - 1].body.EvFromNode? {
        NoTerminals(before);
      }
    }
  }
}

/** The event log tells the whole story of a run: its present status, attempt and node can be read off it. */
module Chronicle {
  import opened Types
  import opened Identity
  import opened RunProtocol
  import opened RunInvariants
  import opened Protocol
  import opened Behaviours
  import opened Producers

  /** What a reader of the log knows of the run. */
  datatype Gist = Gist(status: RunStatus, number: nat, attempt: AttemptStatus, nodeId: string)

  /** One more event, read by its type and data alone. */
  function Tell(g: Gist, body: EventBody): Gist {
    match body
    case EvCreated(status) => g.(status := status)
    case EvQueued(number, _) => Gist(RunQueued, number, AttemptQueued, "")
    case EvLeased(nodeId, _) => g.(attempt := AttemptLeased, nodeId := nodeId)
    case EvLeaseExpired(_) => g.(attempt := AttemptQueued, nodeId := "")
    case EvStarted(nodeId) => g.(attempt := AttemptRunning, nodeId := nodeId)
    case EvRunStarted => g.(status := RunRunning)
    case EvLost(nodeId) => g.(attempt := AttemptLost, nodeId := nodeId)
    case EvCancelRequested(_, _) => g.(status := RunCancelling)
    case EvAttemptCancelled(_) => g.(attempt := AttemptCancelled)
    case EvRunCancelled(_) => g.(status := RunCancelled)
    case EvAttemptSucceeded => g.(attempt := AttemptSucceeded)
    case EvRunSucceeded(_) => g.(status := RunSucceeded)
    case EvAttemptFailed(_) => g.(attempt := AttemptFailed)
    case EvRunFailed(_) => g.(status := RunFailed)
    case EvRecorded(_, _) => g
    case EvFromNode(_, _) => g
  }

  function Retold(log: seq<Event>): Gist {
    if log == [] then Gist(RunQueued, 0, AttemptQueued, "")
    else Tell(Retold(log[..|log| - 1]), log[|log| - 1].body)
  }

  function GistOf(run: Run): Gist {
    Gist(run.status, run.attempt.number, run.attempt.status, run.attempt.nodeId)
  }

  predicate Told(e: Entry) { Retold(e.log) == GistOf(e.run) }

  lemma AppendTells(e: Entry, id: EventId, body: EventBody)
    ensures Retold(AppendAs(e, id, body).log) == Tell(Retold(e.log), body)
  {
    hide Terminals, Started, LogShape, Appendable;
    var e' := AppendAs(e, id, body);
    assert e'.log[..|e.log|] == e.log;
  }

  /** Two events in a row. */
  lemma TwoTell(e: Entry, one: EventBody, two: EventBody)
    ensures Retold(Append(Append(e, one), two).log) == Tell(Tell(Retold(e.log), one), two)
  {
    hide AppendAs, Retold;
    AppendTells(e, Assigned, one);
    AppendTells(Append(e, one), Assigned, two);
  }

  lemma NewTold(request: Request, runId: string, attemptId: string, now: Time)
    ensures Told(NewEntry(request, runId, attemptId, now))
  {
    hide AppendAs;
    var run := NewRun(request, runId, NewAttempt(attemptId, 1, now), now);
    TwoTell(Entry(run, request, [], []), EvCreated(RunQueued), EvQueued(1, None));
    AppendsKeepRun(Entry(run, request, [], []), EvCreated(RunQueued), EvQueued(1, None));
  }

  lemma AppendsKeepRun(e: Entry, one: EventBody, two: EventBody)
    ensures Append(e, one).run == e.run && Append(Append(e, one), two).run == e.run
  {
    hide Terminals, Started, LogShape, Appendable;
  }

  lemma ExpireTold(e: Entry, now: Time)
    requires Told(e) && Sound(e)
    ensures Told(Expire(e, now))
  {
    hide AppendAs, Retold, LogSound, HistorySound;
    AppendTells(e, Assigned, EvLeaseExpired(e.run.attempt.nodeId));
  }

  lemma FinalizeTold(e: Entry, now: Time)
    requires Told(e)
    ensures Told(FinalizeCancel(e, now))
  {
    hide AppendAs, Retold;
    var reason := e.run.cancelReason;
    var done := e.run.(
      attempt := e.run.attempt.(status := AttemptCancelled, completedAt := Some(now)),
      status := RunCancelled, cancelledAt := Some(now), completedAt := Some(now));
    TwoTell(e.(run := done), EvAttemptCancelled(reason), EvRunCancelled(reason));
    AppendsKeepRun(e.(run := done), EvAttemptCancelled(reason), EvRunCancelled(reason));
  }

  lemma CancelTold(e: Entry, reason: string, requester: string, now: Time)
    requires Told(e)
    ensures Told(Cancel(e, reason, requester, now))
  {
    hide AppendAs, Retold, FinalizeCancel;
    var noted := e.(run := e.run.(cancelRequestedAt := Some(now), cancelReason := reason));
    AppendTells(noted, Assigned, EvCancelRequested(reason, requester));
    var asked := Append(noted, EvCancelRequested(reason, requester));
    AppendsKeepRun(noted, EvCancelRequested(reason, requester), EvRunStarted);
    if !Terminal(e.run.status) && e.run.attempt.status == AttemptQueued {
      CancelledQueuedTold(asked, e, now);
    }
  }

  /** The log says that the cancellation was asked for, and then that it is done. */
  lemma CancelledQueuedTold(asked: Entry, e: Entry, now: Time)
    requires Retold(asked.log) == GistOf(e.run).(status := RunCancelling) && asked.run.status == e.run.status
    requires asked.run.attempt == e.run.attempt && asked.run.status != RunCancelled
    ensures Told(FinalizeCancel(asked, now))
  {
    hide AppendAs, Retold;
    var reason := asked.run.cancelReason;
    var done := asked.run.(
      attempt := asked.run.attempt.(status := AttemptCancelled, completedAt := Some(now)),
      status := RunCancelled, cancelledAt := Some(now), completedAt := Some(now));
    TwoTell(asked.(run := done), EvAttemptCancelled(reason), EvRunCancelled(reason));
    AppendsKeepRun(asked.(run := done), EvAttemptCancelled(reason), EvRunCancelled(reason));
  }

  lemma SweepTold(e: Entry, now: Time)
    requires Told(e) && Sound(e)
    ensures Told(Sweep(e, now))
  {
    hide Told, Sound, Cancel, FinalizeCancel, Expire, Keeps;
    CancelTold(e, "run timeout exceeded", "relay", now);
    CancelKeeps(e, "run timeout exceeded", "relay", now);
    var e1 := if DeadlinePassed(e, now) && e.run.cancelRequestedAt.None? then CancelOverdue(e, now) else e;
    KeepsSound(e, Cancel(e, "run timeout exceeded", "relay", now));
    FinalizeTold(e1, now);
    ExpireTold(e1, now);
  }

  lemma KeepsSound(e: Entry, e': Entry)
    requires Keeps(e, e')
    ensures Sound(e')
  {
    hide Sound, Evolves;
  }

  lemma GrantTold(e: Entry, nodeId: string, lease: string, expires: Time)
    requires Told(e)
    ensures Told(Grant(e, nodeId, lease, expires))
  {
    hide AppendAs, Retold;
    var at := e.run.attempt.(status := AttemptLeased, nodeId := nodeId, lease := lease, leaseExpiresAt := Some(expires));
    var granted := e.(run := e.run.(attempt := at));
    AppendTells(granted, Assigned, EvLeased(nodeId, expires));
    AppendsKeepRun(granted, EvLeased(nodeId, expires), EvRunStarted);
  }

  lemma LoseTold(e: Entry, now: Time)
    requires Told(e)
    ensures Told(Lose(e, now))
  {
    hide AppendAs, Retold;
    var lost := e.run.attempt.(status := AttemptLost, completedAt := Some(now));
    AppendTells(e.(run := e.run.(attempt := lost)), Assigned, EvLost(lost.nodeId));
    AppendsKeepRun(e.(run := e.run.(attempt := lost)), EvLost(lost.nodeId), EvRunStarted);
  }

  lemma RequeueTold(e: Entry, now: Time, id: string)
    ensures Told(Requeue(e, now, id))
  {
    hide AppendAs, Retold;
    var next := NewAttempt(id, e.run.attempt.number + 1, now + e.request.backoff);
    var queued := e.run.(attempt := next, status := RunQueued, error := "", startedAt := None, completedAt := None);
    var e1 := e.(run := queued, past := e.past + [e.run.attempt]);
    AppendTells(e1, Assigned, EvQueued(next.number, next.availableAt));
    AppendsKeepRun(e1, EvQueued(next.number, next.availableAt), EvRunStarted);
  }

  lemma ExhaustTold(e: Entry, now: Time)
    requires Told(e)
    ensures Told(Exhaust(e, now))
  {
    hide AppendAs, Retold;
    var failed := e.run.(status := RunFailed, error := "attempt lease expired", completedAt := Some(now));
    AppendTells(e.(run := failed), Assigned, EvRunFailed(failed.error));
    AppendsKeepRun(e.(run := failed), EvRunFailed(failed.error), EvRunStarted);
  }

  lemma RecoverTold(e: Entry, now: Time, id: string)
    requires Told(e)
    ensures Told(Recover(e, now, id))
  {
    hide Told, FinalizeCancel, Requeue, Exhaust, Lose;
    FinalizeTold(e, now);
    LoseTold(e, now);
    RequeueTold(Lose(e, now), now, id);
    ExhaustTold(Lose(e, now), now);
  }

  lemma SucceedTold(e: Entry, result: RunResult, now: Time)
    requires Told(e)
    ensures Told(Succeed(e, result, now))
  {
    hide AppendAs, Retold;
    var run := e.run.(status := RunSucceeded, result := Some(result), completedAt := Some(now),
                      attempt := e.run.attempt.(status := AttemptSucceeded, completedAt := Some(now)));
    TwoTell(e.(run := run), EvAttemptSucceeded, EvRunSucceeded(result));
    AppendsKeepRun(e.(run := run), EvAttemptSucceeded, EvRunSucceeded(result));
  }

  lemma BreakTold(e: Entry, cause: string, now: Time)
    requires Told(e)
    ensures Told(Break(e, cause, now))
  {
    hide AppendAs, Retold;
    var run := e.run.(status := RunFailed, error := cause, completedAt := Some(now),
                      attempt := e.run.attempt.(status := AttemptFailed, completedAt := Some(now)));
    TwoTell(e.(run := run), EvAttemptFailed(cause), EvRunFailed(cause));
    AppendsKeepRun(e.(run := run), EvAttemptFailed(cause), EvRunFailed(cause));
  }

  lemma BeginTold(e: Entry, now: Time)
    requires Told(e)
    ensures Told(Begin(e, now))
  {
    hide AppendAs, Retold;
    var run := e.run.(status := RunRunning, startedAt := Some(now),
                      attempt := e.run.attempt.(status := AttemptRunning, startedAt := Some(now)));
    TwoTell(e.(run := run), EvStarted(run.attempt.nodeId), EvRunStarted);
    AppendsKeepRun(e.(run := run), EvStarted(run.attempt.nodeId), EvRunStarted);
  }

  lemma NoteTold(e: Entry, id: EventId, body: EventBody)
    requires Told(e) && (body.EvRecorded? || body.EvFromNode?)
    ensures Told(AppendAs(e, id, body))
  {
    hide Terminals, Started, LogShape, Appendable, Retold;
    AppendTells(e, id, body);
  }

  lemma AppendOnceTold(e: Entry, attemptId: string, lease: string, kind: string, payload: Payload, ids: seq<string>)
    requires Told(e)
    ensures Told(AppendOnce(e, attemptId, lease, kind, payload, ids).0)
  {
    hide Told, AppendAs, HasEvent;
    if payload.Json? { NoteTold(e, EventIdentity(attemptId, lease, ids), EvFromNode(kind, payload.text)); }
  }

  lemma RenewTold(e: Entry, expires: Time)
    requires Told(e)
    ensures Told(e.(run := e.run.(attempt := e.run.attempt.(leaseExpiresAt := Some(expires)))))
  {
    hide Retold;
  }

  lemma AuthorizedTold(e: Entry, attemptId: string, lease: string, call: Call)
    requires Told(e) && Sound(e) && !call.Complete? && !call.Fail?
    ensures Told(ApplyAuthorized(e, attemptId, lease, call).0)
  {
    hide Told, Sound, FinalizeCancel, Expire, Begin, AppendOnce, AppendAs;
    match call {
      case Renew(_, t2, ttl) => RenewTold(e, t2 + ttl);
      case Start(_, t2, t3) =>
        FinalizeTold(e, t2);
        ExpireTold(e, t3);
        BeginTold(e, t3);
      case AppendEvent(_, kind, payload, ids) => AppendOnceTold(e, attemptId, lease, kind, payload, ids);
      case Acknowledge(_, t2) => FinalizeTold(e, t2);
      case Record(_, subject, id) => NoteTold(e, Assigned, EvRecorded(subject, id));
      case Inspect(_, _) =>
    }
  }

  lemma ApplyTold(e: Entry, attemptId: string, lease: string, call: Call)
    requires Told(e) && Sound(e)
    ensures Told(Apply(e, attemptId, lease, call).0)
  {
    hide Told, Sound, FinalizeCancel, Expire, Succeed, Break, ApplyAuthorized;
    match call {
      case Complete(t1, t2, result) => SucceedTold(e, result, t2);
      case Fail(t1, t2, cause) =>
        FinalizeTold(e, t2);
        BreakTold(e, cause, t2);
      case _ =>
        ExpireTold(e, call.t1);
        AuthorizedTold(e, attemptId, lease, call);
    }
  }

  /** Every step keeps the log of every run in agreement with the run. */
  lemma StepTold(s: State, op: Op, s': State, r: string)
    requires Inv(s) && Next(s, op, s') && r in s'.entries && (r in s.entries ==> Told(s.entries[r]))
    ensures Told(s'.entries[r])
  {
    hide Inv, Sound, Told, Sweep, Cancel, CancelOverdue, Recover, Apply, Grant, Fresh, Retries, Abandoned, Overdue, LiveOn, SubmitScope,
         Claimable, NewEntry, AppendAs;
    if r in s.entries { SoundAt(s, r); }
    match op {
      case OpSubmit(request, runId, attemptId, t) =>
        NewTold(request, runId, attemptId, t);
        if r in s.entries { SubmitLeaves(s, op, s', r); }
      case OpClaim(nodeId, ttl, t, reply) =>
        if r in s.entries {
          SweepTold(s.entries[r], t);
          if reply.Accepted? { GrantTold(Sweep(s.entries[r], t), nodeId, reply.value.lease, t + ttl); }
        }
      case OpCall(runId, attemptId, lease, call, _) =>
        if r in s.entries { ApplyTold(s.entries[r], attemptId, lease, call); }
      case OpCancel(_, reason, requester, t) =>
        if r in s.entries { CancelTold(s.entries[r], reason, requester, t); }
      case OpNote(_, subject, id) =>
        if r in s.entries { NoteTold(s.entries[r], Assigned, EvRecorded(subject, id)); }
      case OpReconcile(now, _, overdue, abandoned, ids, _) =>
        if r in s.entries {
          OverdueTold(s.entries[r], now);
          var mid := CancelAll(s.entries, overdue, now);
          RecoverTold(mid[r], now, if r in ids then ids[r] else "");
        }
      case _ =>
    }
  }

  lemma OverdueTold(e: Entry, now: Time)
    requires Told(e)
    ensures Told(CancelOverdue(e, now))
  {
    hide Told, Cancel;
    CancelTold(e, "run timeout exceeded", "relay", now);
  }

  /** In every reachable state the log alone tells the status of each run, the number and status of its attempt, and its node. */
  lemma {:induction false} LogTellsAll(tr: Trace, n: nat, r: string)
    requires IsTrace(tr) && n < |tr.states| && r in tr.states[n].entries
    ensures Retold(tr.states[n].entries[r].log) == GistOf(tr.states[n].entries[r].run)
  {
    hide Inv, Next, Init, Told;
    if n > 0 {
      var m := n - 1;
      Reachable(tr, m);
      if r in tr.states[m].entries {
        LogTellsAll(tr, m, r);
        ToldIs(tr.states[m].entries[r]);
      }
      StepTold(tr.states[m], tr.ops[m], tr.states[n], r);
      ToldIs(tr.states[n].entries[r]);
    } else {
      Empty(tr.states[0]);
    }
  }

  lemma ToldIs(e: Entry)
    ensures Told(e) <==> Retold(e.log) == GistOf(e.run)
  {
    hide Retold;
  }

  lemma Empty(s: State)
    requires Init(s)
    ensures s.entries == map[]
  {
  }
}

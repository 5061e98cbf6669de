/** What the relational storage answers and does, told by the fields of its rows. */
module PostgresAnswers {
  import opened Types
  import opened Identity
  import opened RunProtocol
  import opened RunInvariants
  import opened Protocol
  import opened Behaviours
  import opened Reconciliation
  import opened Answers
  import opened Dispatch
  import opened PostgresStore

  // ------------------------------------------------------------------ transactions under a lease

  /** Unlike in memory, a cancelling row is not finished by a start. */
  lemma StartedRow(e: Entry, attemptId: string, lease: string, t1: Time, t2: Time, t3: Time)
    requires RowSound(e) && t1 <= t2 <= t3
    ensures var (e', answer) := Transact(e, attemptId, lease, Start(t1, t2, t3));
      && (answer == Done <==>
            Entitled(e, attemptId, lease) && e.run.status == RunQueued && e.run.attempt.status == AttemptLeased && Unexpired(e, t2))
      && (answer == Done ==>
            && e'.run.status == RunRunning && e'.run.startedAt == Some(t3)
            && e'.run.attempt == e.run.attempt.(status := AttemptRunning, startedAt := Some(t3)))
      && (answer == Refused(ErrRunCancelled) <==>
            Entitled(e, attemptId, lease) && e.run.status == RunCancelling && Unexpired(e, t1))
      && (answer != Done ==> e' == e)
  {
    hide Terminals, Started, LogShape, HistorySound, Appendable;
  }

  lemma RenewedRow(e: Entry, attemptId: string, lease: string, t1: Time, t2: Time, ttl: Time)
    requires RowSound(e)
    ensures var (e', answer) := Transact(e, attemptId, lease, Renew(t1, t2, ttl));
      && (answer.Renewed? <==> Entitled(e, attemptId, lease) && Held(e) && Unexpired(e, t1))
      && (answer.Renewed? ==>
            && answer.expiresAt == t1 + ttl
            && (answer.cancelRequested <==> e.run.cancelRequestedAt.Some?) && answer.reason == e.run.cancelReason
            && e'.run == e.run.(attempt := e.run.attempt.(leaseExpiresAt := Some(t1 + ttl))) && e'.log == e.log)
      && (!answer.Renewed? ==> e' == e)
  {
    hide Terminals, Started, LogShape, HistorySound, Appendable;
  }

  lemma CompletedRow(e: Entry, attemptId: string, lease: string, t1: Time, t2: Time, result: RunResult)
    requires RowSound(e)
    ensures var (e', answer) := Transact(e, attemptId, lease, Complete(t1, t2, result));
      && (answer == Done <==>
            Entitled(e, attemptId, lease) &&
            ((e.run.status == RunRunning && Unexpired(e, t1)) || (e.run.status == RunSucceeded && e.run.result == Some(result))))
      && (answer == Done && e.run.status == RunRunning ==>
            && e'.run.status == RunSucceeded && e'.run.result == Some(result) && e'.run.completedAt == Some(t2)
            && e'.run.attempt == e.run.attempt.(status := AttemptSucceeded, completedAt := Some(t2)))
      && (answer == Refused(ErrRunCancelled) <==>
            Entitled(e, attemptId, lease) && e.run.status == RunCancelling && Unexpired(e, t1))
      && (answer != Done || e.run.status != RunRunning ==> e' == e)
  {
    hide Terminals, Started, LogShape, HistorySound, Appendable;
  }

  /** Unlike in memory, a failure report does not finish a cancelling row. */
  lemma FailedRow(e: Entry, attemptId: string, lease: string, t1: Time, t2: Time, cause: string)
    requires RowSound(e)
    ensures var (e', answer) := Transact(e, attemptId, lease, Fail(t1, t2, cause));
      && (answer == Done <==>
            Entitled(e, attemptId, lease) &&
            ((Held(e) && e.run.cancelRequestedAt.None? && Unexpired(e, t1))
             || (e.run.attempt.status == AttemptFailed && e.run.error == cause)))
      && (answer == Done && Held(e) ==>
            && e'.run.status == RunFailed && e'.run.error == cause && e'.run.completedAt == Some(t2)
            && e'.run.attempt == e.run.attempt.(status := AttemptFailed, completedAt := Some(t2)))
      && (answer == Refused(ErrRunCancelled) <==>
            Entitled(e, attemptId, lease) && e.run.status == RunCancelling && Unexpired(e, t1))
      && (answer != Done || !Held(e) ==> e' == e)
  {
    hide Terminals, Started, LogShape, HistorySound, Appendable;
  }

  /** Unlike in memory, a cancelled row still answers the acknowledgement of its last holder when the lease is over. */
  lemma AcknowledgedRow(e: Entry, attemptId: string, lease: string, t1: Time, t2: Time)
    requires RowSound(e)
    ensures var (e', answer) := Transact(e, attemptId, lease, Acknowledge(t1, t2));
      && (answer == Done <==>
            Entitled(e, attemptId, lease) && (e.run.status == RunCancelled || (e.run.status == RunCancelling && Unexpired(e, t1))))
      && (answer == Done ==> e'.run.status == RunCancelled && e'.run.attempt.status == AttemptCancelled)
      && (answer != Done || e.run.status == RunCancelled ==> e' == e)
  {
    hide Terminals, Started, LogShape, HistorySound, Appendable;
  }

  lemma RecordedRow(e: Entry, attemptId: string, lease: string, t1: Time, subject: Subject, id: string)
    requires RowSound(e)
    ensures var (e', answer) := Transact(e, attemptId, lease, Call.Record(t1, subject, id));
      && (answer == Done <==>
            Entitled(e, attemptId, lease)
            && ((e.run.attempt.status == AttemptRunning && Unexpired(e, t1))
                || (subject == CapabilityRecorded && (Terminal(e.run.status) || Unexpired(e, t1)))))
      && (answer == Done ==> e'.run == e.run && |e'.log| == |e.log| + 1 && e'.log[|e.log|].body == EvRecorded(subject, id))
      && (answer != Done ==> e' == e)
  {
    hide Terminals, Started, LogShape, HistorySound, Appendable;
  }

  /** An event is accepted exactly while the attempt executes, if its identity is new or was used for the very same event;
      and it is added exactly when its identity is new. */
  lemma AppendedRow(e: Entry, attemptId: string, lease: string, t1: Time, kind: string, payload: Payload, ids: seq<string>)
    requires RowSound(e)
    ensures var (e', answer) := Transact(e, attemptId, lease, AppendEvent(t1, kind, payload, ids));
      var id := EventIdentity(attemptId, lease, ids);
      var used := id.Producer? && exists i :: 0 <= i < |e.log| && e.log[i].id == id;
      && (answer == Done <==>
            Entitled(e, attemptId, lease) && Unexpired(e, t1) && e.run.attempt.status == AttemptRunning && payload.Json? &&
            (used ==> exists i :: 0 <= i < |e.log| && e.log[i].id == id && e.log[i].body == EvFromNode(kind, payload.text)))
      && (e' == if answer != Done || used then e
                else e.(log := e.log + [Event(id, e.run.id, attemptId, |e.log| + 1, EvFromNode(kind, payload.text))]))
  {
    hide Terminals, Started, HistorySound, Appendable, LogShape, AppendOnce, Apply, RunSound;
    AppendAnswer(e, attemptId, lease, t1, kind, payload, ids);
    SameAppend(e, attemptId, lease, AppendEvent(t1, kind, payload, ids));
    NoAppend(e, attemptId, lease, AppendEvent(t1, kind, payload, ids));
  }

  /** Before the lease runs out both storages treat an event alike. */
  lemma SameAppend(e: Entry, attemptId: string, lease: string, call: Call)
    requires RowSound(e) && call.AppendEvent?
    ensures Entitled(e, attemptId, lease) && Unexpired(e, call.t1) && e.run.attempt.status == AttemptRunning ==>
              Transact(e, attemptId, lease, call) == Apply(e, attemptId, lease, call)
  {
    hide Terminals, Started, HistorySound, Appendable, LogShape, AppendOnce;
  }

  lemma NoAppend(e: Entry, attemptId: string, lease: string, call: Call)
    requires RowSound(e) && call.AppendEvent?
    ensures !(Entitled(e, attemptId, lease) && Unexpired(e, call.t1) && e.run.attempt.status == AttemptRunning) ==>
              Transact(e, attemptId, lease, call).0 == e && Transact(e, attemptId, lease, call).1 != Done
  {
    hide Terminals, Started, HistorySound, Appendable, LogShape, AppendOnce;
  }

  // ------------------------------------------------------------------ reconciling

  /** A reconciliation leaves a row alone, or finds it past its deadline, lost, or done with being cancelled; and with room
      to spare it leaves alone only what is none of these, or locked. */
  lemma ReconciledRow(rows: map<string, Entry>, now: Time, limit: nat, locked: set<string>, overdue: set<string>,
                      abandoned: set<string>, ids: map<string, string>, processed: nat, rows': map<string, Entry>, r: string)
    requires AllRows(rows) && Reconciled(rows, now, limit, locked, overdue, abandoned, ids, processed, rows') && r in rows
    ensures r in rows'
    ensures var e, e' := rows[r], rows'[r];
      && (e' == e || TimedOut(e, e', now) || LostAttempt(e, e', now) || CancelDone(e, e', now))
      && (r in locked ==> e' == e)
      && (processed < limit && r !in locked ==>
            (e' == e <==>
               && !(Over(e.run.deadlineAt, now) && (e.run.status == RunQueued || e.run.status == RunRunning))
               && !(Over(e.run.attempt.leaseExpiresAt, now)
                    && (e.run.status == RunRunning || (e.run.status == RunCancelling && e.run.attempt.status != AttemptQueued)))))
      && (processed < limit && r !in locked && Over(e.run.deadlineAt, now) && (e.run.status == RunQueued || e.run.status == RunRunning) ==>
            TimedOut(e, e', now)
            && (e'.run.status == RunCancelled <==> e.run.attempt.status == AttemptQueued || Over(e.run.attempt.leaseExpiresAt, now)))
  {
    hide Sound, Cancel, CancelOverdue, Recover, Retries, Abandoned, Overdue, LostAttempt, TimedOut, CancelDone, Earliest, RowPair;
    var e := rows[r];
    var mid := CancelAll(rows, overdue, now);
    FieldsOf(e, now);
    if processed < limit {
      WholeSet(overdue, OverdueRuns(rows, now) - locked, limit);
      WholeSet(abandoned, AbandonedRuns(mid, now) - locked, limit - |overdue|);
    }
    assert r in OverdueRuns(rows, now) <==> Overdue(e, now);
    assert r in AbandonedRuns(mid, now) <==> Abandoned(mid[r], now);
    RunEffect(e, r in overdue, r in abandoned, processed < limit && r !in locked, now, if r in ids then ids[r] else "");
  }

  /** Under a limit the runs longest overdue are cancelled first, and of the others those whose lease ran out first are
      recovered first. */
  lemma ReconciledOrder(rows: map<string, Entry>, now: Time, limit: nat, locked: set<string>, overdue: set<string>,
                        abandoned: set<string>, ids: map<string, string>, processed: nat, rows': map<string, Entry>, p: string, q: string)
    requires AllRows(rows) && Reconciled(rows, now, limit, locked, overdue, abandoned, ids, processed, rows')
    requires p in rows && q in rows && q !in locked
    ensures p in overdue && q !in overdue && Over(rows[q].run.deadlineAt, now)
            && (rows[q].run.status == RunQueued || rows[q].run.status == RunRunning) ==>
              rows[p].run.deadlineAt.Some? && rows[p].run.deadlineAt.value <= rows[q].run.deadlineAt.value
    ensures p in abandoned && q !in abandoned && q !in overdue && Over(rows[q].run.attempt.leaseExpiresAt, now)
            && (rows[q].run.status == RunRunning || rows[q].run.status == RunCancelling) ==>
              rows[p].run.attempt.leaseExpiresAt.Some?
              && rows[p].run.attempt.leaseExpiresAt.value <= rows[q].run.attempt.leaseExpiresAt.value
  {
    hide RowSound, Earliest, CancelAll, RecoverAll, OverdueRuns, AbandonedRuns, Deadlines, Expiries;
    var mid := CancelAll(rows, overdue, now);
    if p in overdue && q !in overdue { DeadlineOrder(rows, now, locked, overdue, p, q); }
    if p in abandoned && q !in abandoned && q !in overdue { ExpiryOrder(rows, now, locked, overdue, abandoned, p, q); }
  }

  lemma DeadlineOrder(rows: map<string, Entry>, now: Time, locked: set<string>, overdue: set<string>, p: string, q: string)
    requires AllRows(rows) && Earliest(overdue, OverdueRuns(rows, now) - locked, Deadlines(rows))
    requires p in rows && q in rows && q !in locked && p in overdue && q !in overdue
    ensures Over(rows[q].run.deadlineAt, now) && (rows[q].run.status == RunQueued || rows[q].run.status == RunRunning) ==>
              rows[p].run.deadlineAt.Some? && rows[p].run.deadlineAt.value <= rows[q].run.deadlineAt.value
  {
    hide Sound, Overdue, RowPair;
    FieldsOf(rows[p], now);
    FieldsOf(rows[q], now);
    assert p in OverdueRuns(rows, now);
    assert q in OverdueRuns(rows, now) <==> Overdue(rows[q], now);
  }

  lemma ExpiryOrder(rows: map<string, Entry>, now: Time, locked: set<string>, overdue: set<string>, abandoned: set<string>, p: string, q: string)
    requires AllRows(rows) && overdue <= OverdueRuns(rows, now)
    requires var mid := CancelAll(rows, overdue, now); Earliest(abandoned, AbandonedRuns(mid, now) - locked, Expiries(mid))
    requires p in rows && q in rows && q !in locked && p in abandoned && q !in abandoned && q !in overdue
    ensures Over(rows[q].run.attempt.leaseExpiresAt, now)
            && (rows[q].run.status == RunRunning || rows[q].run.status == RunCancelling) ==>
              rows[p].run.attempt.leaseExpiresAt.Some?
              && rows[p].run.attempt.leaseExpiresAt.value <= rows[q].run.attempt.leaseExpiresAt.value
  {
    hide Sound, CancelOverdue, Abandoned, Overdue, RowPair;
    var mid := CancelAll(rows, overdue, now);
    FieldsOf(rows[q], now);
    QueuedHasNoLease(rows[q]);
    assert p in AbandonedRuns(mid, now) && mid[q] == rows[q];
    if p in overdue { assert p in OverdueRuns(rows, now); }
    MidLease(rows[p], p in overdue, now);
    assert q in AbandonedRuns(mid, now) <==> Abandoned(mid[q], now);
  }

  lemma QueuedHasNoLease(e: Entry)
    requires RowSound(e)
    ensures e.run.attempt.status == AttemptQueued ==> e.run.attempt.leaseExpiresAt.None?
  {
    hide LogSound, HistorySound;
  }

  lemma MidLease(e: Entry, overdue: bool, now: Time)
    requires RowSound(e) && (overdue ==> Overdue(e, now))
    requires Abandoned(if overdue then CancelOverdue(e, now) else e, now)
    ensures var mid := if overdue then CancelOverdue(e, now) else e;
      mid.run.attempt.leaseExpiresAt == e.run.attempt.leaseExpiresAt && e.run.attempt.leaseExpiresAt.Some?
  {
    hide Sound, CancelOverdue, Overdue;
    if overdue { OverdueEffect(e, now); }
  }
}

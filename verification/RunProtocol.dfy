/** What each control-plane operation does to one run, and what it keeps true of it. */
module RunProtocol {
  import opened Types
  import opened Identity

  /** A run with its request, its event log and its attempts before the current one. */
  datatype Entry = Entry(run: Run, request: Request, log: seq<Event>, past: seq<Attempt>)

  // ------------------------------------------------------------------ event log

  predicate IsTerminalEvent(body: EventBody) {
    body.EvRunSucceeded? || body.EvRunFailed? || body.EvRunCancelled?
  }

  /** The terminal run events the server itself wrote, in log order. */
  function Terminals(log: seq<Event>): seq<EventBody> {
    if log == [] then []
    else
      var last := log[|log| - 1];
      Terminals(log[..|log| - 1]) + if IsTerminalEvent(last.body) then [last.body] else []
  }

  /** The attempts that began executing, in log order. */
  function Started(log: seq<Event>): seq<string> {
    if log == [] then []
    else
      var last := log[|log| - 1];
      Started(log[..|log| - 1]) + if last.body.EvStarted? then [last.attemptId] else []
  }

  predicate HasEvent(log: seq<Event>, id: EventId) {
    exists i :: 0 <= i < |log| && log[i].id == id
  }

  /** An identity is used once, and only by an event a node sends before the terminal event. */
  predicate Appendable(log: seq<Event>, id: EventId, body: EventBody) {
    && (body.EvFromNode? ==> Terminals(log) == [])
    && (id.Producer? ==> body.EvFromNode? && !HasEvent(log, id))
  }

  /** Every event was numbered by its place and could be appended to the events before it. */
  predicate LogShape(runId: string, log: seq<Event>) {
    log == [] ||
    var before, last := log[..|log| - 1], log[|log| - 1];
    LogShape(runId, before) && last.sequence == |log| && last.runId == runId && Appendable(before, last.id, last.body)
  }

  lemma {:induction false} NoTerminals(log: seq<Event>)
    requires Terminals(log) == []
    ensures forall i :: 0 <= i < |log| ==> !IsTerminalEvent(log[i].body)
  {
    if log != [] {
      NoTerminals(log[..|log| - 1]);
      assert forall i :: 0 <= i < |log| - 1 ==> log[i] == log[..|log| - 1][i];
    }
  }

  function AppendAs(e: Entry, id: EventId, body: EventBody): (e': Entry)
    ensures e.log <= e'.log && |e'.log| == |e.log| + 1 && e' == e.(log := e'.log)
    ensures e'.log[|e.log|] == Event(id, e.run.id, e.run.attempt.id, |e.log| + 1, body)
    ensures Terminals(e'.log) == Terminals(e.log) + if IsTerminalEvent(body) then [body] else []
    ensures Started(e'.log) == Started(e.log) + if body.EvStarted? then [e.run.attempt.id] else []
    ensures LogShape(e.run.id, e.log) && Appendable(e.log, id, body) ==> LogShape(e.run.id, e'.log)
  {
    var event := Event(id, e.run.id, e.run.attempt.id, |e.log| + 1, body);
    assert (e.log + [event])[..|e.log|] == e.log;
    e.(log := e.log + [event])
  }

  function Append(e: Entry, body: EventBody): Entry {
    AppendAs(e, Assigned, body)
  }

  // ------------------------------------------------------------------ steps

  predicate Live(e: Entry) {
    e.run.attempt.status == AttemptLeased || e.run.attempt.status == AttemptRunning
  }

  predicate LeaseOver(attempt: Attempt, now: Time) {
    attempt.leaseExpiresAt.None? || attempt.leaseExpiresAt.value <= now
  }

  predicate LeasePassed(attempt: Attempt, now: Time) {
    attempt.leaseExpiresAt.Some? && attempt.leaseExpiresAt.value <= now
  }

  predicate DeadlinePassed(e: Entry, now: Time) {
    e.run.deadlineAt.Some? && e.run.deadlineAt.value <= now
  }

  function NewAttempt(id: string, number: nat, available: Time): Attempt {
    Attempt(id, number, AttemptQueued, "", "", None, Some(available), None, None)
  }

  function NewRun(request: Request, runId: string, attempt: Attempt, now: Time): Run {
    var deadline := if request.timeout > 0 then Some(now + request.timeout) else None;
    Run(runId, request.tenant, request.project, request.key, RunQueued, attempt, None, "",
        now, None, None, deadline, None, "", None)
  }

  function NewEntry(request: Request, runId: string, attemptId: string, now: Time): Entry {
    var run := NewRun(request, runId, NewAttempt(attemptId, 1, now), now);
    Append(Append(Entry(run, request, [], []), EvCreated(RunQueued)), EvQueued(1, None))
  }

  /** Gives a lease that ran out before execution began back to the queue. */
  function Expire(e: Entry, now: Time): Entry {
    var at := e.run.attempt;
    if at.status != AttemptLeased || !LeasePassed(at, now) then e
    else
      var noted := Append(e, EvLeaseExpired(at.nodeId));
      noted.(run := e.run.(attempt := at.(status := AttemptQueued, nodeId := "", lease := "", leaseExpiresAt := None)))
  }

  function FinalizeCancel(e: Entry, now: Time): Entry {
    if e.run.status == RunCancelled then e
    else
      var done := e.run.(
        attempt := e.run.attempt.(status := AttemptCancelled, completedAt := Some(now)),
        status := RunCancelled, cancelledAt := Some(now), completedAt := Some(now));
      Append(Append(e.(run := done), EvAttemptCancelled(e.run.cancelReason)), EvRunCancelled(e.run.cancelReason))
  }

  function Cancel(e: Entry, reason: string, requester: string, now: Time): Entry {
    if Terminal(e.run.status) || e.run.cancelRequestedAt.Some? then e
    else
      var asked := Append(e.(run := e.run.(cancelRequestedAt := Some(now), cancelReason := reason)),
                          EvCancelRequested(reason, requester));
      if e.run.attempt.status == AttemptQueued then FinalizeCancel(asked, now)
      else asked.(run := asked.run.(status := RunCancelling))
  }

  function CancelOverdue(e: Entry, now: Time): Entry {
    Cancel(e, "run timeout exceeded", "relay", now)
  }

  /** What a claim does to every run before it looks for work. */
  function Sweep(e: Entry, now: Time): Entry {
    var e1 := if DeadlinePassed(e, now) && e.run.cancelRequestedAt.None? then CancelOverdue(e, now) else e;
    if e1.run.status == RunCancelling && Live(e1) && LeasePassed(e1.run.attempt, now)
    then FinalizeCancel(e1, now)
    else Expire(e1, now)
  }

  predicate Claimable(e: Entry, node: Registration, now: Time) {
    && e.run.status == RunQueued && e.run.attempt.status == AttemptQueued
    && (e.run.attempt.availableAt.None? || e.run.attempt.availableAt.value <= now)
    && e.request.needs <= node.offers
  }

  function Grant(e: Entry, nodeId: string, lease: string, expires: Time): Entry {
    var at := e.run.attempt.(status := AttemptLeased, nodeId := nodeId, lease := lease, leaseExpiresAt := Some(expires));
    Append(e.(run := e.run.(attempt := at)), EvLeased(nodeId, expires))
  }

  predicate Overdue(e: Entry, now: Time) {
    DeadlinePassed(e, now) && !Terminal(e.run.status) && e.run.cancelRequestedAt.None?
  }

  /** The second half of reconciliation looks for these. */
  predicate Abandoned(e: Entry, now: Time) {
    && (e.run.status == RunRunning || e.run.status == RunCancelling)
    && (e.run.attempt.status == AttemptRunning || (e.run.status == RunCancelling && e.run.attempt.status == AttemptLeased))
    && LeasePassed(e.run.attempt, now)
  }

  predicate Retries(e: Entry) {
    e.run.status != RunCancelling && e.run.attempt.number < e.request.maxAttempts
  }

  function Lose(e: Entry, now: Time): Entry {
    var lost := e.run.attempt.(status := AttemptLost, completedAt := Some(now));
    Append(e.(run := e.run.(attempt := lost)), EvLost(lost.nodeId))
  }

  /** Replaces a lost attempt by the next one, queued. */
  function Requeue(e: Entry, now: Time, attemptId: string): Entry {
    var next := NewAttempt(attemptId, e.run.attempt.number + 1, now + e.request.backoff);
    var queued := e.run.(attempt := next, status := RunQueued, error := "", startedAt := None, completedAt := None);
    Append(e.(run := queued, past := e.past + [e.run.attempt]), EvQueued(next.number, next.availableAt))
  }

  function Exhaust(e: Entry, now: Time): Entry {
    var failed := e.run.(status := RunFailed, error := "attempt lease expired", completedAt := Some(now));
    Append(e.(run := failed), EvRunFailed(failed.error))
  }

  /** Reconciling an abandoned run: finish its cancellation, queue the next attempt, or fail it. */
  function Recover(e: Entry, now: Time, attemptId: string): Entry {
    if e.run.status == RunCancelling then FinalizeCancel(e, now)
    else if Retries(e) then Requeue(Lose(e, now), now, attemptId)
    else Exhaust(Lose(e, now), now)
  }

  // ------------------------------------------------------------------ calls by lease holders

  /** A call made with a lease; each time is one reading of the clock, in program order. */
  datatype Call =
    | Renew(t1: Time, t2: Time, ttl: Time)
    | Start(t1: Time, t2: Time, t3: Time)
    | AppendEvent(t1: Time, kind: string, payload: Payload, ids: seq<string>)
    | Complete(t1: Time, t2: Time, result: RunResult)
    | Fail(t1: Time, t2: Time, cause: string)
    | Acknowledge(t1: Time, t2: Time)
    | Record(t1: Time, subject: Subject, id: string)
    | Inspect(t1: Time, running: bool)

  datatype Answer = Done | Renewed(expiresAt: Time, cancelRequested: bool, reason: string) | Refused(error: Error)

  predicate Holds(e: Entry, attemptId: string, lease: string) {
    e.run.attempt.id == attemptId && lease != "" && e.run.attempt.lease == lease
  }

  /** The common check: the right lease, not yet over; a lease found over is put back in the queue. */
  function Authorize(e: Entry, attemptId: string, lease: string, now: Time): (Entry, bool) {
    if !Holds(e, attemptId, lease) then (e, false)
    else if LeaseOver(e.run.attempt, now) then (Expire(e, now), false)
    else (e, true)
  }

  /** The event that already carries an identity. */
  function FindEvent(log: seq<Event>, id: EventId): (event: Event)
    requires HasEvent(log, id)
    ensures event in log && event.id == id
  {
    if log[0].id == id then log[0] else FindEvent(log[1..], id)
  }

  function SameEvent(stored: EventBody, kind: string, payload: Payload): Answer {
    if payload.Unencodable? then Refused(ErrEncoding)
    else if stored == EvFromNode(kind, payload.text) then Done
    else Refused(ErrInvalidTransition)
  }

  function AppendOnce(e: Entry, attemptId: string, lease: string, kind: string, payload: Payload, ids: seq<string>): (Entry, Answer) {
    var id := EventIdentity(attemptId, lease, ids);
    if id != Assigned && HasEvent(e.log, id) then (e, SameEvent(FindEvent(e.log, id).body, kind, payload))
    else if payload.Unencodable? then (e, Refused(ErrEncoding))
    else (AppendAs(e, id, EvFromNode(kind, payload.text)), Done)
  }

  function Succeed(e: Entry, result: RunResult, now: Time): Entry {
    var run := e.run.(status := RunSucceeded, result := Some(result), completedAt := Some(now),
                      attempt := e.run.attempt.(status := AttemptSucceeded, completedAt := Some(now)));
    Append(Append(e.(run := run), EvAttemptSucceeded), EvRunSucceeded(result))
  }

  function Break(e: Entry, cause: string, now: Time): Entry {
    var run := e.run.(status := RunFailed, error := cause, completedAt := Some(now),
                      attempt := e.run.attempt.(status := AttemptFailed, completedAt := Some(now)));
    Append(Append(e.(run := run), EvAttemptFailed(cause)), EvRunFailed(cause))
  }

  function Begin(e: Entry, now: Time): Entry {
    var run := e.run.(status := RunRunning, startedAt := Some(now),
                      attempt := e.run.attempt.(status := AttemptRunning, startedAt := Some(now)));
    Append(Append(e.(run := run), EvStarted(run.attempt.nodeId)), EvRunStarted)
  }

  function Apply(e: Entry, attemptId: string, lease: string, call: Call): (Entry, Answer) {
    match call
    case Complete(t1, t2, result) => ApplyComplete(e, attemptId, lease, t1, t2, result)
    case Fail(t1, t2, cause) => ApplyFail(e, attemptId, lease, t1, t2, cause)
    case _ =>
      var (e1, ok) := Authorize(e, attemptId, lease, call.t1);
      if !ok then (e1, Refused(ErrInvalidLease)) else ApplyAuthorized(e1, attemptId, lease, call)
  }

  function ApplyAuthorized(e: Entry, attemptId: string, lease: string, call: Call): (Entry, Answer)
    requires !call.Complete? && !call.Fail?
  {
    var at := e.run.attempt;
    match call
    case Renew(_, t2, ttl) =>
      if !Live(e) then (e, Refused(ErrInvalidTransition))
      else if LeaseOver(at, t2) then (e, Refused(ErrInvalidLease))
      else (e.(run := e.run.(attempt := at.(leaseExpiresAt := Some(t2 + ttl)))),
            Renewed(t2 + ttl, e.run.cancelRequestedAt.Some?, e.run.cancelReason))
    case Start(_, t2, t3) =>
      if at.status != AttemptLeased then (e, Refused(ErrInvalidTransition))
      else if e.run.status == RunCancelling then (FinalizeCancel(e, t2), Refused(ErrRunCancelled))
      else if LeasePassed(at, t2) then (Expire(e, t3), Refused(ErrInvalidLease))
      else (Begin(e, t3), Done)
    case AppendEvent(_, kind, payload, ids) =>
      if at.status != AttemptRunning then (e, Refused(ErrInvalidTransition))
      else AppendOnce(e, attemptId, lease, kind, payload, ids)
    case Acknowledge(_, t2) =>
      if e.run.status == RunCancelled then (e, Done)
      else if e.run.status != RunCancelling then (e, Refused(ErrInvalidTransition))
      else (FinalizeCancel(e, t2), Done)
    case Record(_, subject, id) =>
      if !subject.CapabilityRecorded? && at.status != AttemptRunning then (e, Refused(ErrInvalidTransition))
      else (Append(e, EvRecorded(subject, id)), Done)
    case Inspect(_, running) =>
      if running && at.status != AttemptRunning then (e, Refused(ErrInvalidTransition)) else (e, Done)
  }

  function ApplyComplete(e: Entry, attemptId: string, lease: string, t1: Time, t2: Time, result: RunResult): (Entry, Answer) {
    if !Holds(e, attemptId, lease) then (e, Refused(ErrInvalidLease))
    else if e.run.status == RunSucceeded && e.run.attempt.status == AttemptSucceeded then
      (e, if e.run.result == Some(result) then Done else Refused(ErrInvalidTransition))
    else if LeaseOver(e.run.attempt, t1) then (e, Refused(ErrInvalidLease))
    else if e.run.attempt.status != AttemptRunning then (e, Refused(ErrInvalidTransition))
    else if e.run.status == RunCancelling then (e, Refused(ErrRunCancelled))
    else (Succeed(e, result, t2), Done)
  }

  function ApplyFail(e: Entry, attemptId: string, lease: string, t1: Time, t2: Time, cause: string): (Entry, Answer) {
    if !Holds(e, attemptId, lease) then (e, Refused(ErrInvalidLease))
    else if e.run.status == RunFailed && e.run.attempt.status == AttemptFailed then
      (e, if e.run.error == cause then Done else Refused(ErrInvalidTransition))
    else if LeaseOver(e.run.attempt, t1) then (e, Refused(ErrInvalidLease))
    else if !Live(e) then (e, Refused(ErrInvalidTransition))
    else if e.run.status == RunCancelling then (FinalizeCancel(e, t2), Refused(ErrRunCancelled))
    else (Break(e, cause, t2), Done)
  }

  /** Clock readings of one call, first to last. */
  predicate Ordered(from: Time, call: Call, to: Time) {
    match call
    case Renew(t1, t2, _) => from <= t1 <= t2 <= to
    case Start(t1, t2, t3) => from <= t1 <= t2 <= t3 <= to
    case AppendEvent(t1, _, _, _) => from <= t1 <= to
    case Complete(t1, t2, _) => from <= t1 <= t2 <= to
    case Fail(t1, t2, _) => from <= t1 <= t2 <= to
    case Acknowledge(t1, t2) => from <= t1 <= t2 <= to
    case Record(t1, _, _) => from <= t1 <= to
    case Inspect(t1, _) => from <= t1 <= to
  }
}

/** A node that holds a lease is served as long as the lease lasts: what it is answered follows from the history alone. */
module HolderRights {
  import opened Types
  import opened Identity
  import opened RunProtocol
  import opened RunInvariants
  import opened Protocol
  import opened Behaviours
  import opened Leases
  import opened Answers
  import opened Causes

  /** The claim that issued a token. */
  ghost predicate Issues(op: Op, r: string, attemptId: string, lease: string) {
    Grants(op, r) && op.reply.value.attemptId == attemptId && op.reply.value.lease == lease
  }

  lemma GrantNames(s: State, op: Op, s': State, r: string, attemptId: string, lease: string)
    requires Next(s, op, s') && Issues(op, r, attemptId, lease)
    ensures r in s'.entries && s'.entries[r].run.attempt.id == attemptId && s'.entries[r].run.attempt.lease == lease
    ensures lease != "" && lease in s'.issued
  {
    hide Sweep, LiveOn, Claimable, Terminals, Started, LogShape;
  }

  /** A token belongs to one attempt. */
  lemma {:induction false} TokenOfAttempt(tr: Trace, k: nat, n: nat, r: string, attemptId: string, lease: string)
    requires IsTrace(tr) && k < n < |tr.states| && Issues(tr.ops[k], r, attemptId, lease)
    ensures r in tr.states[n].entries && lease in tr.states[n].issued && lease != ""
    ensures tr.states[n].entries[r].run.attempt.lease == lease ==> tr.states[n].entries[r].run.attempt.id == attemptId
    decreases n
  {
    hide Inv, Next, Init, Issues, Sound, Keeps;
    var m := n - 1;
    Stepped(tr, m);
    if m == k {
      GrantNames(tr.states[m], tr.ops[m], tr.states[n], r, attemptId, lease);
    } else {
      TokenOfAttempt(tr, k, m, r, attemptId, lease);
      SameAttemptStep(tr.states[m], tr.ops[m], tr.states[n], r);
      Between(tr, m, n);
      IssuedStays(tr.states[m], tr.states[n], r);
    }
  }

  lemma IssuedStays(s: State, s': State, r: string)
    requires Advances(s, s') && r in s.entries
    ensures r in s'.entries && s.issued <= s'.issued
    ensures s'.entries[r].run.attempt.lease == s.entries[r].run.attempt.lease || s'.entries[r].run.attempt.lease == ""
            || s'.entries[r].run.attempt.lease !in s.issued
  {
    hide Keeps;
  }

  /** Nothing has ended the run before step `n`: no accepted report and no cancellation. */
  ghost predicate Undisturbed(tr: Trace, n: nat, r: string)
    requires n <= |tr.ops| && n < |tr.states|
  {
    forall i :: 0 <= i < n ==>
      !Cancels(tr.states[i], tr.ops[i], r)
      && !(tr.ops[i].OpCall? && tr.ops[i].runId == r && (tr.ops[i].call.Complete? || tr.ops[i].call.Fail?) && tr.ops[i].answer == Done)
  }

  /** The time by which the control plane has decided a call. */
  function DecidedAt(call: Call): Time {
    match call
    case Renew(_, t2, _) => t2
    case Start(_, t2, _) => t2
    case _ => call.t1
  }

  lemma {:induction false} NotEnded(tr: Trace, n: nat, r: string)
    requires IsTrace(tr) && n < |tr.ops| && r in tr.states[n].entries && Undisturbed(tr, n, r)
    ensures var run := tr.states[n].entries[r].run;
      run.cancelRequestedAt.None? && run.status != RunSucceeded && !(run.status == RunFailed && run.attempt.status == AttemptFailed)
  {
    hide Inv, Next, Init, Cancels;
    CancelledBecause(tr, n, r);
    var run := tr.states[n].entries[r].run;
    Stepped(tr, n);
    if run.status == RunSucceeded {
      ResultThere(tr.states[n], r);
      SucceededBecause(tr, n, r, run.result.value);
    }
    FailedBecause(tr, n, r, run.error);
  }

  lemma ResultThere(s: State, r: string)
    requires Inv(s) && r in s.entries && s.entries[r].run.status == RunSucceeded
    ensures s.entries[r].run.result.Some?
  {
    hide LogSound, HistorySound;
    SoundAt(s, r);
  }

  /** Inside an open window the attempt is held by the window's owner, and has started exactly if its start was accepted. */
  lemma InsideWindow(tr: Trace, k: nat, n: nat, r: string, attemptId: string, lease: string, t: Time)
    requires IsTrace(tr) && k < n < |tr.ops| && Issues(tr.ops[k], r, attemptId, lease) && Undisturbed(tr, n, r)
    requires var windows := Windows(tr.ops[..n], r);
      |windows| > 0 && windows[|windows| - 1].lease == lease && tr.states[n].clock <= t < windows[|windows| - 1].until
    ensures r in tr.states[n].entries && Sound(tr.states[n].entries[r])
    ensures var e := tr.states[n].entries[r];
      && Entitled(e, attemptId, lease) && Unexpired(e, t) && e.run.cancelRequestedAt.None?
      && e.run.attempt.leaseExpiresAt == Some(Windows(tr.ops[..n], r)[|Windows(tr.ops[..n], r)| - 1].until)
      && (if exists i :: 0 <= i < n && AcceptedStart(tr.ops[i], r, attemptId)
          then e.run.status == RunRunning && e.run.attempt.status == AttemptRunning
          else e.run.status == RunQueued && e.run.attempt.status == AttemptLeased)
  {
    hide Inv, Next, Init, Issues, Undisturbed, Cancels, AcceptedStart, Windows;
    TokenOfAttempt(tr, k, n, r, attemptId, lease);
    NotEnded(tr, n, r);
    WindowsTrack(tr, n, r);
    RunBetween(tr, n, n, r);
    StartedBecause(tr, n, r, tr.states[n].entries[r].run.attempt.id);
    HeldInside(tr.states[n], Windows(tr.ops[..n], r), r, t);
  }

  lemma HeldInside(s: State, windows: seq<Window>, r: string, t: Time)
    requires WindowInv(s, windows, r) && r in s.entries && Sound(s.entries[r])
    requires |windows| > 0 && s.clock <= t < windows[|windows| - 1].until
    requires var run := s.entries[r].run;
      run.cancelRequestedAt.None? && run.status != RunSucceeded && !(run.status == RunFailed && run.attempt.status == AttemptFailed)
    ensures var e := s.entries[r];
      && e.run.attempt.lease == windows[|windows| - 1].lease && e.run.attempt.leaseExpiresAt == Some(windows[|windows| - 1].until)
      && (if e.run.attempt.startedAt.Some? then e.run.status == RunRunning && e.run.attempt.status == AttemptRunning
          else e.run.status == RunQueued && e.run.attempt.status == AttemptLeased)
  {
    hide LogSound, HistorySound;
  }

  /** No event of the log carries the identity. */
  predicate Unused(log: seq<Event>, id: EventId) {
    id == Assigned || forall i :: 0 <= i < |log| ==> log[i].id != id
  }

  /** Inside its window the holder of a lease that nobody cancelled is never refused for lack of it: it may start once,
      and from then on send events and complete; it may renew and fail all the time. */
  lemma HolderIsServed(tr: Trace, k: nat, n: nat, r: string, attemptId: string, lease: string)
    requires IsTrace(tr) && k < n < |tr.ops| && Issues(tr.ops[k], r, attemptId, lease) && Undisturbed(tr, n, r)
    requires var op := tr.ops[n]; op.OpCall? && op.runId == r && op.attemptId == attemptId && op.lease == lease
    requires var windows := Windows(tr.ops[..n], r);
      |windows| > 0 && windows[|windows| - 1].lease == lease && DecidedAt(tr.ops[n].call) < windows[|windows| - 1].until
    ensures r in tr.states[n].entries
    ensures var answer, started := tr.ops[n].answer, exists i :: 0 <= i < n && AcceptedStart(tr.ops[i], r, attemptId);
      match tr.ops[n].call
      case Start(_, _, _) => answer == if started then Refused(ErrInvalidTransition) else Done
      case Complete(_, _, _) => answer == if started then Done else Refused(ErrInvalidTransition)
      case Fail(_, _, _) => answer == Done
      case Renew(_, t2, ttl) => answer.Renewed? && answer.expiresAt == t2 + ttl && !answer.cancelRequested
      case AppendEvent(_, kind, payload, ids) =>
        (answer == Refused(ErrInvalidTransition) <== !started) && (answer == Done ==> started)
        && (started && payload.Json? && Unused(tr.states[n].entries[r].log, EventIdentity(attemptId, lease, ids)) ==> answer == Done)
      case Acknowledge(_, _) => answer == Refused(ErrInvalidTransition)
      case Record(_, subject, _) => answer == if started || subject == CapabilityRecorded then Done else Refused(ErrInvalidTransition)
      case Inspect(_, running) => answer == if started || !running then Done else Refused(ErrInvalidTransition)
  {
    hide Inv, Next, Init, Issues, Undisturbed, AcceptedStart, Windows, Entitled, Unexpired, Sound;
    var op := tr.ops[n];
    Stepped(tr, n);
    CallTimes(tr.states[n], op, tr.states[n + 1]);
    InsideWindow(tr, k, n, r, attemptId, lease, DecidedAt(op.call));
    CallAnswered(tr.states[n], op, tr.states[n + 1]);
    ServedCall(tr.states[n].entries[r], attemptId, lease, op.call);
  }

  lemma CallTimes(s: State, op: Op, s': State)
    requires Next(s, op, s') && op.OpCall?
    ensures Ordered(s.clock, op.call, s'.clock) && s.clock <= DecidedAt(op.call)
  {
    hide Apply;
  }

  lemma CallAnswered(s: State, op: Op, s': State)
    requires Next(s, op, s') && op.OpCall? && op.runId in s.entries
    ensures op.answer == Apply(s.entries[op.runId], op.attemptId, op.lease, op.call).1
    ensures Ordered(s.clock, op.call, s'.clock)
  {
    hide Apply;
  }

  lemma ServedCall(e: Entry, attemptId: string, lease: string, call: Call)
    requires Sound(e) && Entitled(e, attemptId, lease) && Unexpired(e, DecidedAt(call)) && e.run.cancelRequestedAt.None?
    requires exists from, to :: Ordered(from, call, to)
    requires (e.run.status == RunRunning && e.run.attempt.status == AttemptRunning)
             || (e.run.status == RunQueued && e.run.attempt.status == AttemptLeased)
    ensures var answer, started := Apply(e, attemptId, lease, call).1, e.run.attempt.status == AttemptRunning;
      match call
      case Start(_, _, _) => answer == if started then Refused(ErrInvalidTransition) else Done
      case Complete(_, _, _) => answer == if started then Done else Refused(ErrInvalidTransition)
      case Fail(_, _, _) => answer == Done
      case Renew(_, t2, ttl) => answer.Renewed? && answer.expiresAt == t2 + ttl && !answer.cancelRequested
      case AppendEvent(_, kind, payload, ids) =>
        (answer == Refused(ErrInvalidTransition) <== !started) && (answer == Done ==> started)
        && (started && payload.Json? && Unused(e.log, EventIdentity(attemptId, lease, ids)) ==> answer == Done)
      case Acknowledge(_, _) => answer == Refused(ErrInvalidTransition)
      case Record(_, subject, _) => answer == if started || subject == CapabilityRecorded then Done else Refused(ErrInvalidTransition)
      case Inspect(_, running) => answer == if started || !running then Done else Refused(ErrInvalidTransition)
  {
    hide Terminals, Started, LogShape, LogSound, HistorySound, Appendable;
  }

  // ------------------------------------------------------------------ repeating a request

  lemma EndedKeepsLease(tr: Trace, i: nat, j: nat, r: string)
    requires IsTrace(tr) && i < j < |tr.ops| && tr.ops[i].OpCall? && tr.ops[i].runId == r && tr.ops[i].answer == Done
    requires tr.ops[i].call.Complete? || tr.ops[i].call.Fail?
    ensures r in tr.states[j].entries && Sound(tr.states[j].entries[r])
    ensures Entitled(tr.states[j].entries[r], tr.ops[i].attemptId, tr.ops[i].lease)
  {
    hide Inv, Next, Init, Apply, EntryStep;
    Stepped(tr, i);
    AcceptedFrom(tr.states[i], tr.ops[i], tr.states[i + 1], r);
    RunBetween(tr, i + 1, j, r);
    TerminalIsFinal(tr, i + 1, j, r);
  }

  lemma AcceptedFrom(s: State, op: Op, s': State, r: string)
    requires Inv(s) && Next(s, op, s') && op.OpCall? && op.runId == r && op.answer == Done && (op.call.Complete? || op.call.Fail?)
    ensures r in s'.entries && Entitled(s'.entries[r], op.attemptId, op.lease) && Terminal(s'.entries[r].run.status)
  {
    hide Inv, Sound, Apply;
    SoundAt(s, op.runId);
    var e := s.entries[r];
    ApplySameHolder(e, op.attemptId, op.lease, op.call);
    match op.call {
      case Complete(t1, t2, result) => CompleteAnswer(e, op.attemptId, op.lease, t1, t2, result);
      case Fail(t1, t2, cause) =>
        FailAnswer(e, op.attemptId, op.lease, t1, t2, cause);
        if !Held(e) { FailedStatus(e); }
    }
  }

  lemma FailedStatus(e: Entry)
    requires Sound(e) && e.run.attempt.status == AttemptFailed
    ensures e.run.status == RunFailed
  {
    hide LogSound, HistorySound;
  }

  /** Once a report was accepted, repeating it under the same lease is accepted again, however late, and every other
      report is refused; none of them changes the run. */
  lemma RepeatedReport(tr: Trace, i: nat, j: nat, r: string)
    requires IsTrace(tr) && i < j < |tr.ops| && tr.ops[i].OpCall? && tr.ops[i].runId == r && tr.ops[i].answer == Done
    requires tr.ops[i].call.Complete? || tr.ops[i].call.Fail?
    requires var op := tr.ops[j]; op.OpCall? && op.runId == r && (op.call.Complete? || op.call.Fail?)
    ensures tr.ops[j].answer == Done <==>
              tr.ops[j].attemptId == tr.ops[i].attemptId && tr.ops[j].lease == tr.ops[i].lease
              && (tr.ops[i].call.Complete? ==> tr.ops[j].call.Complete? && tr.ops[j].call.result == tr.ops[i].call.result)
              && (tr.ops[i].call.Fail? ==> tr.ops[j].call.Fail? && tr.ops[j].call.cause == tr.ops[i].call.cause)
    ensures r in tr.states[j].entries && tr.states[j + 1].entries == tr.states[j].entries
  {
    hide Inv, Next, Init, Apply, Sound;
    EndedKeepsLease(tr, i, j, r);
    var e := tr.states[j].entries[r];
    var op, first := tr.ops[j], tr.ops[i];
    if first.call.Complete? {
      AcceptedReportHolds(tr, i, j, r, first.call.result, "");
      assert Reported(first, r, first.call.result);
    } else {
      AcceptedReportHolds(tr, i, j, r, RunResult("", ""), first.call.cause);
      assert ReportedFailure(first, r, first.call.cause);
      AcceptedFailure(tr, i, j, r, first.call.cause);
    }
    Stepped(tr, j);
    match op.call {
      case Complete(t1, t2, result) => CompleteAnswer(e, op.attemptId, op.lease, t1, t2, result);
      case Fail(t1, t2, cause) => FailAnswer(e, op.attemptId, op.lease, t1, t2, cause); EndedIsIdle(e);
    }
    CallPuts(tr.states[j], op, tr.states[j + 1]);
  }

  lemma EndedIsIdle(e: Entry)
    requires Sound(e) && (e.run.status == RunSucceeded || e.run.status == RunFailed)
    ensures !Held(e) && (e.run.status == RunSucceeded ==> e.run.attempt.status == AttemptSucceeded)
  {
    hide LogSound, HistorySound;
  }

  lemma CallPuts(s: State, op: Op, s': State)
    requires Next(s, op, s') && op.OpCall? && op.runId in s.entries
    requires Apply(s.entries[op.runId], op.attemptId, op.lease, op.call).0 == s.entries[op.runId]
    ensures s'.entries == s.entries && op.answer == Apply(s.entries[op.runId], op.attemptId, op.lease, op.call).1
  {
    hide Apply;
    assert s.entries[op.runId := s.entries[op.runId]] == s.entries;
  }

  /** An accepted event with an identity may be sent again while the attempt executes: the same event is accepted without
      being added, another one under that identity is refused, and neither changes anything. */
  lemma RepeatedEvent(tr: Trace, i: nat, j: nat, r: string)
    requires IsTrace(tr) && i < j < |tr.ops| && tr.ops[i].OpCall? && tr.ops[i].runId == r && tr.ops[i].answer == Done
    requires tr.ops[i].call.AppendEvent?
    requires EventIdentity(tr.ops[i].attemptId, tr.ops[i].lease, tr.ops[i].call.ids).Producer?
    requires var op := tr.ops[j];
      && op.OpCall? && op.runId == r && op.attemptId == tr.ops[i].attemptId && op.lease == tr.ops[i].lease
      && op.call.AppendEvent? && op.call.ids == tr.ops[i].call.ids
    requires r in tr.states[j].entries
    requires var e := tr.states[j].entries[r];
      Entitled(e, tr.ops[j].attemptId, tr.ops[j].lease) && Unexpired(e, tr.ops[j].call.t1) && e.run.attempt.status == AttemptRunning
    ensures tr.ops[j].answer == Done <==>
              tr.ops[j].call.kind == tr.ops[i].call.kind && tr.ops[j].call.payload == tr.ops[i].call.payload
    ensures tr.states[j + 1].entries == tr.states[j].entries
  {
    hide Inv, Next, Init, Apply, EntryStep, Entitled, Unexpired, EventIdentity, Sound;
    var op, first := tr.ops[j], tr.ops[i];
    var id := EventIdentity(first.attemptId, first.lease, first.call.ids);
    Stepped(tr, i);
    AcceptedEvent(tr.states[i], first, tr.states[i + 1], id);
    RunBetween(tr, i + 1, j, r);
    var e := tr.states[j].entries[r];
    var before := tr.states[i + 1].entries[r].log;
    var k :| 0 <= k < |before| && before[k].id == id && before[k].body == EvFromNode(first.call.kind, first.call.payload.text);
    EventStays(before, e.log, k);
    Stepped(tr, j);
    RepeatedAppend(e, op.attemptId, op.lease, op.call, k, first.call.kind, first.call.payload.text);
    CallPuts(tr.states[j], op, tr.states[j + 1]);
  }

  lemma EventStays(log: seq<Event>, log': seq<Event>, k: nat)
    requires log <= log' && k < |log|
    ensures log'[k] == log[k]
  {
  }

  lemma RepeatedAppend(e: Entry, attemptId: string, lease: string, call: Call, k: nat, kind: string, text: string)
    requires Sound(e) && call.AppendEvent? && EventIdentity(attemptId, lease, call.ids).Producer?
    requires k < |e.log| && e.log[k].id == EventIdentity(attemptId, lease, call.ids) && e.log[k].body == EvFromNode(kind, text)
    requires Entitled(e, attemptId, lease) && Unexpired(e, call.t1) && e.run.attempt.status == AttemptRunning
    ensures var (e', answer) := Apply(e, attemptId, lease, call);
      e' == e && (answer == Done <==> call.kind == kind && call.payload == Json(text))
  {
    hide Apply, EventIdentity, Sound, Entitled, Unexpired, LogShape;
    LogShapeOf(e);
    LogAt(e.run.id, e.log);
    AppendAnswer(e, attemptId, lease, call.t1, call.kind, call.payload, call.ids);
  }

  lemma AcceptedEvent(s: State, op: Op, s': State, id: EventId)
    requires Inv(s) && Next(s, op, s') && op.OpCall? && op.answer == Done && op.call.AppendEvent?
    requires id == EventIdentity(op.attemptId, op.lease, op.call.ids)
    ensures op.runId in s'.entries && op.call.payload.Json?
    ensures exists k :: 0 <= k < |s'.entries[op.runId].log| && s'.entries[op.runId].log[k].id == id
              && s'.entries[op.runId].log[k].body == EvFromNode(op.call.kind, op.call.payload.text)
  {
    hide Inv, Sound, Apply, EventIdentity;
    SoundAt(s, op.runId);
    var e := s.entries[op.runId];
    AppendAnswer(e, op.attemptId, op.lease, op.call.t1, op.call.kind, op.call.payload, op.call.ids);
    var e' := s'.entries[op.runId];
    if e' != e { assert e'.log[|e.log|].id == id; }
  }
}

/** Which runs are handed out, refused, retried and given up, told by the fields of the runs. */
module Dispatch {
  import opened Types
  import opened Identity
  import opened RunProtocol
  import opened RunInvariants
  import opened Protocol
  import opened Behaviours
  import opened Reconciliation

  predicate Over(at: Option<Time>, t: Time) { at.Some? && at.value <= t }

  /** The run can be handed to the node at `t`: queued, not too early, before its deadline, needing nothing the node
      lacks; or leased to a node that never started it and whose lease is over. */
  predicate Waits(e: Entry, node: Registration, t: Time) {
    && e.run.status == RunQueued && e.run.cancelRequestedAt.None? && !Over(e.run.deadlineAt, t)
    && (e.run.attempt.availableAt.None? || e.run.attempt.availableAt.value <= t)
    && (e.run.attempt.status == AttemptQueued || (e.run.attempt.status == AttemptLeased && Over(e.run.attempt.leaseExpiresAt, t)))
    && e.request.needs <= node.offers
  }

  lemma SweptWaits(e: Entry, node: Registration, t: Time)
    requires Sound(e)
    ensures Claimable(Sweep(e, t), node, t) <==> Waits(e, node, t)
  {
    hide Terminals, Started, LogShape, LogSound, HistorySound;
  }

  lemma SweptStays(e: Entry, t: Time)
    requires Sound(e)
    ensures Sweep(e, t).run.attempt.id == e.run.attempt.id && Sweep(e, t).request == e.request
  {
    hide Sweep, Sound;
    SweepKeeps(e, t);
    SweepSameHolder(e, t);
  }

  /** The runs whose attempt occupies a node. */
  function Load(entries: map<string, Entry>, nodeId: string): set<string> {
    set r | r in entries && entries[r].run.attempt.nodeId == nodeId
            && (entries[r].run.attempt.status == AttemptLeased || entries[r].run.attempt.status == AttemptRunning)
  }

  lemma LoadIsLive(entries: map<string, Entry>, nodeId: string)
    ensures Load(entries, nodeId) == LiveOn(entries, nodeId)
  {
  }

  /** A claim answers that there is no work exactly when the node is full or no run waits for it; what it hands out
      waited for the node. */
  lemma ClaimAnswer(s: State, op: Op, s': State)
    requires Inv(s) && Next(s, op, s') && op.OpClaim?
    ensures op.reply == Rejected(ErrNotFound) <==> op.nodeId !in s.nodes
    ensures op.nodeId in s.nodes ==>
              var node := s.nodes[op.nodeId];
              && (op.reply == Rejected(ErrNoAssignment) <==>
                    |Load(s.entries, op.nodeId)| >= node.capacity || forall r :: r in s.entries ==> !Waits(s.entries[r], node, op.t))
              && (op.reply.Rejected? ==> op.reply.error == ErrNoAssignment)
              && (op.reply.Accepted? ==>
                    var a := op.reply.value;
                    && a.runId in s.entries && Waits(s.entries[a.runId], node, op.t)
                    && a.attemptId == s.entries[a.runId].run.attempt.id && a.request == s.entries[a.runId].request
                    && a.leaseExpiresAt == op.t + op.ttl)
  {
    hide Inv, Sweep, Grant, Fresh, Claimable, Waits, LiveOn, Load;
    LoadIsLive(s.entries, op.nodeId);
    if op.nodeId in s.nodes {
      var node := s.nodes[op.nodeId];
      forall r | r in s.entries
        ensures Claimable(SweepAll(s.entries, op.t)[r], node, op.t) <==> Waits(s.entries[r], node, op.t)
        ensures SweepAll(s.entries, op.t)[r].run.attempt.id == s.entries[r].run.attempt.id
        ensures SweepAll(s.entries, op.t)[r].request == s.entries[r].request
      {
        SoundAt(s, r);
        SweptWaits(s.entries[r], node, op.t);
        SweptStays(s.entries[r], op.t);
      }
    }
  }

  /** A new run waits from the start for every node that offers what it needs, until its deadline. */
  lemma SubmittedWaits(s: State, op: Op, s': State, node: Registration, t: Time)
    requires Inv(s) && Next(s, op, s') && op.OpSubmit? && op.runId !in s.entries && op.t <= t
    ensures op.runId in s'.entries && s'.entries[op.runId].request == op.request
    ensures var run := s'.entries[op.runId].run;
      && run.id == op.runId && run.createdAt == op.t && run.attempt.number == 1 && run.attempt.id == op.attemptId
      && run.tenant == op.request.tenant && run.project == op.request.project && run.key == op.request.key
    ensures Waits(s'.entries[op.runId], node, t) <==>
              op.request.needs <= node.offers && (op.request.timeout > 0 ==> t < op.t + op.request.timeout)
  {
    hide Terminals, Started, LogShape, SubmitScope, LeasesDistinct, EntryInv;
  }

  // ------------------------------------------------------------------ cancelling

  /** A cancellation finishes a queued attempt at once, is noted for a live one, and leaves everything else alone. */
  lemma CancelEffect(e: Entry, reason: string, requester: string, now: Time)
    requires Sound(e)
    ensures var e' := Cancel(e, reason, requester, now);
      var open := e.run.status == RunQueued || e.run.status == RunRunning;
      && (!open ==> e' == e)
      && (open ==>
            && e'.run.cancelRequestedAt == Some(now) && e'.run.cancelReason == reason
            && (e.run.attempt.status == AttemptQueued ==>
                  e'.run.status == RunCancelled && e'.run.attempt.status == AttemptCancelled && e'.run.cancelledAt == Some(now))
            && (e.run.attempt.status != AttemptQueued ==> e'.run.status == RunCancelling && e'.run.attempt == e.run.attempt))
  {
    hide Terminals, Started, LogShape, HistorySound, Appendable;
  }

  // ------------------------------------------------------------------ reconciling

  /** The run was executing under a lease that is over: it is failed when its attempts are used up, and otherwise
      queued again under the next number, from the end of the backoff on. */
  ghost predicate LostAttempt(e: Entry, e': Entry, now: Time) {
    && e.run.status == RunRunning && Over(e.run.attempt.leaseExpiresAt, now) && e'.run.cancelRequestedAt.None?
    && if e.run.attempt.number >= e.request.maxAttempts then
         && e'.run.status == RunFailed && e'.run.error == "attempt lease expired" && e'.run.completedAt == Some(now)
         && e'.run.attempt == e.run.attempt.(status := AttemptLost, completedAt := Some(now)) && e'.past == e.past
       else
         && e'.run.status == RunQueued && e'.run.error == "" && e'.run.attempt.number == e.run.attempt.number + 1
         && e'.run.attempt.status == AttemptQueued && e'.run.attempt.availableAt == Some(now + e.request.backoff)
         && e'.past == e.past + [e.run.attempt.(status := AttemptLost, completedAt := Some(now))]
  }

  ghost predicate TimedOut(e: Entry, e': Entry, now: Time) {
    && Over(e.run.deadlineAt, now) && (e.run.status == RunQueued || e.run.status == RunRunning)
    && e'.run.cancelRequestedAt == Some(now) && e'.run.cancelReason == "run timeout exceeded"
    && e'.run.attempt.number == e.run.attempt.number && (e'.run.status == RunCancelling || e'.run.status == RunCancelled)
  }

  ghost predicate CancelDone(e: Entry, e': Entry, now: Time) {
    && e.run.status == RunCancelling && e.run.attempt.status != AttemptQueued && Over(e.run.attempt.leaseExpiresAt, now)
    && e'.run.status == RunCancelled && e'.run.attempt.status == AttemptCancelled && e'.run.cancelReason == e.run.cancelReason
    && e'.run.cancelRequestedAt == e.run.cancelRequestedAt && e'.run.attempt.number == e.run.attempt.number
  }

  lemma FinishEffect(e: Entry, now: Time)
    requires Sound(e) && Abandoned(e, now) && e.run.status == RunCancelling
    ensures CancelDone(e, FinalizeCancel(e, now), now)
  {
    hide Terminals, Started, LogShape, LogSound, HistorySound, Appendable;
  }

  lemma RetryEffect(e: Entry, now: Time, id: string)
    requires Sound(e) && Abandoned(e, now) && e.run.status == RunRunning
    ensures e.run.attempt.number < e.request.maxAttempts ==> LostAttempt(e, Requeue(Lose(e, now), now, id), now)
  {
    hide Terminals, Started, LogShape, LogSound, HistorySound, Appendable;
  }

  lemma ExhaustEffect(e: Entry, now: Time)
    requires Sound(e) && Abandoned(e, now) && e.run.status == RunRunning
    ensures e.run.attempt.number >= e.request.maxAttempts ==> LostAttempt(e, Exhaust(Lose(e, now), now), now)
  {
    hide Terminals, Started, LogShape, LogSound, HistorySound, Appendable;
  }

  lemma RecoverEffect(e: Entry, now: Time, id: string)
    requires Sound(e) && Abandoned(e, now)
    ensures var e' := Recover(e, now, id); LostAttempt(e, e', now) || CancelDone(e, e', now)
  {
    hide Sound, FinalizeCancel, Requeue, Exhaust, Lose, LostAttempt, CancelDone;
    if e.run.status == RunCancelling {
      FinishEffect(e, now);
    } else {
      RetryEffect(e, now, id);
      ExhaustEffect(e, now);
    }
  }

  lemma OverdueEffect(e: Entry, now: Time)
    requires Sound(e) && Overdue(e, now)
    ensures TimedOut(e, CancelOverdue(e, now), now)
    ensures CancelOverdue(e, now).run.status == RunCancelled <==> e.run.attempt.status == AttemptQueued
    ensures e.run.attempt.status != AttemptQueued ==> CancelOverdue(e, now).run.attempt == e.run.attempt
  {
    hide Terminals, Started, LogShape, HistorySound, Appendable;
    CancelEffect(e, "run timeout exceeded", "relay", now);
  }

  lemma FieldsOf(e: Entry, now: Time)
    requires Sound(e)
    ensures Overdue(e, now) <==> Over(e.run.deadlineAt, now) && (e.run.status == RunQueued || e.run.status == RunRunning)
    ensures Abandoned(e, now) <==>
            Over(e.run.attempt.leaseExpiresAt, now)
            && (e.run.status == RunRunning || (e.run.status == RunCancelling && e.run.attempt.status != AttemptQueued))
  {
    hide Terminals, Started, LogShape, HistorySound;
  }

  /** A reconciliation leaves a run alone, or finds it past its deadline, lost, or done with being cancelled; and with
      room to spare it leaves alone only what is none of these. */
  lemma ReconciledRun(s: State, op: Op, s': State, r: string)
    requires Inv(s) && op.OpReconcile? && Next(s, op, s') && r in s.entries
    ensures r in s'.entries
    ensures var e, e', now := s.entries[r], s'.entries[r], op.now;
      && (e' == e || TimedOut(e, e', now) || LostAttempt(e, e', now) || CancelDone(e, e', now))
      && (op.count < op.limit ==>
            (e' == e <==>
               && !(Over(e.run.deadlineAt, now) && (e.run.status == RunQueued || e.run.status == RunRunning))
               && !(Over(e.run.attempt.leaseExpiresAt, now)
                    && (e.run.status == RunRunning || (e.run.status == RunCancelling && e.run.attempt.status != AttemptQueued)))))
      && (op.count < op.limit && Over(e.run.deadlineAt, now) && (e.run.status == RunQueued || e.run.status == RunRunning) ==>
            TimedOut(e, e', now))
      && (op.count < op.limit && TimedOut(e, e', now) ==>
            (e'.run.status == RunCancelled <==> e.run.attempt.status == AttemptQueued || Over(e.run.attempt.leaseExpiresAt, now)))
  {
    hide Inv, Sound, Cancel, CancelOverdue, Recover, Fresh, Retries, Abandoned, Overdue, LostAttempt, TimedOut, CancelDone;
    var e, now := s.entries[r], op.now;
    var mid := CancelAll(s.entries, op.overdue, now);
    SoundAt(s, r);
    FieldsOf(e, now);
    if op.count < op.limit {
      WholeSet(op.overdue, OverdueRuns(s.entries, now), op.limit);
      WholeSet(op.abandoned, AbandonedRuns(mid, now), op.limit - |op.overdue|);
    }
    assert r in OverdueRuns(s.entries, now) <==> Overdue(e, now);
    assert r in AbandonedRuns(mid, now) <==> Abandoned(mid[r], now);
    if r in op.abandoned { assert Abandoned(mid[r], now); }
    RunEffect(e, r in op.overdue, r in op.abandoned, op.count < op.limit, now, if r in op.ids then op.ids[r] else "");
  }

  /** The lease ran out before the attempt started: it is queued again, under no lease. */
  ghost predicate GivenBack(e: Entry, e': Entry, now: Time) {
    && e.run.attempt.status == AttemptLeased && Over(e.run.attempt.leaseExpiresAt, now)
    && e'.run == e.run.(attempt := e.run.attempt.(status := AttemptQueued, nodeId := "", lease := "", leaseExpiresAt := None))
  }

  lemma SweepEffect(e: Entry, now: Time)
    requires Sound(e)
    ensures var e' := Sweep(e, now);
      var due := Over(e.run.deadlineAt, now) && (e.run.status == RunQueued || e.run.status == RunRunning);
      var over := Over(e.run.attempt.leaseExpiresAt, now);
      if due then
        TimedOut(e, e', now) && (e'.run.status == RunCancelled <==> e.run.attempt.status == AttemptQueued || over)
      else if e.run.status == RunCancelling && e.run.attempt.status != AttemptQueued && over then CancelDone(e, e', now)
      else if e.run.attempt.status == AttemptLeased && over then GivenBack(e, e', now)
      else e' == e
  {
    hide Terminals, Started, LogShape, LogSound, HistorySound, Appendable;
  }

  /** A claim with room on the node times runs out, finishes cancellations and takes leases back, each exactly when it is
      due, and leaves every other run alone but the one it hands out. */
  lemma ClaimSweeps(s: State, op: Op, s': State, r: string)
    requires Inv(s) && Next(s, op, s') && op.OpClaim? && r in s.entries
    requires op.nodeId in s.nodes && |Load(s.entries, op.nodeId)| < s.nodes[op.nodeId].capacity
    requires op.reply.Accepted? ==> op.reply.value.runId != r
    ensures r in s'.entries
    ensures var e, e', t := s.entries[r], s'.entries[r], op.t;
      var due := Over(e.run.deadlineAt, t) && (e.run.status == RunQueued || e.run.status == RunRunning);
      var over := Over(e.run.attempt.leaseExpiresAt, t);
      if due then
        TimedOut(e, e', t) && (e'.run.status == RunCancelled <==> e.run.attempt.status == AttemptQueued || over)
      else if e.run.status == RunCancelling && e.run.attempt.status != AttemptQueued && over then CancelDone(e, e', t)
      else if e.run.attempt.status == AttemptLeased && over then GivenBack(e, e', t)
      else e' == e
  {
    hide Inv, Sound, Sweep, Grant, Fresh, Claimable, LiveOn, Load, TimedOut, CancelDone, GivenBack;
    LoadIsLive(s.entries, op.nodeId);
    SoundAt(s, r);
    SweepEffect(s.entries[r], op.t);
  }

  lemma RunEffect(e: Entry, overdue: bool, abandoned: bool, whole: bool, now: Time, id: string)
    requires Sound(e) && (overdue ==> Overdue(e, now))
    requires var mid := if overdue then CancelOverdue(e, now) else e;
      && (abandoned ==> Abandoned(mid, now))
      && (whole ==> (overdue <==> Overdue(e, now)) && (abandoned <==> Abandoned(mid, now)))
    ensures var mid := if overdue then CancelOverdue(e, now) else e;
      var e' := if abandoned then Recover(mid, now, id) else mid;
      && (e' == e || TimedOut(e, e', now) || LostAttempt(e, e', now) || CancelDone(e, e', now))
      && (whole ==> (e' == e <==> !Overdue(e, now) && !Abandoned(e, now)))
      && (whole && Overdue(e, now) ==> TimedOut(e, e', now))
      && (whole && TimedOut(e, e', now) ==>
            (e'.run.status == RunCancelled <==> e.run.attempt.status == AttemptQueued || Over(e.run.attempt.leaseExpiresAt, now)))
  {
    hide Sound, Cancel, CancelOverdue, Recover, Retries, Abandoned, Overdue, LostAttempt, TimedOut, CancelDone;
    var mid := if overdue then CancelOverdue(e, now) else e;
    FieldsOf(e, now);
    if overdue {
      OverdueEffect(e, now);
      OverdueCancelSound(e, now);
      FieldsOf(mid, now);
      TimedOutMeans(e, mid, now);
      TimedOutFields(e, mid, now);
    }
    if abandoned {
      var e' := Recover(mid, now, id);
      if !overdue { FieldsOf(mid, now); }
      RecoverEffect(mid, now, id);
      RecoveredMeans(mid, e', now);
      if overdue { StillTimedOut(e, mid, e', now); }
      OneOfThem(e, e', now);
    } else {
      NotTimedOut(e, now);
    }
  }

  /** The count bounds what changed, and the limit bounds the count. */
  lemma ReconcileCounts(s: State, op: Op, s': State)
    requires Inv(s) && op.OpReconcile? && Next(s, op, s')
    ensures 0 <= op.count <= if op.limit > 0 then op.limit else 0
    ensures |set r | r in s.entries && r in s'.entries && s'.entries[r] != s.entries[r]| <= op.count
  {
    hide Inv, Sound, Cancel, CancelOverdue, Recover, Fresh, Retries, Abandoned, Overdue;
    var changed := set r | r in s.entries && r in s'.entries && s'.entries[r] != s.entries[r];
    assert changed <= op.overdue + op.abandoned;
    SubsetSize(changed, op.overdue + op.abandoned);
  }

  lemma TimedOutMeans(e: Entry, e': Entry, now: Time)
    requires TimedOut(e, e', now) && Sound(e)
    ensures e' != e && (e'.run.status == RunCancelling || e'.run.status == RunCancelled)
  {
    hide LogSound, HistorySound;
  }

  lemma TimedOutFields(e: Entry, e': Entry, now: Time)
    requires TimedOut(e, e', now) && Sound(e) && Sound(e')
    requires e'.run.status == RunCancelled <==> e.run.attempt.status == AttemptQueued
    requires e.run.attempt.status != AttemptQueued ==> e'.run.attempt == e.run.attempt
    ensures e'.run.status == RunCancelled ==> e'.run.attempt.status == AttemptCancelled
    ensures e.run.attempt.status == AttemptQueued ==> e.run.attempt.leaseExpiresAt.None?
  {
    hide LogSound, HistorySound;
  }

  lemma NotTimedOut(e: Entry, now: Time)
    requires Sound(e)
    ensures !TimedOut(e, e, now)
  {
    hide LogSound, HistorySound;
  }

  lemma RecoveredMeans(e: Entry, e': Entry, now: Time)
    requires LostAttempt(e, e', now) || CancelDone(e, e', now)
    ensures e.run.status == RunCancelling ==> CancelDone(e, e', now)
    ensures e.run.status != RunCancelling ==> LostAttempt(e, e', now)
    ensures e' != e && (CancelDone(e, e', now) ==> e'.run.status == RunCancelled)
  {
  }

  lemma StillTimedOut(e: Entry, mid: Entry, e': Entry, now: Time)
    requires TimedOut(e, mid, now) && CancelDone(mid, e', now)
    ensures TimedOut(e, e', now) && (Sound(e) ==> e' != e)
  {
    hide LogSound, HistorySound;
  }

  lemma OneOfThem(e: Entry, e': Entry, now: Time)
    ensures !(TimedOut(e, e', now) && LostAttempt(e, e', now)) && !(TimedOut(e, e', now) && CancelDone(e, e', now))
  {
  }
}

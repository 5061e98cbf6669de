/** Which steps can put a producer's event into a log. */
module Producers {
  import opened Types
  import opened Identity
  import opened RunProtocol
  import opened RunInvariants
  import opened Protocol
  import opened Behaviours

  /** The later log adds only events the server named itself. */
  ghost predicate OwnEvents(e: Entry, e': Entry) {
    e.log <= e'.log && forall i :: |e.log| <= i < |e'.log| ==> e'.log[i].id == Assigned
  }

  lemma OwnTransitive(a: Entry, b: Entry, c: Entry)
    requires OwnEvents(a, b) && OwnEvents(b, c)
    ensures OwnEvents(a, c)
  {
  }

  lemma FinalizeOwn(e: Entry, now: Time)
    ensures OwnEvents(e, FinalizeCancel(e, now))
  {
    hide Terminals, Started, LogShape, Appendable, HasEvent;
  }

  lemma ExpireOwn(e: Entry, now: Time)
    ensures OwnEvents(e, Expire(e, now))
  {
    hide Terminals, Started, LogShape, Appendable, HasEvent;
  }

  lemma CancelOwn(e: Entry, reason: string, requester: string, now: Time)
    ensures OwnEvents(e, Cancel(e, reason, requester, now))
  {
    hide Terminals, Started, LogShape, Appendable, HasEvent;
  }

  lemma SweepOwn(e: Entry, now: Time)
    ensures OwnEvents(e, Sweep(e, now))
  {
    hide OwnEvents, Cancel, Expire, FinalizeCancel;
    var e1 := if DeadlinePassed(e, now) && e.run.cancelRequestedAt.None? then CancelOverdue(e, now) else e;
    CancelOwn(e, "run timeout exceeded", "relay", now);
    SameOwn(e);
    ExpireOwn(e1, now);
    FinalizeOwn(e1, now);
    OwnTransitive(e, e1, Sweep(e, now));
  }

  lemma SameOwn(e: Entry)
    ensures OwnEvents(e, e)
  {
  }

  lemma GrantOwn(e: Entry, nodeId: string, lease: string, expires: Time)
    ensures OwnEvents(e, Grant(e, nodeId, lease, expires))
  {
    hide Terminals, Started, LogShape, Appendable, HasEvent;
  }

  lemma RecoverOwn(e: Entry, now: Time, id: string)
    ensures OwnEvents(e, Recover(e, now, id))
  {
    hide Terminals, Started, LogShape, Appendable, HasEvent, FinalizeCancel;
    FinalizeOwn(e, now);
  }

  lemma AuthorizedOwn(e: Entry, attemptId: string, lease: string, call: Call)
    requires !call.Complete? && !call.Fail? && !call.AppendEvent?
    ensures OwnEvents(e, ApplyAuthorized(e, attemptId, lease, call).0)
  {
    hide Terminals, Started, LogShape, Appendable, HasEvent, FinalizeCancel, Expire, AppendOnce;
    match call {
      case Start(_, t2, t3) => FinalizeOwn(e, t2); ExpireOwn(e, t3);
      case Acknowledge(_, t2) => FinalizeOwn(e, t2);
      case _ =>
    }
  }

  lemma EndOwn(e: Entry, result: RunResult, cause: string, now: Time)
    ensures OwnEvents(e, Succeed(e, result, now)) && OwnEvents(e, Break(e, cause, now))
  {
    hide Terminals, Started, LogShape, Appendable, HasEvent;
  }

  lemma ReportOwn(e: Entry, attemptId: string, lease: string, t1: Time, t2: Time, result: RunResult, cause: string)
    ensures OwnEvents(e, ApplyComplete(e, attemptId, lease, t1, t2, result).0)
    ensures OwnEvents(e, ApplyFail(e, attemptId, lease, t1, t2, cause).0)
  {
    hide OwnEvents, Succeed, Break, FinalizeCancel;
    SameOwn(e);
    FinalizeOwn(e, t2);
    EndOwn(e, result, cause, t2);
  }

  lemma ApplyOwn(e: Entry, attemptId: string, lease: string, call: Call)
    requires !call.AppendEvent?
    ensures OwnEvents(e, Apply(e, attemptId, lease, call).0)
  {
    hide OwnEvents, ApplyAuthorized, ApplyComplete, ApplyFail, Expire;
    SameOwn(e);
    match call {
      case Complete(t1, t2, result) => ReportOwn(e, attemptId, lease, t1, t2, result, "");
      case Fail(t1, t2, cause) => ReportOwn(e, attemptId, lease, t1, t2, RunResult("", ""), cause);
      case _ =>
        ExpireOwn(e, call.t1);
        AuthorizedOwn(e, attemptId, lease, call);
    }
  }

  /** Appending on behalf of a producer adds at most its own event, and does so only under the current lease. */
  lemma AppendOwn(e: Entry, attemptId: string, lease: string, call: Call)
    requires call.AppendEvent?
    ensures var e' := Apply(e, attemptId, lease, call).0;
      OwnEvents(e, e') ||
      (Holds(e, attemptId, lease) && e'.log[..|e'.log| - 1] == e.log && |e'.log| == |e.log| + 1
       && e'.log[|e.log|].id == EventIdentity(attemptId, lease, call.ids)
       && e'.log[|e.log|].body == EvFromNode(call.kind, call.payload.text) && call.payload.Json?
       && Apply(e, attemptId, lease, call).1 == Done)
  {
    hide Terminals, Started, LogShape, Appendable, Expire;
    ExpireOwn(e, call.t1);
  }

  lemma SubmitLeaves(s: State, op: Op, s': State, r: string)
    requires Inv(s) && op.OpSubmit? && Next(s, op, s') && r in s.entries
    ensures r in s'.entries && s'.entries[r] == s.entries[r]
  {
    hide IndexInv, LeasesDistinct, Sound, NewEntry, SubmitScope;
    assert EntryInv(s, r, s.entries[r]);
  }

  lemma NoteOwn(e: Entry, subject: Subject, id: string)
    ensures OwnEvents(e, Append(e, EvRecorded(subject, id)))
  {
    hide Terminals, Started, LogShape, Appendable, HasEvent;
  }
}

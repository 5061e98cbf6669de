/** What the control plane answers to every call of a lease holder, and what it does to the run, told by the run's record. */
module Answers {
  import opened Types
  import opened Identity
  import opened RunProtocol
  import opened RunInvariants
  import opened Protocol
  import opened Behaviours

  /** The call names the current attempt and shows its token. */
  predicate Entitled(e: Entry, attemptId: string, lease: string) {
    lease != "" && e.run.attempt.id == attemptId && e.run.attempt.lease == lease
  }

  predicate Unexpired(e: Entry, t: Time) {
    e.run.attempt.leaseExpiresAt.Some? && t < e.run.attempt.leaseExpiresAt.value
  }

  predicate Held(e: Entry) {
    e.run.attempt.status == AttemptLeased || e.run.attempt.status == AttemptRunning
  }

  /** A start is accepted exactly from the holder of an unstarted, uncancelled attempt before its lease runs out. */
  lemma StartAnswer(e: Entry, attemptId: string, lease: string, t1: Time, t2: Time, t3: Time)
    requires Sound(e) && t1 <= t2 <= t3
    ensures var (e', answer) := Apply(e, attemptId, lease, Start(t1, t2, t3));
      && (answer == Done <==>
            Entitled(e, attemptId, lease) && e.run.attempt.status == AttemptLeased
            && e.run.cancelRequestedAt.None? && Unexpired(e, t2))
      && (answer == Done ==>
            && e'.run.status == RunRunning && e'.run.startedAt == Some(t3)
            && e'.run.attempt == e.run.attempt.(status := AttemptRunning, startedAt := Some(t3)))
      && (answer == Refused(ErrRunCancelled) <==>
            Entitled(e, attemptId, lease) && e.run.attempt.status == AttemptLeased
            && e.run.cancelRequestedAt.Some? && Unexpired(e, t1))
      && (answer == Refused(ErrRunCancelled) ==> e'.run.status == RunCancelled && e'.run.cancelledAt == Some(t2))
      && (answer == Refused(ErrInvalidTransition) <==>
            Entitled(e, attemptId, lease) && e.run.attempt.status != AttemptLeased && Unexpired(e, t1))
      && (answer == Refused(ErrInvalidTransition) ==> e' == e)
  {
    hide Terminals, Started, LogShape, HistorySound, Appendable;
  }

  /** A renewal is granted exactly to the holder of a live attempt before its lease runs out; it tells of a
      cancellation exactly when one was recorded. */
  lemma RenewAnswer(e: Entry, attemptId: string, lease: string, t1: Time, t2: Time, ttl: Time)
    requires Sound(e) && t1 <= t2
    ensures var (e', answer) := Apply(e, attemptId, lease, Renew(t1, t2, ttl));
      && (answer.Renewed? <==> Entitled(e, attemptId, lease) && Held(e) && Unexpired(e, t2))
      && (answer.Renewed? ==>
            && answer.expiresAt == t2 + ttl
            && (answer.cancelRequested <==> e.run.cancelRequestedAt.Some?) && answer.reason == e.run.cancelReason
            && e'.run.status == e.run.status
            && e'.run.attempt == e.run.attempt.(leaseExpiresAt := Some(t2 + ttl)) && e'.log == e.log)
      && (answer == Refused(ErrInvalidTransition) <==> Entitled(e, attemptId, lease) && !Held(e) && Unexpired(e, t1))
  {
    hide Terminals, Started, LogShape, HistorySound, Appendable;
  }

  /** A completion is accepted exactly while the run executes under the caller's lease, and again when it repeats the result. */
  lemma CompleteAnswer(e: Entry, attemptId: string, lease: string, t1: Time, t2: Time, result: RunResult)
    requires Sound(e)
    ensures var (e', answer) := Apply(e, attemptId, lease, Complete(t1, t2, result));
      && (answer == Done <==>
            Entitled(e, attemptId, lease) &&
            ((e.run.status == RunRunning && Unexpired(e, t1)) || (e.run.status == RunSucceeded && e.run.result == Some(result))))
      && (answer == Done && e.run.status == RunRunning ==>
            && e'.run.status == RunSucceeded && e'.run.result == Some(result) && e'.run.completedAt == Some(t2)
            && e'.run.attempt == e.run.attempt.(status := AttemptSucceeded, completedAt := Some(t2)))
      && (answer == Refused(ErrRunCancelled) <==>
            Entitled(e, attemptId, lease) && e.run.status == RunCancelling && e.run.attempt.status == AttemptRunning
            && Unexpired(e, t1))
      && (answer != Done || e.run.status != RunRunning ==> e' == e)
  {
    hide Terminals, Started, LogShape, HistorySound, Appendable;
  }

  /** A failure is accepted exactly from the holder of a live, uncancelled attempt, and again when it repeats the cause;
      a cancelled one is finished instead. */
  lemma FailAnswer(e: Entry, attemptId: string, lease: string, t1: Time, t2: Time, cause: string)
    requires Sound(e)
    ensures var (e', answer) := Apply(e, attemptId, lease, Fail(t1, t2, cause));
      && (answer == Done <==>
            Entitled(e, attemptId, lease) &&
            ((Held(e) && e.run.cancelRequestedAt.None? && Unexpired(e, t1))
             || (e.run.attempt.status == AttemptFailed && e.run.error == cause)))
      && (answer == Done && Held(e) ==>
            && e'.run.status == RunFailed && e'.run.error == cause && e'.run.completedAt == Some(t2)
            && e'.run.attempt == e.run.attempt.(status := AttemptFailed, completedAt := Some(t2)))
      && (answer == Refused(ErrRunCancelled) <==>
            Entitled(e, attemptId, lease) && Held(e) && e.run.cancelRequestedAt.Some? && Unexpired(e, t1))
      && (answer == Refused(ErrRunCancelled) ==> e'.run.status == RunCancelled && e'.run.cancelledAt == Some(t2))
      && ((answer != Done && answer != Refused(ErrRunCancelled)) || !Held(e) ==> e' == e)
  {
    hide Terminals, Started, LogShape, HistorySound, Appendable;
  }

  /** A cancellation is acknowledged exactly by the holder of an unexpired lease on a run with a recorded one. */
  lemma AcknowledgeAnswer(e: Entry, attemptId: string, lease: string, t1: Time, t2: Time)
    requires Sound(e)
    ensures var (e', answer) := Apply(e, attemptId, lease, Acknowledge(t1, t2));
      && (answer == Done <==> Entitled(e, attemptId, lease) && Unexpired(e, t1) && e.run.cancelRequestedAt.Some?)
      && (answer == Done ==> e'.run.status == RunCancelled && e'.run.attempt.status == AttemptCancelled)
      && (answer == Refused(ErrInvalidTransition) <==>
            Entitled(e, attemptId, lease) && Unexpired(e, t1) && e.run.cancelRequestedAt.None?)
  {
    hide Terminals, Started, LogShape, HistorySound, Appendable;
  }

  lemma RecordAnswer(e: Entry, attemptId: string, lease: string, t1: Time, subject: Subject, id: string)
    requires Sound(e)
    ensures var (e', answer) := Apply(e, attemptId, lease, Call.Record(t1, subject, id));
      && (answer == Done <==>
            Entitled(e, attemptId, lease) && Unexpired(e, t1)
            && (subject == CapabilityRecorded || e.run.attempt.status == AttemptRunning))
      && (answer == Done ==> e'.run == e.run && |e'.log| == |e.log| + 1 && e'.log[|e.log|].body == EvRecorded(subject, id))
      && (answer == Refused(ErrInvalidTransition) ==> e' == e)
  {
    hide Terminals, Started, LogShape, HistorySound, Appendable;
  }

  /** An event is accepted exactly while the attempt executes, if its identity is new or was used for the very same event;
      and it is added exactly when its identity is new. */
  lemma AppendAnswer(e: Entry, attemptId: string, lease: string, t1: Time, kind: string, payload: Payload, ids: seq<string>)
    requires Sound(e)
    ensures var (e', answer) := Apply(e, attemptId, lease, AppendEvent(t1, kind, payload, ids));
      var id := EventIdentity(attemptId, lease, ids);
      var used := id.Producer? && exists i :: 0 <= i < |e.log| && e.log[i].id == id;
      var executing := Entitled(e, attemptId, lease) && Unexpired(e, t1) && e.run.attempt.status == AttemptRunning;
      && (answer == Done <==>
            executing && payload.Json? &&
            (used ==> exists i :: 0 <= i < |e.log| && e.log[i].id == id && e.log[i].body == EvFromNode(kind, payload.text)))
      && (answer == Done ==>
            e' == if used then e
                  else e.(log := e.log + [Event(id, e.run.id, attemptId, |e.log| + 1, EvFromNode(kind, payload.text))]))
      && (answer == Refused(ErrEncoding) <==> executing && payload.Unencodable?)
      && (executing && answer != Done ==> e' == e)
  {
    hide Terminals, Started, HistorySound, Appendable, LogShape, RunSound;
    var id := EventIdentity(attemptId, lease, ids);
    LogShapeOf(e);
    LogAt(e.run.id, e.log);
    if id.Producer? && HasEvent(e.log, id) {
      var found := FindEvent(e.log, id);
      var k :| 0 <= k < |e.log| && e.log[k] == found;
      assert forall i :: 0 <= i < |e.log| && e.log[i].id == id ==> i == k;
    }
  }

  lemma LogShapeOf(e: Entry)
    requires Sound(e)
    ensures LogShape(e.run.id, e.log)
  {
    hide RunSound, HistorySound, LogShape, Terminals;
  }

  /** Every other call without entitlement, or too late, is refused as holding no lease; at most the lease is taken back. */
  lemma NoLeaseAnswer(e: Entry, attemptId: string, lease: string, call: Call)
    requires Sound(e) && (!Entitled(e, attemptId, lease) || !Unexpired(e, call.t1))
    requires call.Complete? || call.Fail? ==> !Terminal(e.run.status)
    ensures var (e', answer) := Apply(e, attemptId, lease, call);
      && answer == Refused(ErrInvalidLease)
      && (!Entitled(e, attemptId, lease) || call.Complete? || call.Fail? || e.run.attempt.status != AttemptLeased ==> e' == e)
      && (Entitled(e, attemptId, lease) && !call.Complete? && !call.Fail? && e.run.attempt.status == AttemptLeased ==>
            e'.run == e.run.(attempt := e.run.attempt.(status := AttemptQueued, nodeId := "", lease := "", leaseExpiresAt := None)))
  {
    hide Terminals, Started, LogShape, HistorySound, Appendable, ApplyAuthorized;
  }
}

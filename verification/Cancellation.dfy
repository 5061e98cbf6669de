/** What an answer that mentions a cancellation proves about the run. */
module Cancellation {
  import opened Types
  import opened RunProtocol
  import opened RunInvariants
  import opened Protocol
  import opened Behaviours
  import opened EmitOrder
  import opened World

  ghost predicate CancelRecorded(tr: Trace, r: string) {
    |tr.states| > 0 && r in Last(tr).entries && Last(tr).entries[r].run.cancelRequestedAt.Some?
  }

  predicate SpeaksOfCancel(answer: Answer) {
    answer == Refused(ErrRunCancelled) || (answer.Renewed? && answer.cancelRequested)
  }

  lemma CancelledAnswer(e: Entry, attemptId: string, lease: string, call: Call)
    requires Sound(e) && SpeaksOfCancel(Apply(e, attemptId, lease, call).1)
    ensures var (e', answer) := Apply(e, attemptId, lease, call);
      e'.run.cancelRequestedAt.Some? && (answer.Renewed? ==> e'.run.cancelReason == answer.reason)
  {
    hide Terminals, Started, LogShape, LogSound, HistorySound, Expire;
    ExpireCancel(e, call.t1);
  }

  lemma ExpireCancel(e: Entry, now: Time)
    ensures Expire(e, now).run.cancelRequestedAt == e.run.cancelRequestedAt && Expire(e, now).run.status == e.run.status
  {
    hide Terminals, Started, LogShape;
  }

  lemma CancelStep(s: State, op: Op, s': State)
    requires Inv(s) && Next(s, op, s') && op.OpCall? && SpeaksOfCancel(op.answer)
    ensures op.runId in s'.entries && s'.entries[op.runId].run.cancelRequestedAt.Some?
    ensures op.answer.Renewed? ==> s'.entries[op.runId].run.cancelReason == op.answer.reason
  {
    hide Inv, Sound, Apply;
    SoundAt(s, op.runId);
    CancelledAnswer(s.entries[op.runId], op.attemptId, op.lease, op.call);
  }

  /** An answer that mentions a cancellation is the truth from then on. */
  lemma CancelIsTrue(tr: Trace, ttl: Time, k: int)
    requires Running(tr, ttl) && 0 <= k < |tr.ops| && tr.ops[k].OpCall? && SpeaksOfCancel(tr.ops[k].answer)
    ensures CancelRecorded(tr, tr.ops[k].runId)
    ensures tr.ops[k].answer.Renewed? ==> Last(tr).entries[tr.ops[k].runId].run.cancelReason == tr.ops[k].answer.reason
  {
    hide Running, IsTrace, Inv, Sound, Next, EntryStep;
    RunningTrace(tr, ttl);
    StepOf(tr, k);
    Reachable(tr, k);
    CancelStep(tr.states[k], tr.ops[k], tr.states[k + 1]);
    RunBetween(tr, k + 1, |tr.states| - 1, tr.ops[k].runId);
  }

  lemma CancelStays(s: Story, s': Story, ttl: Time, lease: string, r: string)
    requires Drifts(s, s', lease) && Running(s'.now.tr, ttl) && CancelRecorded(s.now.tr, r)
    ensures CancelRecorded(s'.now.tr, r)
  {
    hide Running, IsTrace, Sound, EntryStep, Permitted;
    RunningTrace(s'.now.tr, ttl);
    var i, j := |s.now.tr.states| - 1, |s'.now.tr.states| - 1;
    assert s'.now.tr.states[i] == s.now.tr.states[i];
    RunBetween(s'.now.tr, i, j, r);
  }
}

/** Reporting the end of an attempt over a link that loses requests and answers. */
module FinalReport {
  import opened Types
  import opened RunProtocol
  import opened RunInvariants
  import opened Protocol
  import opened Behaviours
  import opened EmitOrder
  import opened World
  import opened Outbox

  datatype Report = Committed | Declined(error: Error) | Unresolved

  predicate IsReport(packet: Packet) {
    packet.ask.AskComplete? || packet.ask.AskFail?
  }

  /** The run holds exactly what the report said, and its log says so once. */
  ghost predicate Holding(tr: Trace, packet: Packet) {
    && |tr.states| > 0 && packet.runId in Last(tr).entries
    && var e := Last(tr).entries[packet.runId];
       match packet.ask
       case AskComplete(result) =>
         e.run.status == RunSucceeded && e.run.result == Some(result) && Terminals(e.log) == [EvRunSucceeded(result)]
       case AskFail(cause) =>
         e.run.status == RunFailed && e.run.error == cause && Terminals(e.log) == [EvRunFailed(cause)]
       case _ => false
  }

  /** One accepted report decides what the run holds ever after. */
  lemma AcceptedReport(tr: Trace, ttl: Time, at: int, packet: Packet)
    requires Running(tr, ttl) && 0 <= at < |tr.ops| && Answers(tr.ops[at], packet, Done) && IsReport(packet)
    ensures Holding(tr, packet)
  {
    RunningTrace(tr, ttl);
    hide Running, IsTrace;
    var last := |tr.states| - 1;
    match packet.ask {
      case AskComplete(result) => AcceptedReportHolds(tr, at, last, packet.runId, result, "");
      case AskFail(cause) => AcceptedReportHolds(tr, at, last, packet.runId, RunResult("", ""), cause);
    }
    OneTerminalEvent(tr, last, packet.runId);
  }

  function ReportOf(reply: NetReply): Report {
    if reply == Answered(Done) then Committed
    else if Final(reply) then Declined(reply.answer.error)
    else Unresolved
  }

  lemma SameVerdict(reply: NetReply)
    ensures ReportOf(reply) == match DeliveryOf(reply) case Delivered => Committed case Stale(error) => Declined(error) case Undelivered => Unresolved
  {
  }

  /** Repeats a report until it is accepted, refused for good, or ten seconds have passed. */
  method RetryFinalReport(w: World, packet: Packet, stop: Time) returns (report: Report, ghost at: int)
    requires w.Valid() && IsReport(packet)
    modifies w
    ensures w.Valid() && Drifts(old(w.Told()), w.Told(), packet.lease) && w.asked == old(w.asked) + {packet}
    ensures old(w.talks) <= w.talks
    ensures Insisted(News(old(w.talks), w.talks), packet, old(w.Clock()), Min(old(w.Clock()) + 10 * SECOND, stop), w.Clock())
    ensures report == ReportOf(w.talks[|w.talks| - 1].reply)
    ensures report.Committed? ==> |old(w.tr).ops| <= at < |w.tr.ops| && Answers(w.tr.ops[at], packet, Done)
    ensures report.Committed? ==> Holding(w.tr, packet)
    ensures report.Declined? ==> StaleError(report.error)
    ensures report.Declined? ==> |old(w.tr).ops| <= at < |w.tr.ops| && Answers(w.tr.ops[at], packet, Refused(report.error))
    ensures report.Unresolved? ==> Min(old(w.Clock()) + 10 * SECOND, stop) <= w.Clock()
    ensures old(w.Clock()) <= w.Clock() <= Max(old(w.Clock()), Min(old(w.Clock()) + 10 * SECOND, stop))
  {
    hide Running, Safe, Drifts, Moves, AllSafe, Answers, Holding, Pursues, Tried, Insisted, Final, DeliveryOf, ReportOf, News;
    SelfDrift(w.Told(), packet.lease);
    report, at := Unresolved, 0;
    var deadline := Min(w.Clock() + 10 * SECOND, stop);
    var delay := 100 * MILLISECOND;
    NothingSaid(w.talks, packet, w.Clock());
    while true
      invariant w.Valid() && Drifts(old(w.Told()), w.Told(), packet.lease)
      invariant w.asked == old(w.asked) || w.asked == old(w.asked) + {packet}
      invariant old(w.Clock()) <= w.Clock() <= Max(old(w.Clock()), deadline) && delay > 0
      invariant Pursues(old(w.talks), w.talks, packet, old(w.Clock()), w.Clock(), delay)
      decreases deadline - w.Clock()
    {
      ghost var before := w.Told();
      ghost var said, sent := w.talks, w.Clock();
      ExtendsOps(old(w.Told()), before, packet.lease);
      var reply, k := w.Exchange(packet.lease, packet, deadline);
      DriftsTransitive(old(w.Told()), before, w.Told(), packet.lease);
      OneMore(old(w.talks), said, Talk(packet, sent, reply, w.Clock()), old(w.Clock()), delay, deadline);
      SameVerdict(reply);
      if reply.Answered? {
        if reply.answer == Done {
          AcceptedReport(w.tr, w.ttl, k, packet);
          return Committed, k;
        }
        if reply.answer.Refused? && StaleError(reply.answer.error) { return Declined(reply.answer.error), k; }
      }
      before, said, sent := w.Told(), w.talks, w.Clock();
      var due := w.Clock() + delay;
      w.WaitUntil(packet.lease, Min(due, deadline));
      DriftsTransitive(old(w.Told()), before, w.Told(), packet.lease);
      GoesOn(old(w.talks), w.talks, packet, old(w.Clock()), sent, delay, deadline, w.Clock());
      if deadline < due { return; }
      if deadline == due {
        if * { return; }
      }
      if delay < SECOND { delay := delay * 2; }
    }
  }
}

/** The durable event spool: publish, deliver, remove, and recovery after a restart. */
module Outbox {
  import opened Types
  import opened RunProtocol
  import opened Protocol
  import opened Behaviours
  import opened EmitOrder
  import opened World

  const EVENT_LIMIT := 1048576

  datatype Delivery = Delivered | Stale(error: Error) | Undelivered

  /** A disk operation fails without effect, or takes effect and then fails to be confirmed. */
  datatype Fault = NoFault | FailsBefore | FailsAfter

  /** Why recovery stopped. */
  datatype Recovery = Clean | Unlisted | Interrupted | Unreadable | Unreported | Unremoved

  /** The answers that no retry can change. */
  predicate StaleError(error: Error) {
    error == ErrInvalidLease || error == ErrInvalidTransition || error == ErrRunCancelled || error == ErrNotFound
  }

  /** The answers that end a retry loop: acceptance, and the refusals that a repeat cannot change. */
  predicate Final(reply: NetReply) {
    || reply == Answered(Done)
    || reply == Answered(Refused(ErrInvalidLease)) || reply == Answered(Refused(ErrInvalidTransition))
    || reply == Answered(Refused(ErrRunCancelled)) || reply == Answered(Refused(ErrNotFound))
  }

  /** The pause before the next try: a tenth of a second, doubled until it is more than a second. */
  function Pause(tries: nat): (pause: Time)
    ensures 100 * MILLISECOND <= pause
  {
    if tries == 0 then 100 * MILLISECOND
    else if Pause(tries - 1) < SECOND then 2 * Pause(tries - 1)
    else Pause(tries - 1)
  }

  /** What was said between two moments. */
  ghost function News(before: seq<Talk>, after: seq<Talk>): seq<Talk>
    requires before <= after
  {
    after[|before|..]
  }

  ghost predicate Heard(news: seq<Talk>, packet: Packet, answer: Answer) {
    exists i :: 0 <= i < |news| && news[i].packet == packet && news[i].reply == Answered(answer)
  }

  /** Request `i` came after a pause, the one before it without a final answer. */
  predicate Resumed(news: seq<Talk>, i: int)
    requires 0 < i < |news|
  {
    news[i].from == news[i - 1].to + Pause(i - 1) && !Final(news[i - 1].reply)
  }

  /** The same request, first at once and then after each pause, until an answer ends it. */
  ghost predicate Insists(news: seq<Talk>, packet: Packet, start: Time) {
    && (forall i :: 0 <= i < |news| ==> news[i].packet == packet)
    && (news != [] ==> news[0].from == start)
    && (forall i :: 0 < i < |news| ==> Resumed(news, i))
  }

  /** The request was repeated until an answer ended it or the next pause would reach the limit. */
  ghost predicate Insisted(news: seq<Talk>, packet: Packet, start: Time, limit: Time, end: Time) {
    && news != [] && Insists(news, packet, start)
    && var last := news[|news| - 1];
       if Final(last.reply) then end == last.to
       else limit <= last.to + Pause(|news| - 1) && end == Max(last.to, limit)
  }

  function DeliveryOf(reply: NetReply): Delivery {
    if reply == Answered(Done) then Delivered
    else if Final(reply) then Stale(reply.answer.error)
    else Undelivered
  }

  /** Sends one event until it is acknowledged, refused for good, or five seconds have passed. */
  method DeliverEvent(w: World, event: PendingEvent, stop: Time) returns (result: Delivery)
    requires w.Valid() && event.id != "" && OnDisk(w.files, event)
    modifies w
    ensures w.Valid() && Drifts(old(w.Told()), w.Told(), event.lease)
    ensures w.asked == if |event.text| > EVENT_LIMIT then old(w.asked) else old(w.asked) + {AppendOf(event)}
    ensures old(w.talks) <= w.talks
    ensures if |event.text| > EVENT_LIMIT then w.talks == old(w.talks) && result == Undelivered
            else Insisted(News(old(w.talks), w.talks), AppendOf(event), old(w.Clock()), Min(old(w.Clock()) + 5 * SECOND, stop), w.Clock())
                 && result == DeliveryOf(w.talks[|w.talks| - 1].reply)
    ensures result.Delivered? ==> Landed(w.tr, event)
    ensures result.Stale? ==> TurnedAway(w.tr, event) && StaleError(result.error)
    ensures result.Undelivered? && |event.text| <= EVENT_LIMIT ==> Min(old(w.Clock()) + 5 * SECOND, stop) <= w.Clock()
    ensures old(w.Clock()) <= w.Clock() <= Max(old(w.Clock()), Min(old(w.Clock()) + 5 * SECOND, stop))
  {
    hide Running, Safe, Drifts, Moves, AllSafe, Landed, TurnedAway, Answers, Pursues, Tried, Insisted, Final, DeliveryOf, News;
    SelfDrift(w.Told(), event.lease);
    if |event.text| > EVENT_LIMIT { return Undelivered; }
    var deadline := Min(w.Clock() + 5 * SECOND, stop);
    var delay := 100 * MILLISECOND;
    NothingSaid(w.talks, AppendOf(event), w.Clock());
    while true
      invariant w.Valid() && Drifts(old(w.Told()), w.Told(), event.lease)
      invariant w.asked == old(w.asked) || w.asked == old(w.asked) + {AppendOf(event)}
      invariant w.files == old(w.files)
      invariant old(w.Clock()) <= w.Clock() <= Max(old(w.Clock()), deadline) && delay > 0
      invariant Pursues(old(w.talks), w.talks, AppendOf(event), old(w.Clock()), w.Clock(), delay)
      decreases deadline - w.Clock()
    {
      ghost var before := w.Told();
      ghost var said, sent := w.talks, w.Clock();
      var reply, at := w.Exchange(event.lease, AppendOf(event), deadline);
      DriftsTransitive(old(w.Told()), before, w.Told(), event.lease);
      SameFiles(before, w.Told(), event.lease);
      OneMore(old(w.talks), said, Talk(AppendOf(event), sent, reply, w.Clock()), old(w.Clock()), delay, deadline);
      if reply.Answered? {
        AnsweredAppend(w.tr, w.ttl, at, event, reply.answer);
        if reply.answer == Done { return Delivered; }
        if reply.answer.Refused? && StaleError(reply.answer.error) { return Stale(reply.answer.error); }
      }
      before, said, sent := w.Told(), w.talks, w.Clock();
      var due := w.Clock() + delay;
      w.WaitUntil(event.lease, Min(due, deadline));
      DriftsTransitive(old(w.Told()), before, w.Told(), event.lease);
      SameFiles(before, w.Told(), event.lease);
      GoesOn(old(w.talks), w.talks, AppendOf(event), old(w.Clock()), sent, delay, deadline, w.Clock());
      if deadline < due { return Undelivered; }
      if deadline == due {
        if * { return Undelivered; }
      }
      if delay < SECOND { delay := delay * 2; }
    }
  }

  /** The next request is due now, and `delay` is the pause after it. */
  ghost predicate Pursues(before: seq<Talk>, after: seq<Talk>, packet: Packet, start: Time, now: Time, delay: Time) {
    && before <= after
    && var news := News(before, after);
    && Insists(news, packet, start) && delay == Pause(|news|)
    && (if news == [] then now == start
        else now == news[|news| - 1].to + Pause(|news| - 1) && !Final(news[|news| - 1].reply))
  }

  /** The request was made once more, and `delay` is the pause after it. */
  ghost predicate Tried(before: seq<Talk>, after: seq<Talk>, packet: Packet, start: Time, delay: Time) {
    && before <= after && |before| < |after|
    && Insists(News(before, after), packet, start) && delay == Pause(|after| - |before| - 1)
  }

  lemma NothingSaid(talks: seq<Talk>, packet: Packet, now: Time)
    ensures Pursues(talks, talks, packet, now, now, 100 * MILLISECOND)
  {
  }

  lemma OneMore(before: seq<Talk>, said: seq<Talk>, talk: Talk, start: Time, delay: Time, limit: Time)
    requires Pursues(before, said, talk.packet, start, talk.from, delay)
    ensures var after := said + [talk];
      && before <= after && Tried(before, after, talk.packet, start, delay)
      && (talk.reply == Answered(Done) ==>
            Insisted(News(before, after), talk.packet, start, limit, talk.to) && DeliveryOf(talk.reply) == Delivered)
      && (talk.reply.Answered? && talk.reply.answer.Refused? && StaleError(talk.reply.answer.error) ==>
            Insisted(News(before, after), talk.packet, start, limit, talk.to)
            && DeliveryOf(talk.reply) == Stale(talk.reply.answer.error))
  {
    hide Pause;
    var news := News(before, said);
    assert News(before, said + [talk]) == news + [talk] && |news| == |said| - |before|;
    AnotherTry(news, talk, start);
  }

  lemma AnotherTry(news: seq<Talk>, talk: Talk, start: Time)
    requires Insists(news, talk.packet, start)
    requires if news == [] then talk.from == start
             else talk.from == news[|news| - 1].to + Pause(|news| - 1) && !Final(news[|news| - 1].reply)
    ensures Insists(news + [talk], talk.packet, start)
  {
    hide Pause, Final;
    var news' := news + [talk];
    forall i | 0 < i < |news'|
      ensures Resumed(news', i)
    {
      if i < |news| { assert Resumed(news, i); }
    }
  }

  lemma GoesOn(before: seq<Talk>, after: seq<Talk>, packet: Packet, start: Time, sent: Time, delay: Time, limit: Time, now: Time)
    requires Tried(before, after, packet, start, delay)
    requires after[|after| - 1].to == sent && after[|after| - 1].reply != Answered(Done)
    requires var reply := after[|after| - 1].reply; !(reply.Answered? && reply.answer.Refused? && StaleError(reply.answer.error))
    requires now == Max(sent, Min(sent + delay, limit)) && delay > 0
    ensures before <= after && DeliveryOf(after[|after| - 1].reply) == Undelivered
    ensures limit <= sent + delay ==> Insisted(News(before, after), packet, start, limit, now)
    ensures sent + delay <= limit ==> Pursues(before, after, packet, start, now, if delay < SECOND then delay * 2 else delay)
  {
    hide Insists;
    assert News(before, after)[|after| - |before| - 1] == after[|after| - 1];
  }

  lemma SelfDrift(s: Story, lease: string)
    ensures Drifts(s, s, lease)
  {
  }

  lemma SameFiles(s: Story, s': Story, lease: string)
    requires Drifts(s, s', lease)
    ensures s'.now.files == s.now.files && s'.now.dropped == s.now.dropped
  {
  }

  predicate Storable(files: map<string, File>, event: PendingEvent) {
    |event.text| <= EVENT_LIMIT && Digest(event) !in files
  }

  /** Publishes an event; a call that fails may leave it published, but not half of it. */
  method Save(w: World, event: PendingEvent, disk: Fault) returns (ok: bool)
    requires w.Valid()
    modifies w
    ensures w.Valid() && Moves(old(w.Told()), w.Told(), event.lease, {w.files})
    ensures w.tr == old(w.tr) && w.asked == old(w.asked) && w.dropped == old(w.dropped) && w.talks == old(w.talks)
    ensures ok <==> Storable(old(w.files), event) && disk == NoFault
    ensures w.files == if Storable(old(w.files), event) && disk != FailsBefore
                       then old(w.files)[Digest(event) := Stored(event)] else old(w.files)
  {
    hide Running, Safe, AllSafe, Landed, TurnedAway;
    ok := false;
    if |event.text| > EVENT_LIMIT { return; }
    if Digest(event) in w.files { return; }
    if disk == FailsBefore { return; }
    w.Publish(event.lease, event);
    ok := disk == NoFault;
  }

  /** A call that fails may leave the file removed; a file that is not there is an error. */
  method Remove(w: World, event: PendingEvent, disk: Fault) returns (ok: bool)
    requires w.Valid()
    requires Digest(event) in w.files ==> OnDisk(w.files, event) && (Landed(w.tr, event) || TurnedAway(w.tr, event))
    modifies w
    ensures w.Valid() && Moves(old(w.Told()), w.Told(), event.lease, {w.files})
    ensures w.tr == old(w.tr) && w.asked == old(w.asked) && w.talks == old(w.talks)
    ensures w.dropped == old(w.dropped) || (w.dropped == old(w.dropped) + {event} && TurnedAway(w.tr, event))
    ensures ok <==> Digest(event) in old(w.files) && disk == NoFault
    ensures w.files == if disk != FailsBefore then old(w.files) - {Digest(event)} else old(w.files)
    ensures Digest(event) in old(w.files) && disk != FailsBefore ==> Landed(w.tr, event) || event in w.dropped
  {
    hide Running, Safe, AllSafe, Landed, TurnedAway;
    if Digest(event) !in w.files { return false; }
    if disk == FailsBefore { return false; }
    w.Unlink(event.lease, event);
    ok := disk == NoFault;
  }

  /** What the spool may hold while an event is on its way. */
  ghost function Spools(files: map<string, File>, event: PendingEvent): set<map<string, File>> {
    {files, files[Digest(event) := Stored(event)]}
  }

  /** Write ahead, send, and remove only what the control plane acknowledged. */
  method Deliver(w: World, event: PendingEvent, stop: Time, saving: Fault, removing: Fault) returns (ok: bool)
    requires w.Valid() && event.id != ""
    modifies w
    ensures w.Valid() && Moves(old(w.Told()), w.Told(), event.lease, Spools(old(w.files), event))
    ensures old(w.asked) <= w.asked <= old(w.asked) + {AppendOf(event)}
    ensures w.files in Spools(old(w.files), event)
    ensures old(w.talks) <= w.talks
    ensures if Storable(old(w.files), event) && saving == NoFault
            then Insisted(News(old(w.talks), w.talks), AppendOf(event), old(w.Clock()), Min(old(w.Clock()) + 5 * SECOND, stop), w.Clock())
            else w.talks == old(w.talks)
    ensures ok <==> Storable(old(w.files), event) && saving == removing == NoFault && w.talks[|w.talks| - 1].reply == Answered(Done)
    ensures ok ==> Landed(w.tr, event) && w.files == old(w.files) && saving == removing == NoFault
    ensures !Storable(old(w.files), event) ==> w.Now() == old(w.Now())
    ensures !ok && |event.text| <= EVENT_LIMIT && saving == removing == NoFault ==> Digest(event) in w.files
    ensures !ok && Storable(old(w.files), event) && saving == removing == NoFault ==>
              OnDisk(w.files, event) && (TurnedAway(w.tr, event) || Min(old(w.Clock()) + 5 * SECOND, stop) <= w.Clock())
  {
    hide Running, Safe, Drifts, Moves, AllSafe, Landed, TurnedAway, Insists;
    ok := Save(w, event, saving);
    ghost var saved := w.Told();
    MovesWiden(old(w.Told()), w.Told(), event.lease, {w.files}, Spools(old(w.files), event));
    if !ok { return; }
    var result := DeliverEvent(w, event, stop);
    DriftMoves(saved, w.Told(), event.lease);
    MovesTransitive(old(w.Told()), saved, w.Told(), event.lease, {w.files}, {w.files});
    MovesWiden(old(w.Told()), w.Told(), event.lease, {w.files} + {w.files}, Spools(old(w.files), event));
    if result != Delivered { return false; }
    ghost var sent := w.Told();
    ok := Remove(w, event, removing);
    assert old(w.files)[Digest(event) := Stored(event)] - {Digest(event)} == old(w.files);
    MovesTransitive(old(w.Told()), sent, w.Told(), event.lease, Spools(old(w.files), event), {w.files});
    MovesWiden(old(w.Told()), w.Told(), event.lease, Spools(old(w.files), event) + {w.files}, Spools(old(w.files), event));
  }

  lemma MovesWiden(s: Story, s': Story, lease: string, spools: set<map<string, File>>, wider: set<map<string, File>>)
    requires Moves(s, s', lease, spools) && spools <= wider
    ensures Moves(s, s', lease, wider)
  {
    hide Permitted;
  }

  lemma DriftMoves(s: Story, s': Story, lease: string)
    requires Drifts(s, s', lease)
    ensures Moves(s, s', lease, {s.now.files}) && s'.now.files == s.now.files && s'.now.dropped == s.now.dropped
  {
  }

  // ------------------------------------------------------------------ recovery

  const RESTARTED := "Node restarted: pending events recovered, runtime execution was interrupted"

  function Report(event: PendingEvent, ask: Ask): Packet {
    Packet(event.runId, event.attemptId, event.lease, ask)
  }

  /** The control plane was told that the attempt ended, and answered. */
  ghost predicate ToldFailed(tr: Trace, event: PendingEvent) {
    exists k :: 0 <= k < |tr.ops| && tr.ops[k].OpCall? && PacketOf(tr.ops[k]) == Report(event, AskFail(RESTARTED))
                && Final(Answered(tr.ops[k].answer))
  }

  /** Whatever the answer, after a failure report nothing runs under the lease any more. */
  lemma FailureEnds(e: Entry, attemptId: string, lease: string, t1: Time, t2: Time, cause: string)
    ensures var e' := ApplyFail(e, attemptId, lease, t1, t2, cause).0;
      Holds(e', attemptId, lease) && Live(e') ==> LeaseOver(e'.run.attempt, t1)
  {
    hide Terminals, Started, LogShape, Appendable, HasEvent;
  }

  /** The request that follows a replay: the end of the attempt, or the acknowledgement of its cancellation. */
  function FollowUp(event: PendingEvent, reply: NetReply): Option<Packet> {
    if reply == Answered(Done) then Some(Report(event, AskFail(RESTARTED)))
    else if reply == Answered(Refused(ErrRunCancelled)) then Some(Report(event, AskAcknowledge))
    else None
  }

  ghost function ReplayPart(news: seq<Talk>, event: PendingEvent): seq<Talk> {
    if news != [] && news[|news| - 1].packet != AppendOf(event) then news[..|news| - 1] else news
  }

  /** What was said for one event: the replay, then the request that its answer calls for. */
  ghost predicate Replayed(news: seq<Talk>, event: PendingEvent, start: Time, limit: Time, now: Time) {
    var part := ReplayPart(news, event);
    && part != []
    && Insisted(part, AppendOf(event), start, limit, if |part| == |news| then now else news[|part|].from)
    && match FollowUp(event, part[|part| - 1].reply)
       case None => part == news
       case Some(packet) => |news| == |part| + 1 && news[|part|].packet == packet
  }

  /** Replays one spooled event and reports its attempt as interrupted. */
  method Replay(w: World, event: PendingEvent, stop: Time) returns (ok: bool)
    requires w.Valid() && event.id != "" && OnDisk(w.files, event)
    modifies w
    ensures w.Valid() && Follows(old(w.Told()), w.Told()) && w.files == old(w.files) && w.dropped == old(w.dropped)
    ensures ok ==> (Landed(w.tr, event) && ToldFailed(w.tr, event)) || TurnedAway(w.tr, event)
    ensures old(w.talks) <= w.talks
    ensures if |event.text| > EVENT_LIMIT then w.talks == old(w.talks)
            else Replayed(News(old(w.talks), w.talks), event, old(w.Clock()), Min(old(w.Clock()) + 5 * SECOND, stop), w.Clock())
    ensures ok <==> |event.text| <= EVENT_LIMIT && Final(w.talks[|w.talks| - 1].reply)
  {
    hide Running, Safe, Drifts, Moves, AllSafe, Landed, TurnedAway, Answers, Follows, Insists, Pause, Insisted, Replayed, ReplayPart, News;
    var result := DeliverEvent(w, event, stop);
    DriftFollows(old(w.Told()), w.Told(), event.lease);
    ghost var start, limit := old(w.Clock()), Min(old(w.Clock()) + 5 * SECOND, stop);
    ghost var said := w.talks;
    if |event.text| <= EVENT_LIMIT { OnlyReplayed(old(w.talks), said, event, start, limit, w.Clock()); }
    if result.Undelivered? { return false; }
    ghost var replayed := w.Told();
    if result.Delivered? {
      var reply, at := w.Exchange(event.lease, Report(event, AskFail(RESTARTED)), stop);
      DriftFollows(replayed, w.Told(), event.lease);
      FollowsTransitive(old(w.Told()), replayed, w.Told());
      FollowsExtends(replayed, w.Told());
      LandedStays(replayed.now.tr, w.tr, w.ttl, event);
      FollowedUp(old(w.talks), said, w.talks[|said|], event, start, limit, w.Clock());
      ok := reply.Answered? && (reply.answer == Done || (reply.answer.Refused? && StaleError(reply.answer.error)));
      if ok { ReportTold(w.tr, event, at, reply.answer); }
    } else if result.error == ErrRunCancelled {
      var reply, at := w.Exchange(event.lease, Report(event, AskAcknowledge), stop);
      DriftFollows(replayed, w.Told(), event.lease);
      FollowsTransitive(old(w.Told()), replayed, w.Told());
      FollowsExtends(replayed, w.Told());
      TurnedAwayStays(replayed.now.tr, w.tr, event);
      FollowedUp(old(w.talks), said, w.talks[|said|], event, start, limit, w.Clock());
      ok := reply.Answered? && (reply.answer == Done || (reply.answer.Refused? && StaleError(reply.answer.error)));
    } else {
      ok := true;
    }
  }

  lemma OnlyReplayed(before: seq<Talk>, said: seq<Talk>, event: PendingEvent, start: Time, limit: Time, now: Time)
    requires before <= said && Insisted(News(before, said), AppendOf(event), start, limit, now)
    ensures |before| < |said| && said[|said| - 1] == News(before, said)[|News(before, said)| - 1]
    ensures var reply := said[|said| - 1].reply;
      reply != Answered(Done) && reply != Answered(Refused(ErrRunCancelled)) ==>
        Replayed(News(before, said), event, start, limit, now)
  {
    hide Pause, Final;
  }

  lemma FollowedUp(before: seq<Talk>, said: seq<Talk>, talk: Talk, event: PendingEvent, start: Time, limit: Time, now: Time)
    requires before <= said && Insisted(News(before, said), AppendOf(event), start, limit, talk.from) && |before| < |said|
    requires FollowUp(event, said[|said| - 1].reply) == Some(talk.packet)
    ensures Replayed(News(before, said + [talk]), event, start, limit, now)
  {
    hide Insisted, Pause;
    var part := News(before, said);
    assert News(before, said + [talk]) == part + [talk];
    assert ReplayPart(part + [talk], event) == part;
  }

  lemma ReportTold(tr: Trace, event: PendingEvent, at: int, answer: Answer)
    requires 0 <= at < |tr.ops| && Answers(tr.ops[at], Report(event, AskFail(RESTARTED)), answer) && Final(Answered(answer))
    ensures ToldFailed(tr, event)
  {
  }

  lemma DriftFollows(s: Story, s': Story, lease: string)
    requires Drifts(s, s', lease)
    ensures Follows(s, s') && s'.now.files == s.now.files && s'.now.dropped == s.now.dropped
  {
    MovesFollows(s, s', lease, {s.now.files});
  }

  lemma FollowsExtends(s: Story, s': Story)
    requires Follows(s, s')
    ensures Extends(s.now.tr, s'.now.tr) && s.now.dropped <= s'.now.dropped
  {
  }

  /** The event is in its log, or the control plane turned it away. */
  ghost predicate Settled(d: Durable, event: PendingEvent) {
    Landed(d.tr, event) || event in d.dropped
  }

  lemma SettledStays(s: Story, s': Story, ttl: Time, event: PendingEvent)
    requires Follows(s, s') && Settled(s.now, event) && Running(s'.now.tr, ttl)
    ensures Settled(s'.now, event)
  {
    hide Running, Landed;
    if Landed(s.now.tr, event) { LandedStays(s.now.tr, s'.now.tr, ttl, event); }
  }

  /** What the disk will do during one recovery. */
  datatype Disk = Disk(unlistable: bool, unreadable: set<string>, removing: map<string, Fault>)

  function RemovalOf(disk: Disk, name: string): Fault {
    if name in disk.removing then disk.removing[name] else NoFault
  }

  /** The file can be read, and its record names a run, an attempt, a lease, an event and a kind. */
  predicate Intact(disk: Disk, name: string, file: File) {
    && name !in disk.unreadable && file.Stored?
    && "" !in {file.event.runId, file.event.attemptId, file.event.lease, file.event.id, file.event.kind}
  }

  /** The names in a directory, each once. */
  method List(files: map<string, File>) returns (names: seq<string>)
    ensures forall n :: n in names <==> n in files
    ensures forall i, j :: 0 <= i < j < |names| ==> names[i] != names[j]
  {
    names := [];
    var left := files.Keys;
    while left != {}
      invariant left <= files.Keys && forall n :: n in names <==> n in files && n !in left
      invariant forall i, j :: 0 <= i < j < |names| ==> names[i] != names[j]
      decreases |left|
    {
      var n :| n in left;
      left := left - {n};
      names := names + [n];
    }
  }

  /** After the first `done` names: those files are gone and settled, the others are as they were. */
  ghost predicate Progress(files: map<string, File>, names: seq<string>, done: nat, d: Durable) {
    && done <= |names|
    && (forall i :: 0 <= i < done ==> names[i] !in d.files)
    && (forall i :: done <= i < |names| ==> names[i] in d.files && names[i] in files && d.files[names[i]] == files[names[i]])
    && (forall n :: n in d.files ==> n in names)
    && (forall i :: 0 <= i < done ==> names[i] in files && files[names[i]].Stored? && Settled(d, files[names[i]].event))
  }

  lemma ProgressStays(files: map<string, File>, names: seq<string>, done: nat, s: Story, s': Story, ttl: Time)
    requires Progress(files, names, done, s.now) && Follows(s, s') && s'.now.files == s.now.files && Running(s'.now.tr, ttl)
    ensures Progress(files, names, done, s'.now)
  {
    hide Settled, Follows, Running;
    forall i | 0 <= i < done
      ensures Settled(s'.now, files[names[i]].event)
    {
      SettledStays(s, s', ttl, files[names[i]].event);
    }
  }

  lemma ProgressNext(files: map<string, File>, names: seq<string>, done: nat, s: Story, s': Story, ttl: Time)
    requires Progress(files, names, done, s.now) && done < |names| && files[names[done]].Stored?
    requires Follows(s, s') && Running(s'.now.tr, ttl) && s'.now.files == s.now.files - {names[done]}
    requires Settled(s'.now, files[names[done]].event)
    requires forall i, j :: 0 <= i < j < |names| ==> names[i] != names[j]
    ensures Progress(files, names, done + 1, s'.now)
  {
    hide Settled, Follows, Running;
    forall i | 0 <= i < done
      ensures Settled(s'.now, files[names[i]].event)
    {
      SettledStays(s, s', ttl, files[names[i]].event);
    }
  }

  lemma SpooledUnderItsName(d: Durable, name: string)
    requires Safe(d) && name in d.files && d.files[name].Stored?
    ensures Digest(d.files[name].event) == name && OnDisk(d.files, d.files[name].event)
  {
    hide Landed, TurnedAway;
  }

  /** Replays one file and removes it, unless the control plane gave no final answer. */
  method ClearOut(w: World, event: PendingEvent, stop: Time, removing: Fault) returns (end: Recovery)
    requires w.Valid() && event.id != "" && OnDisk(w.files, event)
    modifies w
    ensures w.Valid() && Follows(old(w.Told()), w.Told()) && old(w.talks) <= w.talks
    ensures end == Clean || end == Unreported || end == Unremoved
    ensures end == Unreported ==> |event.text| > EVENT_LIMIT || Unsettled(News(old(w.talks), w.talks), event)
    ensures end != Unreported ==> (end == Clean <==> removing == NoFault)
    ensures if end == Unreported || removing == FailsBefore then w.files == old(w.files)
            else w.files == old(w.files) - {Digest(event)} && Settled(w.Now(), event)
  {
    hide Running, Safe, Drifts, Moves, AllSafe, Landed, TurnedAway, Follows, Settled, Insisted, Replayed, Final, Unsettled, News;
    ghost var start, said, sent := w.Told(), w.talks, w.Clock();
    var ok := Replay(w, event, stop);
    if !ok {
      if |event.text| <= EVENT_LIMIT { LastWord(said, w.talks, event, sent, Min(sent + 5 * SECOND, stop), w.Clock()); }
      return Unreported;
    }
    ghost var replayed := w.Told();
    ok := Remove(w, event, removing);
    MovesFollows(replayed, w.Told(), event.lease, {w.files});
    FollowsTransitive(start, replayed, w.Told());
    if removing != FailsBefore { SettledNow(w.Now(), event); }
    end := if ok then Clean else Unremoved;
  }

  /** Goes through the spool left by an earlier process, before any work is claimed. */
  method Recover(w: World, stop: Time, disk: Disk) returns (outcome: Recovery, names: seq<string>, done: nat)
    requires w.Valid()
    modifies w
    ensures w.Valid() && Follows(old(w.Told()), w.Told())
    ensures outcome == Unlisted <==> disk.unlistable
    ensures outcome == Unlisted ==> w.Told() == old(w.Told())
    ensures outcome != Unlisted ==> forall n :: n in names <==> n in old(w.files)
    ensures outcome == Clean ==> Progress(old(w.files), names, |names|, w.Now())
    ensures outcome != Clean && outcome != Unlisted ==> done < |names|
    ensures outcome == Interrupted || outcome == Unreadable || outcome == Unreported ==>
              Progress(old(w.files), names, done, w.Now())
    ensures outcome == Unreadable ==> !Intact(disk, names[done], old(w.files)[names[done]])
    ensures outcome == Clean ==> forall n :: n in old(w.files) ==> Intact(disk, n, old(w.files)[n])
    ensures outcome == Interrupted ==> stop <= w.Clock()
    ensures old(w.talks) <= w.talks
    ensures outcome == Unreported ==>
              var file := old(w.files)[names[done]];
              file.Stored? && (|file.event.text| > EVENT_LIMIT || Unsettled(News(old(w.talks), w.talks), file.event))
    ensures outcome == Unremoved ==>
              RemovalOf(disk, names[done]) != NoFault &&
              Progress(old(w.files), names, if RemovalOf(disk, names[done]) == FailsBefore then done else done + 1, w.Now())
  {
    hide Running, Safe, AllSafe, Landed, TurnedAway, Follows, Settled, Progress, Unsettled, News, OnDisk;
    outcome, names, done := Unlisted, [], 0;
    SameStory(w.Told());
    if disk.unlistable { return; }
    names := List(w.files);
    NoProgress(w.files, names, w.Now());
    while done < |names|
      invariant done <= |names| && w.Valid() && Follows(old(w.Told()), w.Told())
      invariant Progress(old(w.files), names, done, w.Now()) && old(w.talks) <= w.talks
      invariant forall i :: 0 <= i < done ==> names[i] in old(w.files) && Intact(disk, names[i], old(w.files)[names[i]])
    {
      if stop <= w.Clock() { return Interrupted, names, done; }
      var name := names[done];
      ProgressAt(old(w.files), names, done, w.Now());
      if name in disk.unreadable || w.files[name].Damaged? { return Unreadable, names, done; }
      var event := w.files[name].event;
      if event.runId == "" || event.attemptId == "" || event.lease == "" || event.id == "" || event.kind == "" {
        return Unreadable, names, done;
      }
      SpooledUnderItsName(w.Now(), name);
      ghost var before, said := w.Told(), w.talks;
      var end := ClearOut(w, event, stop, RemovalOf(disk, name));
      FollowsTransitive(old(w.Told()), before, w.Told());
      if end == Unreported {
        if |event.text| <= EVENT_LIMIT { LaterNews(old(w.talks), said, w.talks, event); }
        ProgressStays(old(w.files), names, done, before, w.Told(), w.ttl);
        return Unreported, names, done;
      }
      if RemovalOf(disk, name) == FailsBefore {
        ProgressStays(old(w.files), names, done, before, w.Told(), w.ttl);
      } else {
        ProgressNext(old(w.files), names, done, before, w.Told(), w.ttl);
      }
      if end == Unremoved { return Unremoved, names, done; }
      done := done + 1;
    }
    outcome := Clean;
  }

  lemma LastWord(before: seq<Talk>, after: seq<Talk>, event: PendingEvent, sent: Time, limit: Time, now: Time)
    requires before <= after && Replayed(News(before, after), event, sent, limit, now)
    requires !Final(after[|after| - 1].reply)
    ensures Unsettled(News(before, after), event)
  {
    hide Insists, Final, Pause;
  }

  lemma LaterNews(start: seq<Talk>, before: seq<Talk>, after: seq<Talk>, event: PendingEvent)
    requires start <= before <= after && Unsettled(News(before, after), event)
    ensures Unsettled(News(start, after), event)
  {
    hide Final;
  }

  /** The last word on the event was no final answer. */
  ghost predicate Unsettled(news: seq<Talk>, event: PendingEvent) {
    news != [] && var last := news[|news| - 1];
    && !Final(last.reply)
    && (last.packet == AppendOf(event) || last.packet == Report(event, AskFail(RESTARTED))
        || last.packet == Report(event, AskAcknowledge))
  }

  lemma SettledNow(d: Durable, event: PendingEvent)
    requires Landed(d.tr, event) || event in d.dropped
    ensures Settled(d, event)
  {
  }

  lemma SameStory(s: Story)
    ensures Follows(s, s)
  {
  }

  lemma NoProgress(files: map<string, File>, names: seq<string>, d: Durable)
    requires d.files == files && forall n :: n in names <==> n in files
    ensures Progress(files, names, 0, d)
  {
  }

  lemma ProgressAt(files: map<string, File>, names: seq<string>, done: nat, d: Durable)
    requires Progress(files, names, done, d) && done < |names|
    ensures names[done] in d.files && names[done] in files && d.files[names[done]] == files[names[done]]
  {
  }

  // ------------------------------------------------------------------ a crash anywhere

  /** The event is in its log at exactly one place. */
  ghost predicate LandedExactlyOnce(tr: Trace, event: PendingEvent) {
    && Landed(tr, event)
    && forall i, j :: Lands(Last(tr).entries[event.runId].log, event, i) && Lands(Last(tr).entries[event.runId].log, event, j) ==> i == j
  }

  lemma LandsExactlyOnce(tr: Trace, ttl: Time, event: PendingEvent)
    requires Running(tr, ttl) && Landed(tr, event)
    ensures LandedExactlyOnce(tr, event)
  {
    hide IsTrace;
    forall i, j | Lands(Last(tr).entries[event.runId].log, event, i) && Lands(Last(tr).entries[event.runId].log, event, j)
      ensures i == j
    {
      LandedOnce(tr, event, i, j);
    }
  }

  /** Kill the node at any moment of its life and start another one over its disk: no event it ever sent is
      lost or duplicated, and a clean recovery leaves each one in its log or refused by the control plane. */
  method Restart(w: World, at: nat, files: map<string, File>, tr: Trace, stop: Time, disk: Disk)
    returns (node: World, outcome: Recovery)
    requires w.Valid() && at < |w.journal| && files == w.journal[at].files && tr == w.journal[at].tr
    ensures fresh(node) && node.Valid() && Extends(tr, node.tr)
    ensures forall event :: AppendOf(event) in w.journal[at].asked ==>
              OnDisk(node.files, event) || LandedExactlyOnce(node.tr, event) || TurnedAway(node.tr, event)
    ensures outcome == Clean ==> node.files == map[]
    ensures outcome == Clean ==> forall name :: name in files ==>
              files[name].Stored? &&
              (LandedExactlyOnce(node.tr, files[name].event) || TurnedAway(node.tr, files[name].event))
  {
    hide Running, Safe, Follows, Settled, LandedExactlyOnce, OnDisk, TurnedAway, Landed;
    JournalEntry(w.journal, at, w.ttl);
    node := new World(files, tr, w.journal[at], w.ttl);
    ghost var d := node.Now();
    var names, done;
    ghost var start := node.Told();
    outcome, names, done := Recover(node, stop, disk);
    FollowsExtends(start, node.Told());
    FollowsAsked(start, node.Told());
    forall event | AppendOf(event) in d.asked
      ensures OnDisk(node.files, event) || LandedExactlyOnce(node.tr, event) || TurnedAway(node.tr, event)
    {
      SafeEvent(node.Now(), node.ttl, event);
    }
    if outcome == Clean {
      forall name | name in files
        ensures files[name].Stored? &&
                (LandedExactlyOnce(node.tr, files[name].event) || TurnedAway(node.tr, files[name].event))
      {
        var i :| 0 <= i < |names| && names[i] == name;
        assert Settled(node.Now(), files[name].event);
        SettledEvent(node.Now(), node.ttl, files[name].event);
      }
    }
  }

  lemma JournalEntry(journal: seq<Durable>, at: nat, ttl: Time)
    requires AllSafe(journal, ttl) && at < |journal|
    ensures Running(journal[at].tr, ttl) && Safe(journal[at])
  {
    hide Running, Safe;
  }

  lemma FollowsAsked(s: Story, s': Story)
    requires Follows(s, s')
    ensures s.now.asked <= s'.now.asked
  {
  }

  lemma SafeEvent(d: Durable, ttl: Time, event: PendingEvent)
    requires Safe(d) && Running(d.tr, ttl) && AppendOf(event) in d.asked
    ensures OnDisk(d.files, event) || LandedExactlyOnce(d.tr, event) || TurnedAway(d.tr, event)
  {
    hide Running, LandedExactlyOnce, Landed, TurnedAway;
    if Landed(d.tr, event) { LandsExactlyOnce(d.tr, ttl, event); }
  }

  lemma SettledEvent(d: Durable, ttl: Time, event: PendingEvent)
    requires Safe(d) && Running(d.tr, ttl) && Settled(d, event)
    ensures LandedExactlyOnce(d.tr, event) || TurnedAway(d.tr, event)
  {
    hide Running, LandedExactlyOnce, Landed, TurnedAway;
    if Landed(d.tr, event) { LandsExactlyOnce(d.tr, ttl, event); }
  }
}

/** A node and the control plane it talks to: lossy exchanges, a spool on disk, and crashes. */
module World {
  import opened Types
  import opened Identity
  import opened RunProtocol
  import opened RunInvariants
  import opened Protocol
  import opened Behaviours
  import opened EmitOrder

  const MILLISECOND: Time := 1_000_000
  const SECOND: Time := 1_000 * MILLISECOND

  function Max(a: Time, b: Time): Time { if a < b then b else a }

  /** NoReply covers a lost request, a lost response and an expired context: the caller cannot tell them apart. */
  datatype NetReply = Answered(answer: Answer) | NoReply

  /** One request of the node with what it heard back, if anything, and when it was sent and over. */
  datatype Talk = Talk(packet: Packet, from: Time, reply: NetReply, to: Time)

  datatype File = Stored(event: PendingEvent) | Damaged

  /** What a crash leaves: the spool, and the control plane with everything it was ever asked.
      `dropped` is history only: the events whose file was removed after a refusal. */
  datatype Durable = Durable(files: map<string, File>, tr: Trace, asked: set<Packet>, dropped: set<PendingEvent>)

  function Last(tr: Trace): State
    requires |tr.states| > 0
  {
    tr.states[|tr.states| - 1]
  }

  predicate Extends(tr: Trace, tr': Trace) {
    tr.states <= tr'.states && tr.ops <= tr'.ops
  }

  /** The service fixes one lease duration. */
  predicate UsesTTL(op: Op, ttl: Time) {
    (op.OpClaim? ==> op.ttl == ttl) && (op.OpCall? && op.call.Renew? ==> op.call.ttl == ttl)
  }

  ghost predicate Running(tr: Trace, ttl: Time) {
    IsTrace(tr) && forall k :: 0 <= k < |tr.ops| ==> UsesTTL(tr.ops[k], ttl)
  }

  ghost predicate OnDisk(files: map<string, File>, event: PendingEvent) {
    Digest(event) in files && files[Digest(event)] == Stored(event)
  }

  predicate Lands(log: seq<Event>, event: PendingEvent, i: int) {
    0 <= i < |log| && log[i].id == Producer(Digest(event)) && log[i].body == EvFromNode(event.kind, event.text)
  }

  /** The event is in the log of its run. */
  ghost predicate Landed(tr: Trace, event: PendingEvent) {
    && |tr.states| > 0 && event.runId in Last(tr).entries
    && exists i :: Lands(Last(tr).entries[event.runId].log, event, i)
  }

  predicate Answers(op: Op, packet: Packet, answer: Answer) {
    op.OpCall? && PacketOf(op) == packet && op.answer == answer
  }

  /** The control plane refused the event. */
  ghost predicate TurnedAway(tr: Trace, event: PendingEvent) {
    exists k :: 0 <= k < |tr.ops| && tr.ops[k].OpCall? && PacketOf(tr.ops[k]) == AppendOf(event) && tr.ops[k].answer.Refused?
  }

  /** No event that was ever sent is lost: it is still spooled, or it landed, or it was refused. */
  ghost predicate Safe(d: Durable) {
    && (forall event :: AppendOf(event) in d.asked ==> OnDisk(d.files, event) || Landed(d.tr, event) || event in d.dropped)
    && (forall event :: event in d.dropped ==> TurnedAway(d.tr, event))
    && (forall name :: name in d.files && d.files[name].Stored? ==> Digest(d.files[name].event) == name)
  }

  ghost predicate AllSafe(journal: seq<Durable>, ttl: Time) {
    forall i :: 0 <= i < |journal| ==> Running(journal[i].tr, ttl) && Safe(journal[i])
  }

  /** The present and, in `journal`, what a crash at each earlier moment would have left. */
  datatype Story = Story(now: Durable, journal: seq<Durable>)

  /** The system moved on; the spool held one of `spools` all the while, and `lease` stayed with this node. */
  ghost predicate Moves(s: Story, s': Story, lease: string, spools: set<map<string, File>>) {
    && s.now.dropped <= s'.now.dropped && s.now.asked <= s'.now.asked
    && Extends(s.now.tr, s'.now.tr) && Civil(s'.now.tr, |s.now.tr.ops|, lease, s'.now.asked)
    && s.journal <= s'.journal
    && forall i :: |s.journal| <= i < |s'.journal| ==> s'.journal[i].files in spools
  }

  /** The system moved on while the spool stayed as it was. */
  ghost predicate Drifts(s: Story, s': Story, lease: string) {
    s'.now.files == s.now.files && s'.now.dropped == s.now.dropped && Moves(s, s', lease, {s.now.files})
  }

  /** Later in the same history. */
  ghost predicate Follows(s: Story, s': Story) {
    && s.now.dropped <= s'.now.dropped && s.now.asked <= s'.now.asked
    && Extends(s.now.tr, s'.now.tr) && s.journal <= s'.journal
  }

  // ------------------------------------------------------------------ traces

  lemma MovesTransitive(a: Story, b: Story, c: Story, lease: string, before: set<map<string, File>>, after: set<map<string, File>>)
    requires Moves(a, b, lease, before) && Moves(b, c, lease, after)
    ensures Moves(a, c, lease, before + after)
  {
    hide Permitted;
    assert forall k :: |a.now.tr.ops| <= k < |b.now.tr.ops| ==> c.now.tr.ops[k] == b.now.tr.ops[k];
    forall k | |a.now.tr.ops| <= k < |c.now.tr.ops|
      ensures Permitted(c.now.tr.ops[k], lease, c.now.asked)
    {
      if k < |b.now.tr.ops| {
        StillPermitted(b.now.tr.ops[k], lease, b.now.asked, c.now.asked);
      }
    }
    assert forall i :: |a.journal| <= i < |b.journal| ==> c.journal[i] == b.journal[i];
  }

  lemma StillPermitted(op: Op, lease: string, asked: set<Packet>, asked': set<Packet>)
    requires Permitted(op, lease, asked) && asked <= asked'
    ensures Permitted(op, lease, asked')
  {
  }

  lemma DriftsTransitive(a: Story, b: Story, c: Story, lease: string)
    requires Drifts(a, b, lease) && Drifts(b, c, lease)
    ensures Drifts(a, c, lease)
  {
    MovesTransitive(a, b, c, lease, {a.now.files}, {a.now.files});
    hide Moves;
    assert {a.now.files} + {a.now.files} == {a.now.files};
  }

  lemma MovesFollows(s: Story, s': Story, lease: string, spools: set<map<string, File>>)
    requires Moves(s, s', lease, spools)
    ensures Follows(s, s')
  {
    hide Permitted;
  }

  lemma FollowsTransitive(a: Story, b: Story, c: Story)
    requires Follows(a, b) && Follows(b, c)
    ensures Follows(a, c)
  {
  }

  lemma TakeStep(tr: Trace, ttl: Time, op: Op, s': State)
    requires Running(tr, ttl) && Next(Last(tr), op, s') && UsesTTL(op, ttl)
    ensures Running(Trace(tr.states + [s'], tr.ops + [op]), ttl)
    ensures Extends(tr, Trace(tr.states + [s'], tr.ops + [op]))
  {
    hide Next, Init, UsesTTL;
  }

  lemma RunningTrace(tr: Trace, ttl: Time)
    requires Running(tr, ttl)
    ensures IsTrace(tr) && |tr.states| == |tr.ops| + 1
  {
    hide Init, Next;
  }

  lemma LandedStays(tr: Trace, tr': Trace, ttl: Time, event: PendingEvent)
    requires Running(tr', ttl) && Extends(tr, tr') && Landed(tr, event)
    ensures Landed(tr', event)
  {
    hide Running, Extends, Landed, LogLands, EntryStep;
    LandedLog(tr, event);
    LogExtends(tr, tr', ttl, event.runId);
    LogLandsStays(Last(tr).entries[event.runId].log, Last(tr').entries[event.runId].log, event);
    LandedLog(tr', event);
  }

  ghost predicate LogLands(log: seq<Event>, event: PendingEvent) {
    exists i :: Lands(log, event, i)
  }

  lemma LandedLog(tr: Trace, event: PendingEvent)
    ensures Landed(tr, event) <==>
            |tr.states| > 0 && event.runId in Last(tr).entries && LogLands(Last(tr).entries[event.runId].log, event)
  {
    hide Lands;
  }

  /** The log of a run only grows along a history. */
  lemma LogExtends(tr: Trace, tr': Trace, ttl: Time, r: string)
    requires Running(tr', ttl) && Extends(tr, tr') && |tr.states| > 0 && r in Last(tr).entries
    ensures |tr'.states| > 0 && r in Last(tr').entries && Last(tr).entries[r].log <= Last(tr').entries[r].log
  {
    hide Running, IsTrace, Sound, EntryStep;
    RunningTrace(tr', ttl);
    var i, j := |tr.states| - 1, |tr'.states| - 1;
    StateAt(tr.states, tr'.states, i);
    RunBetween(tr', i, j, r);
  }

  lemma StateAt(states: seq<State>, states': seq<State>, i: nat)
    requires states <= states' && i < |states|
    ensures states'[i] == states[i]
  {
  }

  lemma LogLandsStays(log: seq<Event>, log': seq<Event>, event: PendingEvent)
    requires log <= log' && LogLands(log, event)
    ensures LogLands(log', event)
  {
    hide Lands;
    var i :| Lands(log, event, i);
    LandsStays(log, log', event, i);
  }

  lemma LandsStays(log: seq<Event>, log': seq<Event>, event: PendingEvent, i: int)
    requires log <= log' && Lands(log, event, i)
    ensures Lands(log', event, i)
  {
  }

  lemma TurnedAwayStays(tr: Trace, tr': Trace, event: PendingEvent)
    requires TurnedAway(tr, event) && Extends(tr, tr')
    ensures TurnedAway(tr', event)
  {
    var k :| 0 <= k < |tr.ops| && tr.ops[k].OpCall? && PacketOf(tr.ops[k]) == AppendOf(event) && tr.ops[k].answer.Refused?;
    assert tr'.ops[k] == tr.ops[k];
  }

  lemma SafeStays(d: Durable, tr': Trace, ttl: Time)
    requires Safe(d) && Running(tr', ttl) && Extends(d.tr, tr')
    ensures Safe(d.(tr := tr'))
  {
    hide Landed, Running, OnDisk, TurnedAway;
    forall event | AppendOf(event) in d.asked
      ensures OnDisk(d.files, event) || Landed(tr', event) || event in d.dropped
    {
      if Landed(d.tr, event) { LandedStays(d.tr, tr', ttl, event); }
    }
    forall event | event in d.dropped
      ensures TurnedAway(tr', event)
    {
      TurnedAwayStays(d.tr, tr', event);
    }
  }

  /** A landed event is in the log exactly once. */
  lemma LandedOnce(tr: Trace, event: PendingEvent, i: int, j: int)
    requires IsTrace(tr) && event.runId in Last(tr).entries
    requires 0 <= i < |Last(tr).entries[event.runId].log| && Last(tr).entries[event.runId].log[i].id == Producer(Digest(event))
    requires 0 <= j < |Last(tr).entries[event.runId].log| && Last(tr).entries[event.runId].log[j].id == Producer(Digest(event))
    ensures i == j
  {
    RunBetween(tr, |tr.states| - 1, |tr.states| - 1, event.runId);
    var e := Last(tr).entries[event.runId];
    LogAt(e.run.id, e.log);
    hide IsTrace, EntryStep;
  }

  /** An accepted event is in the log when the call returns, whether this call or an earlier one put it there. */
  lemma AcceptedLands(s: State, op: Op, s': State, event: PendingEvent)
    requires Next(s, op, s') && Answers(op, AppendOf(event), Done) && event.id != ""
    ensures event.runId in s'.entries && exists i :: Lands(s'.entries[event.runId].log, event, i)
  {
    hide Apply, Lands;
    AppendAccepted(s.entries[event.runId], event, op.call);
  }

  lemma AppendAccepted(e: Entry, event: PendingEvent, call: Call)
    requires call.AppendEvent? && AskOf(call) == AppendOf(event).ask
    requires event.id != "" && Apply(e, event.attemptId, event.lease, call).1 == Done
    ensures exists i :: Lands(Apply(e, event.attemptId, event.lease, call).0.log, event, i)
  {
    hide Expire, Terminals, Started, LogShape, Appendable;
    var e' := Apply(e, event.attemptId, event.lease, call).0;
    var id := Producer(Digest(event));
    if HasEvent(e.log, id) {
      var found := FindEvent(e.log, id);
      var i :| 0 <= i < |e.log| && e.log[i] == found;
      assert Lands(e'.log, event, i);
    } else {
      assert Lands(e'.log, event, |e.log|);
    }
  }

  /** What one answered request proves later on. */
  lemma AnsweredAppend(tr: Trace, ttl: Time, k: int, event: PendingEvent, answer: Answer)
    requires Running(tr, ttl) && 0 <= k < |tr.ops| && Answers(tr.ops[k], AppendOf(event), answer) && event.id != ""
    ensures answer == Done ==> Landed(tr, event)
    ensures answer.Refused? ==> TurnedAway(tr, event)
  {
    RunningTrace(tr, ttl);
    if answer == Done {
      StepOf(tr, k);
      hide IsTrace, Next, Running, Landed, Lands;
      var upto := Trace(tr.states[..k + 2], tr.ops[..k + 1]);
      AcceptedLands(tr.states[k], tr.ops[k], tr.states[k + 1], event);
      NowLanded(upto, event);
      LandedStays(upto, tr, ttl, event);
    }
  }

  lemma NowLanded(tr: Trace, event: PendingEvent)
    requires |tr.states| > 0 && event.runId in Last(tr).entries
    requires exists i :: Lands(Last(tr).entries[event.runId].log, event, i)
    ensures Landed(tr, event)
  {
  }

  lemma StepOf(tr: Trace, k: int)
    requires IsTrace(tr) && 0 <= k < |tr.ops|
    ensures Next(tr.states[k], tr.ops[k], tr.states[k + 1])
  {
    hide Next;
  }

  lemma QuietDrift(s: Story, lease: string)
    ensures Drifts(s, s.(journal := s.journal + [s.now]), lease)
  {
  }

  lemma OneStepDrift(s: Story, tr': Trace, op: Op, next: State, lease: string)
    requires tr' == Trace(s.now.tr.states + [next], s.now.tr.ops + [op]) && Permitted(op, lease, s.now.asked)
    ensures var now := s.now.(tr := tr'); Drifts(s, Story(now, s.journal + [now]), lease)
  {
    hide Permitted;
  }

  lemma AskDrift(s: Story, packet: Packet, lease: string)
    ensures var now := s.now.(asked := s.now.asked + {packet}); Drifts(s, Story(now, s.journal + [now]), lease)
  {
  }

  lemma DriftKeepsOp(s: Story, s': Story, lease: string, k: int)
    requires Drifts(s, s', lease) && 0 <= k < |s.now.tr.ops|
    ensures k < |s'.now.tr.ops| && s'.now.tr.ops[k] == s.now.tr.ops[k]
  {
    assert s'.now.tr.ops[..|s.now.tr.ops|] == s.now.tr.ops;
  }

  lemma NotEmpty(tr: Trace, ttl: Time)
    requires Running(tr, ttl)
    ensures |tr.states| > 0
  {
  }

  lemma PushSafe(journal: seq<Durable>, d: Durable, ttl: Time)
    requires AllSafe(journal, ttl) && Running(d.tr, ttl) && Safe(d)
    ensures AllSafe(journal + [d], ttl)
  {
    hide Running, Safe;
  }

  lemma AskSafe(d: Durable, packet: Packet)
    requires Safe(d) && forall event :: packet == AppendOf(event) ==> OnDisk(d.files, event)
    ensures Safe(d.(asked := d.asked + {packet}))
  {
    hide OnDisk, Landed, TurnedAway;
  }

  // ------------------------------------------------------------------ a node in the world

  /** Every change is one action of one party. */
  class World {
    const ttl: Time
    var tr: Trace
    var files: map<string, File>
    ghost var asked: set<Packet>
    ghost var dropped: set<PendingEvent>
    ghost var journal: seq<Durable>
    ghost var talks: seq<Talk>

    ghost predicate Valid()
      reads this
    {
      Running(tr, ttl) && Safe(Now()) && AllSafe(journal, ttl)
    }

    ghost function Now(): Durable
      reads this
    {
      Durable(files, tr, asked, dropped)
    }

    ghost function Told(): Story
      reads this
    {
      Story(Now(), journal)
    }

    function Clock(): Time
      reads this
    {
      if |tr.states| > 0 then Last(tr).clock else 0
    }

    /** A node that starts over what an earlier one left. */
    constructor (files: map<string, File>, tr: Trace, ghost d: Durable, ttl: Time)
      requires Running(tr, ttl) && Safe(d) && d.files == files && d.tr == tr
      ensures Valid() && Now() == d && this.ttl == ttl && journal == [d] && talks == []
    {
      this.ttl := ttl;
      this.tr, this.files := tr, files;
      asked, dropped := d.asked, d.dropped;
      journal, talks := [d], [];
    }

    /** Anything the others may do until `until`: clients, other nodes, the reconciler, other calls of
        this node, and late copies of its requests. The contract leaves the choice to them. */
    method Elsewhere(ghost lease: string, until: Time)
      requires Valid()
      modifies this
      ensures Valid() && Drifts(old(Told()), Told(), lease) && asked == old(asked) && talks == old(talks)
      ensures old(Clock()) <= Clock() <= Max(old(Clock()), until)
    {
      hide Running, Safe, Drifts, Moves, AllSafe;
      QuietDrift(Told(), lease);
      PushSafe(journal, Now(), ttl);
      journal := journal + [Now()];
    }

    method Step(ghost lease: string, op: Op, next: State)
      requires Valid() && Next(Last(tr), op, next) && UsesTTL(op, ttl) && Permitted(op, lease, asked)
      modifies this
      ensures Valid() && tr == Trace(old(tr).states + [next], old(tr).ops + [op])
      ensures Drifts(old(Told()), Told(), lease) && asked == old(asked) && talks == old(talks)
    {
      hide Running, Safe, Next, UsesTTL, Permitted, Drifts, Moves, AllSafe;
      TakeStep(tr, ttl, op, next);
      var tr' := Trace(tr.states + [next], tr.ops + [op]);
      SafeStays(Now(), tr', ttl);
      OneStepDrift(Told(), tr', op, next, lease);
      tr := tr';
      PushSafe(journal, Now(), ttl);
      journal := journal + [Now()];
    }

    /** Waits until an instant; a timer that is due fires at once. */
    method WaitUntil(ghost lease: string, until: Time)
      requires Valid()
      modifies this
      ensures Valid() && Drifts(old(Told()), Told(), lease) && asked == old(asked) && talks == old(talks)
      ensures Clock() == Max(old(Clock()), until)
    {
      hide Running, Safe, Drifts, Moves, AllSafe;
      Elsewhere(lease, until);
      ghost var mid := Told();
      NotEmpty(tr, ttl);
      Step(lease, OpRead, Last(tr).(clock := Max(Clock(), until)));
      DriftsTransitive(old(Told()), mid, Told(), lease);
    }

    ghost method Ask(lease: string, packet: Packet)
      requires Valid()
      requires forall event :: packet == AppendOf(event) ==> OnDisk(files, event)
      modifies `asked, `journal
      ensures Valid() && Drifts(old(Told()), Told(), lease) && asked == old(asked) + {packet}
    {
      hide Running, Safe, Drifts, Moves, AllSafe, OnDisk;
      AskDrift(Told(), packet, lease);
      AskSafe(Now(), packet);
      asked := asked + {packet};
      PushSafe(journal, Now(), ttl);
      journal := journal + [Now()];
    }

    /** The control plane serves one request as a single step. */
    method Serve(ghost lease: string, packet: Packet, until: Time) returns (answer: Answer, ghost at: int)
      requires Valid() && packet in asked && (packet.ask.AskRenew? ==> packet.ask.ttl == ttl)
      modifies this
      ensures Valid() && Drifts(old(Told()), Told(), lease) && asked == old(asked) && talks == old(talks)
      ensures old(Clock()) <= Clock() <= Max(old(Clock()), until)
      ensures |old(tr).ops| == at < |tr.ops| && Answers(tr.ops[at], packet, answer)
      ensures old(Clock()) <= tr.ops[at].call.t1
    {
      hide Running, Safe, Drifts, Moves, AllSafe, Apply;
      NotEmpty(tr, ttl);
      var s := Last(tr);
      var t1: Time :| Clock() <= t1 <= Max(Clock(), until);
      var t2: Time :| t1 <= t2 <= Max(Clock(), until);
      var t3: Time :| t2 <= t3 <= Max(Clock(), until);
      var call := Stamp(packet.ask, t1, t2, t3);
      var next := s.(clock := t3);
      if packet.runId in s.entries {
        var (e, a) := Apply(s.entries[packet.runId], packet.attemptId, packet.lease, call);
        answer := a;
        next := next.(entries := s.entries[packet.runId := e]);
      } else {
        answer := Refused(ErrNotFound);
      }
      at := |tr.ops|;
      Step(lease, OpCall(packet.runId, packet.attemptId, packet.lease, call, answer), next);
    }

    /** One request: lost on the way, served but the answer lost, or answered; `at` is where it was served. */
    method Exchange(ghost lease: string, packet: Packet, until: Time) returns (reply: NetReply, ghost at: int)
      requires Valid() && (packet.ask.AskRenew? ==> packet.ask.ttl == ttl)
      requires forall event :: packet == AppendOf(event) ==> OnDisk(files, event)
      modifies this
      ensures Valid() && Drifts(old(Told()), Told(), lease) && asked == old(asked) + {packet}
      ensures old(Clock()) <= Clock() <= Max(old(Clock()), until)
      ensures reply.Answered? ==> |old(tr).ops| <= at < |tr.ops| && Answers(tr.ops[at], packet, reply.answer)
      ensures reply.Answered? ==> old(Clock()) <= tr.ops[at].call.t1
      ensures talks == old(talks) + [Talk(packet, old(Clock()), reply, Clock())]
    {
      hide Running, Safe, Drifts, Moves, AllSafe, Answers, OnDisk;
      reply, at := NoReply, 0;
      Ask(lease, packet);
      ghost var asking := Told();
      Elsewhere(lease, until);
      DriftsTransitive(old(Told()), asking, Told(), lease);
      if * {
        talks := talks + [Talk(packet, old(Clock()), reply, Clock())];
        return;
      }
      ghost var waiting := Told();
      ExtendsOps(old(Told()), waiting, lease);
      var answer, k := Serve(lease, packet, until);
      DriftsTransitive(old(Told()), waiting, Told(), lease);
      ghost var served := Told();
      Elsewhere(lease, until);
      DriftsTransitive(old(Told()), served, Told(), lease);
      DriftKeepsOp(served, Told(), lease, k);
      if * {
        talks := talks + [Talk(packet, old(Clock()), reply, Clock())];
        return;
      }
      reply, at := Answered(answer), k;
      talks := talks + [Talk(packet, old(Clock()), reply, Clock())];
    }

    /** The atomic rename that makes an event durable. */
    method Publish(ghost lease: string, event: PendingEvent)
      requires Valid() && Digest(event) !in files
      modifies this
      ensures Valid() && files == old(files)[Digest(event) := Stored(event)] && OnDisk(files, event)
      ensures Moves(old(Told()), Told(), lease, {files}) && asked == old(asked) && dropped == old(dropped)
      ensures tr == old(tr) && talks == old(talks)
    {
      hide Running, Safe, Moves, AllSafe;
      PublishSafe(Now(), event);
      files := files[Digest(event) := Stored(event)];
      PushSafe(journal, Now(), ttl);
      journal := journal + [Now()];
      SpoolMoves(old(Told()), Told(), lease);
    }

    /** The atomic removal of a file that is no longer needed. */
    method Unlink(ghost lease: string, event: PendingEvent)
      requires Valid() && OnDisk(files, event) && (Landed(tr, event) || TurnedAway(tr, event))
      modifies this
      ensures Valid() && files == old(files) - {Digest(event)}
      ensures Moves(old(Told()), Told(), lease, {files}) && asked == old(asked)
      ensures dropped == old(dropped) || (dropped == old(dropped) + {event} && TurnedAway(tr, event))
      ensures Landed(tr, event) || event in dropped
      ensures tr == old(tr) && talks == old(talks)
    {
      hide Running, Safe, Moves, AllSafe;
      ghost var gone := if Landed(tr, event) then dropped else dropped + {event};
      UnlinkSafe(Now(), event, gone);
      files := files - {Digest(event)};
      dropped := gone;
      PushSafe(journal, Now(), ttl);
      journal := journal + [Now()];
      SpoolMoves(old(Told()), Told(), lease);
    }
  }

  lemma SpoolMoves(s: Story, s': Story, lease: string)
    requires s'.now.tr == s.now.tr && s'.now.asked == s.now.asked && s.now.dropped <= s'.now.dropped
    requires s'.journal == s.journal + [s'.now]
    ensures Moves(s, s', lease, {s'.now.files})
  {
  }

  lemma PublishSafe(d: Durable, event: PendingEvent)
    requires Safe(d) && Digest(event) !in d.files
    ensures Safe(d.(files := d.files[Digest(event) := Stored(event)]))
  {
    hide Landed, TurnedAway, Digest;
  }

  lemma UnlinkSafe(d: Durable, event: PendingEvent, dropped: set<PendingEvent>)
    requires Safe(d) && OnDisk(d.files, event) && (Landed(d.tr, event) || TurnedAway(d.tr, event))
    requires dropped == if Landed(d.tr, event) then d.dropped else d.dropped + {event}
    ensures Safe(d.(files := d.files - {Digest(event)}, dropped := dropped))
  {
    hide Landed, TurnedAway, Digest;
  }

  lemma ExtendsOps(s: Story, s': Story, lease: string)
    requires Drifts(s, s', lease)
    ensures |s.now.tr.ops| <= |s'.now.tr.ops|
  {
  }
}

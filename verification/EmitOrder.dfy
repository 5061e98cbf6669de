/** What a node asks of the control plane, and in which order its events reach the log. */
module EmitOrder {
  import opened Types
  import opened Identity
  import opened RunProtocol
  import opened RunInvariants
  import opened Protocol
  import opened Behaviours
  import opened Producers

  /** A call before the clock of the control plane stamps it. */
  datatype Ask =
    | AskRenew(ttl: Time)
    | AskStart
    | AskAppend(kind: string, payload: Payload, ids: seq<string>)
    | AskComplete(result: RunResult)
    | AskFail(cause: string)
    | AskAcknowledge
    | AskRecord(subject: Subject, id: string)
    | AskInspect(running: bool)

  function AskOf(call: Call): Ask {
    match call
    case Renew(_, _, ttl) => AskRenew(ttl)
    case Start(_, _, _) => AskStart
    case AppendEvent(_, kind, payload, ids) => AskAppend(kind, payload, ids)
    case Complete(_, _, result) => AskComplete(result)
    case Fail(_, _, cause) => AskFail(cause)
    case Acknowledge(_, _) => AskAcknowledge
    case Record(_, subject, id) => AskRecord(subject, id)
    case Inspect(_, running) => AskInspect(running)
  }

  /** The call as the control plane reads its clock while serving it. */
  function Stamp(ask: Ask, t1: Time, t2: Time, t3: Time): (call: Call)
    ensures AskOf(call) == ask
    ensures forall from, to :: from <= t1 <= t2 <= t3 <= to ==> Ordered(from, call, to)
  {
    match ask
    case AskRenew(ttl) => Renew(t1, t2, ttl)
    case AskStart => Start(t1, t2, t3)
    case AskAppend(kind, payload, ids) => AppendEvent(t1, kind, payload, ids)
    case AskComplete(result) => Complete(t1, t2, result)
    case AskFail(cause) => Fail(t1, t2, cause)
    case AskAcknowledge => Acknowledge(t1, t2)
    case AskRecord(subject, id) => Call.Record(t1, subject, id)
    case AskInspect(running) => Inspect(t1, running)
  }

  datatype Packet = Packet(runId: string, attemptId: string, lease: string, ask: Ask)

  function PacketOf(op: Op): Packet
    requires op.OpCall?
  {
    Packet(op.runId, op.attemptId, op.lease, AskOf(op.call))
  }

  /** The lease token is a secret: reports under it come from the node that holds it,
      although the network may deliver an earlier request late, or again. */
  ghost predicate Permitted(op: Op, lease: string, asked: set<Packet>) {
    op.OpCall? && op.lease == lease && lease != "" && (op.call.AppendEvent? || op.call.Complete? || op.call.Fail?)
    ==> PacketOf(op) in asked
  }

  /** An event on its way: what the spool keeps of it. */
  datatype PendingEvent = PendingEvent(runId: string, attemptId: string, lease: string, id: string, kind: string, text: string)

  function AppendOf(event: PendingEvent): Packet {
    Packet(event.runId, event.attemptId, event.lease, AskAppend(event.kind, Json(event.text), [event.id]))
  }

  function Digest(event: PendingEvent): string {
    Join3(event.attemptId, event.lease, event.id)
  }

  // ------------------------------------------------------------------ the events of one lease

  datatype Mark = Mark(id: string, body: EventBody)

  function Prefix(attemptId: string, lease: string): string {
    attemptId + [NUL] + lease + [NUL]
  }

  predicate IsFrom(id: EventId, attemptId: string, lease: string) {
    id.Producer? && Prefix(attemptId, lease) <= id.digest
  }

  /** The events that producers named under one lease, in log order. */
  function FromLease(log: seq<Event>, attemptId: string, lease: string): seq<Mark> {
    if log == [] then []
    else
      var last := log[|log| - 1];
      FromLease(log[..|log| - 1], attemptId, lease) +
      if IsFrom(last.id, attemptId, lease)
      then [Mark(last.id.digest[|Prefix(attemptId, lease)|..], last.body)]
      else []
  }

  function Marks(events: seq<PendingEvent>): (marks: seq<Mark>)
    ensures |marks| == |events|
    ensures forall i :: 0 <= i < |marks| ==> marks[i] == Mark(events[i].id, EvFromNode(events[i].kind, events[i].text))
  {
    seq(|events|, i requires 0 <= i < |events| => Mark(events[i].id, EvFromNode(events[i].kind, events[i].text)))
  }

  /** Every event but perhaps the last one is in the log, in order, and no other event of the lease is. */
  ghost predicate InStep(log: seq<Event>, attemptId: string, lease: string, events: seq<PendingEvent>) {
    || FromLease(log, attemptId, lease) == Marks(events)
    || (events != [] && FromLease(log, attemptId, lease) == Marks(events[..|events| - 1]))
  }

  /** These are the only events asked for under the lease so far, each under an identity of its own. */
  ghost predicate OnlyAsked(asked: set<Packet>, attemptId: string, lease: string, events: seq<PendingEvent>) {
    && (forall i, j :: 0 <= i < j < |events| ==> events[i].id != events[j].id)
    && (forall i :: 0 <= i < |events| ==> events[i].id != "")
    && (forall p :: p in asked && p.lease == lease && p.ask.AskAppend? ==>
          exists i :: 0 <= i < |events| && p == AppendOf(events[i]) && p.attemptId == attemptId)
  }

  lemma {:induction false} FromLeaseHas(log: seq<Event>, attemptId: string, lease: string, k: int)
    requires 0 <= k < |FromLease(log, attemptId, lease)|
    ensures HasEvent(log, Producer(Join3(attemptId, lease, FromLease(log, attemptId, lease)[k].id)))
  {
    var n := |log| - 1;
    var before := log[..n];
    if k < |FromLease(before, attemptId, lease)| {
      FromLeaseHas(before, attemptId, lease, k);
      var i :| 0 <= i < |before| && before[i].id == Producer(Join3(attemptId, lease, FromLease(log, attemptId, lease)[k].id));
      assert log[i] == before[i];
    } else {
      assert log[n].id.digest == Prefix(attemptId, lease) + log[n].id.digest[|Prefix(attemptId, lease)|..];
      assert Prefix(attemptId, lease) + FromLease(log, attemptId, lease)[k].id
          == Join3(attemptId, lease, FromLease(log, attemptId, lease)[k].id);
      assert log[n].id == Producer(Join3(attemptId, lease, FromLease(log, attemptId, lease)[k].id));
    }
  }

  lemma {:induction false} HasFromLease(log: seq<Event>, attemptId: string, lease: string, id: string, i: int)
    requires 0 <= i < |log| && log[i].id == Producer(Join3(attemptId, lease, id))
    ensures exists k :: 0 <= k < |FromLease(log, attemptId, lease)| && FromLease(log, attemptId, lease)[k] == Mark(id, log[i].body)
  {
    var n := |log| - 1;
    var marks := FromLease(log, attemptId, lease);
    if i < n {
      HasFromLease(log[..n], attemptId, lease, id, i);
      var k :| 0 <= k < |FromLease(log[..n], attemptId, lease)| && FromLease(log[..n], attemptId, lease)[k] == Mark(id, log[i].body);
      assert marks[k] == Mark(id, log[i].body);
    } else {
      assert log[i].id.digest == Prefix(attemptId, lease) + id;
      assert log[i].id.digest[|Prefix(attemptId, lease)|..] == id;
      assert marks[|marks| - 1] == Mark(id, log[i].body);
    }
  }

  lemma {:induction false} OwnFromLease(log: seq<Event>, log': seq<Event>, attemptId: string, lease: string)
    requires log <= log' && forall i :: |log| <= i < |log'| ==> log'[i].id == Assigned
    ensures FromLease(log', attemptId, lease) == FromLease(log, attemptId, lease)
  {
    if |log| < |log'| {
      OwnFromLease(log, log'[..|log'| - 1], attemptId, lease);
    } else {
      assert log == log';
    }
  }

  lemma {:induction false} FromLeaseGrows(log: seq<Event>, log': seq<Event>, attemptId: string, lease: string)
    requires log <= log'
    ensures FromLease(log, attemptId, lease) <= FromLease(log', attemptId, lease)
  {
    if |log| < |log'| {
      FromLeaseGrows(log, log'[..|log'| - 1], attemptId, lease);
    } else {
      assert log == log';
    }
  }

  lemma SamePrefix(attemptId: string, lease: string, id: string, attemptId': string, lease': string)
    requires NulFree(attemptId) && NulFree(lease) && NulFree(attemptId') && NulFree(lease')
    requires Prefix(attemptId', lease') <= Join3(attemptId, lease, id)
    ensures attemptId == attemptId' && lease == lease'
    ensures Join3(attemptId, lease, id)[|Prefix(attemptId', lease')|..] == id
  {
    var rest := Join3(attemptId, lease, id)[|Prefix(attemptId', lease')|..];
    assert Join3(attemptId, lease, id) == Prefix(attemptId', lease') + rest == Join3(attemptId', lease', rest);
    Join3Injective(attemptId, lease, id, attemptId', lease', rest);
  }

  /** An append under the lease adds the awaited event, or nothing. */
  lemma AppendInStep(e: Entry, op: Op, attemptId: string, lease: string, asked: set<Packet>, events: seq<PendingEvent>)
    requires Sound(e) && op.OpCall? && op.call.AppendEvent?
    requires Holds(e, op.attemptId, op.lease) ==> Permitted(op, lease, asked)
    requires NulFree(attemptId) && NulFree(lease) && lease != ""
    requires OnlyAsked(asked, attemptId, lease, events) && InStep(e.log, attemptId, lease, events)
    ensures InStep(Apply(e, op.attemptId, op.lease, op.call).0.log, attemptId, lease, events)
  {
    var e' := Apply(e, op.attemptId, op.lease, op.call).0;
    AppendOwn(e, op.attemptId, op.lease, op.call);
    AppendNew(e, op.attemptId, op.lease, op.call);
    hide Apply, LogSound, HistorySound, FromLease, Join3, HasEvent;
    if OwnEvents(e, e') {
      OwnFromLease(e.log, e'.log, attemptId, lease);
    } else {
      var event := e'.log[|e.log|];
      assert e'.log[..|e.log|] == e.log;
      LastFromLease(e'.log, attemptId, lease);
      if IsFrom(event.id, attemptId, lease) {
        AwaitedEvent(e, op, event, attemptId, lease, asked, events);
      }
    }
  }

  lemma LastFromLease(log: seq<Event>, attemptId: string, lease: string)
    requires |log| > 0
    ensures var n := |log| - 1;
      FromLease(log, attemptId, lease) == FromLease(log[..n], attemptId, lease) +
        (if IsFrom(log[n].id, attemptId, lease) then [Mark(log[n].id.digest[|Prefix(attemptId, lease)|..], log[n].body)] else [])
  {
  }

  /** An append that adds a producer's event found its identity unused. */
  lemma AppendNew(e: Entry, attemptId: string, lease: string, call: Call)
    requires call.AppendEvent?
    ensures var e' := Apply(e, attemptId, lease, call).0;
      !OwnEvents(e, e') ==> EventIdentity(attemptId, lease, call.ids) != Assigned
                            && !HasEvent(e.log, EventIdentity(attemptId, lease, call.ids))
  {
    hide Terminals, Started, LogShape, Appendable, Expire, HasEvent;
    ExpireOwn(e, call.t1);
  }

  lemma AwaitedEvent(e: Entry, op: Op, event: Event, attemptId: string, lease: string, asked: set<Packet>, events: seq<PendingEvent>)
    requires Sound(e) && op.OpCall? && op.call.AppendEvent? && Permitted(op, lease, asked) && Holds(e, op.attemptId, op.lease)
    requires NulFree(attemptId) && NulFree(lease) && lease != "" && op.call.payload.Json?
    requires OnlyAsked(asked, attemptId, lease, events) && InStep(e.log, attemptId, lease, events)
    requires event.id == EventIdentity(op.attemptId, op.lease, op.call.ids) && !HasEvent(e.log, event.id)
    requires event.body == EvFromNode(op.call.kind, op.call.payload.text) && IsFrom(event.id, attemptId, lease)
    ensures events != [] && FromLease(e.log, attemptId, lease) == Marks(events[..|events| - 1])
    ensures var mark := Mark(event.id.digest[|Prefix(attemptId, lease)|..], event.body);
      FromLease(e.log, attemptId, lease) + [mark] == Marks(events)
  {
    hide LogSound, HistorySound, FromLease, HasEvent, Join3, Prefix;
    assert op.call.ids != [] && op.call.ids[0] != "";
    SamePrefix(op.attemptId, op.lease, op.call.ids[0], attemptId, lease);
    assert PacketOf(op) in asked;
    AwaitedMark(e.log, PacketOf(op), attemptId, lease, asked, events);
  }

  lemma AwaitedMark(log: seq<Event>, packet: Packet, attemptId: string, lease: string, asked: set<Packet>, events: seq<PendingEvent>)
    requires packet in asked && packet.ask.AskAppend? && packet.lease == lease && packet.ask.payload.Json?
    requires OnlyAsked(asked, attemptId, lease, events) && InStep(log, attemptId, lease, events)
    requires packet.ask.ids != [] && !HasEvent(log, Producer(Join3(attemptId, lease, packet.ask.ids[0])))
    ensures events != [] && FromLease(log, attemptId, lease) == Marks(events[..|events| - 1])
    ensures FromLease(log, attemptId, lease) + [Mark(packet.ask.ids[0], EvFromNode(packet.ask.kind, packet.ask.payload.text))]
            == Marks(events)
  {
    hide FromLease, HasEvent, Join3;
    var i :| 0 <= i < |events| && packet == AppendOf(events[i]);
    if i < |FromLease(log, attemptId, lease)| {
      FromLeaseHas(log, attemptId, lease, i);
      assert false;
    }
  }

  // ------------------------------------------------------------------ along a trace

  lemma NextInStep(s: State, op: Op, s': State, r: string, attemptId: string, lease: string,
                   asked: set<Packet>, events: seq<PendingEvent>)
    requires Inv(s) && Next(s, op, s') && r in s.entries
    requires op.OpCall? && Holds(s.entries[r], op.attemptId, op.lease) ==> Permitted(op, lease, asked)
    requires NulFree(attemptId) && NulFree(lease) && lease != ""
    requires OnlyAsked(asked, attemptId, lease, events) && InStep(s.entries[r].log, attemptId, lease, events)
    ensures r in s'.entries && InStep(s'.entries[r].log, attemptId, lease, events)
  {
    hide Inv, Sound, OwnEvents, Sweep, Cancel, Recover, Apply, Grant, Fresh, Retries, Abandoned, Overdue, Claimable, LiveOn,
         HasEvent, Join3, SubmitStep, FromLease, InStep, OnlyAsked, Permitted;
    var e := s.entries[r];
    SoundAt(s, r);
    SameOwn(e);
    match op {
      case OpSubmit(_, _, _, _) => SubmitLeaves(s, op, s', r);
      case OpClaim(nodeId, ttl, t, reply) =>
        SweepOwn(e, t);
        if reply.Accepted? {
          GrantOwn(Sweep(e, t), nodeId, reply.value.lease, t + ttl);
          OwnTransitive(e, Sweep(e, t), Grant(Sweep(e, t), nodeId, reply.value.lease, t + ttl));
        }
      case OpCall(runId, attemptId', lease', call, _) =>
        if runId == r {
          if call.AppendEvent? {
            AppendInStep(e, op, attemptId, lease, asked, events);
          } else {
            ApplyOwn(e, attemptId', lease', call);
          }
        }
      case OpCancel(_, reason, requester, t) => CancelOwn(e, reason, requester, t);
      case OpNote(_, subject, id) => NoteOwn(e, subject, id);
      case OpReconcile(now, _, overdue, abandoned, ids, _) =>
        CancelOwn(e, "run timeout exceeded", "relay", now);
        var mid := CancelAll(s.entries, overdue, now)[r];
        RecoverOwn(mid, now, if r in ids then ids[r] else "");
        OwnTransitive(e, mid, s'.entries[r]);
      case _ =>
    }
    if OwnEvents(e, s'.entries[r]) {
      OwnInStep(e, s'.entries[r], attemptId, lease, events);
    }
  }

  lemma OwnInStep(e: Entry, e': Entry, attemptId: string, lease: string, events: seq<PendingEvent>)
    requires OwnEvents(e, e') && InStep(e.log, attemptId, lease, events)
    ensures InStep(e'.log, attemptId, lease, events)
  {
    OwnFromLease(e.log, e'.log, attemptId, lease);
  }

  /** From `from` on, reports under the lease are requests of its holder. */
  ghost predicate Civil(tr: Trace, from: nat, lease: string, asked: set<Packet>) {
    forall k :: from <= k < |tr.ops| ==> Permitted(tr.ops[k], lease, asked)
  }

  /** Whatever else happens, the log takes the events of a lease in the order they were asked for. */
  lemma {:induction false} StaysInStep(tr: Trace, i: nat, j: nat, r: string, attemptId: string, lease: string,
                                       asked: set<Packet>, events: seq<PendingEvent>)
    requires IsTrace(tr) && i <= j < |tr.states| && r in tr.states[i].entries && Civil(tr, i, lease, asked)
    requires NulFree(attemptId) && NulFree(lease) && lease != ""
    requires OnlyAsked(asked, attemptId, lease, events) && InStep(tr.states[i].entries[r].log, attemptId, lease, events)
    ensures r in tr.states[j].entries && InStep(tr.states[j].entries[r].log, attemptId, lease, events)
    decreases j - i
  {
    hide Inv, Next, OnlyAsked, InStep, Permitted;
    if i < j {
      StaysInStep(tr, i, j - 1, r, attemptId, lease, asked, events);
      Reachable(tr, j - 1);
      NextInStep(tr.states[j - 1], tr.ops[j - 1], tr.states[j], r, attemptId, lease, asked, events);
    }
  }

  /** Before a token is issued, no log holds an event sent under it. */
  lemma {:induction false} UnissuedUnused(tr: Trace, i: nat, r: string, attemptId: string, lease: string)
    requires IsTrace(tr) && i < |tr.states| && r in tr.states[i].entries && lease !in tr.states[i].issued
    requires NulFree(attemptId) && NulFree(lease) && lease != ""
    ensures FromLease(tr.states[i].entries[r].log, attemptId, lease) == []
    decreases i
  {
    hide Inv, Next, Advances, FromLease;
    if i > 0 {
      var s, op, s' := tr.states[i - 1], tr.ops[i - 1], tr.states[i];
      Reachable(tr, i - 1);
      NextKeeps(s, op, s');
      NothingIssuedTwice(s, s');
      if r in s.entries {
        UnissuedUnused(tr, i - 1, r, attemptId, lease);
        assert Marks([]) == [];
        HoldsIssued(s, r);
        NextInStep(s, op, s', r, attemptId, lease, {}, []);
      } else {
        NewLog(s, op, s', r, attemptId, lease);
      }
    }
  }

  lemma NothingIssuedTwice(s: State, s': State)
    requires Advances(s, s')
    ensures s.issued <= s'.issued
  {
    hide EntryStep;
  }

  lemma HoldsIssued(s: State, r: string)
    requires Inv(s) && r in s.entries
    ensures s.entries[r].run.attempt.lease != "" ==> s.entries[r].run.attempt.lease in s.issued
  {
    hide Sound;
    assert EntryInv(s, r, s.entries[r]);
  }

  lemma NewLog(s: State, op: Op, s': State, r: string, attemptId: string, lease: string)
    requires Next(s, op, s') && r !in s.entries && r in s'.entries
    ensures FromLease(s'.entries[r].log, attemptId, lease) == []
  {
    hide Sweep, Cancel, Recover, Apply, Grant, Fresh, Retries, Abandoned, Overdue, Claimable, LiveOn, Terminals, Started, LogShape,
         IsFrom;
    var log := s'.entries[r].log;
    assert |log| == 2 && log[0].id == Assigned && log[1].id == Assigned;
    OwnFromLease([], log, attemptId, lease);
  }
}

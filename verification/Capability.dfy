/** Capability calls: collapse inside one invoker, and one execution per key across all attempts of a run. */
module Capability {
  import opened Types

  // ------------------------------------------------------------------ grants

  datatype Grant = Grant(name: string, version: string, resources: seq<string>)
  datatype Asked = Asked(name: string, version: string, resource: string)
  datatype Granting = Granted(grant: Grant) | OutOfScope | NotGranted

  /** The grant names the capability, and its version unless any will do. */
  predicate Names(grants: seq<Grant>, i: int, call: Asked)
    requires 0 <= i < |grants|
  {
    grants[i].name == call.name && (call.version == "" || call.version == grants[i].version)
  }

  /** The first grant that names the capability decides; a grant without resources is for all of them. */
  ghost predicate Decides(grants: seq<Grant>, call: Asked, granting: Granting) {
    && (granting == NotGranted <==> forall i :: 0 <= i < |grants| ==> !Names(grants, i, call))
    && (granting != NotGranted ==>
          exists i :: 0 <= i < |grants| && Names(grants, i, call) && (forall j :: 0 <= j < i ==> !Names(grants, j, call))
                      && granting == if grants[i].resources == [] || call.resource in grants[i].resources
                                     then Granted(grants[i]) else OutOfScope)
  }

  /** The first grant that covers the call decides: a later, wider one is not consulted. */
  method FindGrant(grants: seq<Grant>, call: Asked) returns (granting: Granting)
    ensures Decides(grants, call, granting)
  {
    for i := 0 to |grants|
      invariant forall j :: 0 <= j < i ==> !Names(grants, j, call)
    {
      var grant := grants[i];
      if grant.name != call.name || (call.version != "" && grant.version != call.version) {
        continue;
      }
      assert Names(grants, i, call);
      if |grant.resources| > 0 && call.resource !in grant.resources {
        return OutOfScope;
      }
      return Granted(grant);
    }
    granting := NotGranted;
  }

  // ------------------------------------------------------------------ the reservation table

  /** What is hashed to recognise a repeated call. */
  datatype Request = Request(run: string, name: string, version: string, resource: string, input: string)

  datatype Result = Result(callId: string, output: string)

  /** What the provider did. */
  datatype Outcome = Output(text: string) | Failure(text: string)

  datatype Status = Pending | Succeeded(result: Result) | Failed(cause: string)

  /** A key is unique within its run. */
  datatype Slot = Slot(run: string, key: string)

  /** `claimant` remembers whose insertion created the row. */
  datatype Row = Row(callId: string, request: Request, status: Status, claimant: nat)

  datatype Reservation = Reservation(callId: string, execute: bool, result: Option<Result>, error: string)

  function ReserveRow(table: map<Slot, Row>, slot: Slot, request: Request, id: string, claimant: nat): (map<Slot, Row>, Reply<Reservation>) {
    var row := if slot in table then table[slot] else Row(id, request, Pending, claimant);
    if row.request != request then (table, Rejected(ErrIdempotencyConflict))
    else
      (table[slot := row],
       Accepted(Reservation(row.callId, row.status.Pending? && row.callId == id,
                            if row.status.Succeeded? then Some(row.status.result) else None,
                            if row.status.Failed? then row.status.cause else "")))
  }

  /** An empty cause is recorded as a success. */
  function Recorded(callId: string, outcome: Outcome): Status {
    match outcome
    case Output(text) => Succeeded(Result(callId, text))
    case Failure(text) => if text != "" then Failed(text) else Succeeded(Result("", ""))
  }

  predicate Finishes(row: Row, slot: Slot, run: string, callId: string) {
    slot.run == run && row.callId == callId && row.status.Pending?
  }

  function FinishRow(table: map<Slot, Row>, run: string, callId: string, outcome: Outcome): map<Slot, Row> {
    map slot | slot in table ::
      if Finishes(table[slot], slot, run, callId) then table[slot].(status := Recorded(callId, outcome)) else table[slot]
  }

  // ------------------------------------------------------------------ the system

  /** The answer of one call. */
  datatype Answer = Returned(result: Result) | Errored(text: string)

  /** What an invoker knows of a key; `done` is Some once the channel is closed. */
  datatype CallState = CallState(name: string, version: string, resource: string, done: Option<Answer>, closes: nat, owner: nat)

  datatype Phase =
    | Arrived | Waiting | Registered | Executing(callId: string) | Executed(callId: string, outcome: Outcome)
    | Closing(answer: Answer) | Answered(answer: Answer)

  /** One call on one invoker, between two of its atomic sections. */
  datatype Thread = Thread(invoker: nat, key: string, request: Request, phase: Phase)

  /** A line of an invoker's `calls` map. */
  datatype Line = Line(invoker: nat, key: string)

  datatype System = System(
    runs: map<nat, string>, calls: map<Line, CallState>, table: map<Slot, Row>,
    invoked: map<Slot, seq<Outcome>>, threads: map<nat, Thread>)

  /** What the network and the lease check do to one request. */
  datatype Link = Through | Declined(text: string) | RequestLost | ReplyLost

  datatype Action =
    | Arrive(t: nat, invoker: nat, key: string, request: Request)
    | Lock(t: nat)
    | Await(t: nat)
    | GiveUp(t: nat)
    | Reserve(t: nat, id: string, link: Link)
    | Invoke(t: nat, outcome: Outcome)
    | Finish(t: nat, link: Link)
    | Close(t: nat)

  function SlotOf(th: Thread): Slot { Slot(th.request.run, th.key) }

  function LineOf(th: Thread): Line { Line(th.invoker, th.key) }

  function Invocations(s: System, slot: Slot): seq<Outcome> {
    if slot in s.invoked then s.invoked[slot] else []
  }

  /** Between registering and closing, a thread is the one its key waits for. */
  predicate Owning(phase: Phase) {
    phase.Registered? || phase.Executing? || phase.Executed? || phase.Closing?
  }

  function Move(s: System, t: nat, phase: Phase): System
    requires t in s.threads
  {
    s.(threads := s.threads[t := s.threads[t].(phase := phase)])
  }

  function AfterReserve(reply: Reply<Reservation>): Phase {
    match reply
    case Rejected(_) => Closing(Errored("idempotency conflict"))
    case Accepted(r) =>
      if r.execute then Executing(r.callId)
      else if r.error != "" then Closing(Errored(r.error))
      else if r.result.None? then Closing(Errored("still pending"))
      else Closing(Returned(r.result.value))
  }

  function AnswerOf(callId: string, outcome: Outcome, finished: bool): Answer {
    match outcome
    case Failure(text) => Errored(text)
    case Output(text) => if finished then Returned(Result(callId, text)) else Errored("not recorded")
  }

  function LockPhase(s: System, th: Thread): Phase {
    if LineOf(th) !in s.calls then Registered
    else
      var previous := s.calls[LineOf(th)];
      if previous.name != th.request.name || previous.version != th.request.version || previous.resource != th.request.resource
      then Answered(Errored("idempotency conflict"))
      else Waiting
  }

  function LockCall(s: System, t: nat): System
    requires t in s.threads
  {
    var th := s.threads[t];
    var registered := CallState(th.request.name, th.request.version, th.request.resource, None, 0, t);
    s.(threads := s.threads[t := th.(phase := LockPhase(s, th))],
       calls := if LineOf(th) in s.calls then s.calls else s.calls[LineOf(th) := registered])
  }

  function ReserveCall(s: System, t: nat, id: string, link: Link): System
    requires t in s.threads
  {
    var th := s.threads[t];
    match link
    case Declined(text) => Move(s, t, Closing(Errored(text)))
    case RequestLost => Move(s, t, Closing(Errored("network")))
    case _ =>
      var (table, reply) := ReserveRow(s.table, SlotOf(th), th.request, id, t);
      Move(s, t, if link.ReplyLost? then Closing(Errored("network")) else AfterReserve(reply)).(table := table)
  }

  predicate AnyFinishes(table: map<Slot, Row>, run: string, callId: string) {
    exists slot :: slot in table && Finishes(table[slot], slot, run, callId)
  }

  function FinishStored(s: System, t: nat, link: Link): System
    requires t in s.threads && s.threads[t].phase.Executed?
  {
    var th := s.threads[t];
    var served := link.Through? || link.ReplyLost?;
    var recorded := link.Through? && AnyFinishes(s.table, th.request.run, th.phase.callId);
    Move(s, t, Closing(AnswerOf(th.phase.callId, th.phase.outcome, recorded)))
      .(table := if served then FinishRow(s.table, th.request.run, th.phase.callId, th.phase.outcome) else s.table)
  }

  function InvokeCall(s: System, t: nat, outcome: Outcome): System
    requires t in s.threads && s.threads[t].phase.Executing?
  {
    var slot := SlotOf(s.threads[t]);
    Move(s, t, Executed(s.threads[t].phase.callId, outcome)).(invoked := s.invoked[slot := Invocations(s, slot) + [outcome]])
  }

  function CloseCall(s: System, t: nat): System
    requires t in s.threads && s.threads[t].phase.Closing? && LineOf(s.threads[t]) in s.calls
  {
    var th := s.threads[t];
    var state := s.calls[LineOf(th)];
    Move(s, t, Answered(th.phase.answer)).(calls := s.calls[LineOf(th) := state.(done := Some(th.phase.answer), closes := state.closes + 1)])
  }

  predicate Enabled(s: System, a: Action) {
    match a
    case Arrive(t, invoker, _, request) => t !in s.threads && invoker in s.runs && request.run == s.runs[invoker]
    case Lock(t) => t in s.threads && s.threads[t].phase.Arrived?
    case Await(t) =>
      t in s.threads && s.threads[t].phase.Waiting? && LineOf(s.threads[t]) in s.calls && s.calls[LineOf(s.threads[t])].done.Some?
    case GiveUp(t) => t in s.threads && s.threads[t].phase.Waiting?
    case Reserve(t, id, _) => t in s.threads && s.threads[t].phase.Registered? && forall slot :: slot in s.table ==> s.table[slot].callId != id
    case Invoke(t, _) => t in s.threads && s.threads[t].phase.Executing?
    case Finish(t, _) => t in s.threads && s.threads[t].phase.Executed?
    case Close(t) => t in s.threads && s.threads[t].phase.Closing? && LineOf(s.threads[t]) in s.calls
  }

  function Act(s: System, a: Action): System
    requires Enabled(s, a)
  {
    match a
    case Arrive(t, invoker, key, request) => s.(threads := s.threads[t := Thread(invoker, key, request, Arrived)])
    case Lock(t) => LockCall(s, t)
    case Await(t) => Move(s, t, Answered(s.calls[LineOf(s.threads[t])].done.value))
    case GiveUp(t) => Move(s, t, Answered(Errored("context ended")))
    case Reserve(t, id, link) => ReserveCall(s, t, id, link)
    case Invoke(t, outcome) => InvokeCall(s, t, outcome)
    case Finish(t, link) => FinishStored(s, t, link)
    case Close(t) => CloseCall(s, t)
  }

  // ------------------------------------------------------------------ the invariant

  /** A success can only stem from the one invocation of its slot. */
  predicate Earned(s: System, slot: Slot, answer: Answer) {
    answer.Returned? ==>
      slot in s.table && |Invocations(s, slot)| == 1 &&
      Recorded(s.table[slot].callId, Invocations(s, slot)[0]) == Succeeded(answer.result)
  }

  predicate RowSound(s: System, slot: Slot) {
    && |Invocations(s, slot)| <= 1
    && (slot !in s.table ==> Invocations(s, slot) == [])
    && (slot in s.table && !s.table[slot].status.Pending? ==>
          |Invocations(s, slot)| == 1 && s.table[slot].status == Recorded(s.table[slot].callId, Invocations(s, slot)[0]))
  }

  predicate ThreadSound(s: System, t: nat, th: Thread) {
    && th.invoker in s.runs && th.request.run == s.runs[th.invoker]
    && (Owning(th.phase) ==> LineOf(th) in s.calls && s.calls[LineOf(th)].owner == t && s.calls[LineOf(th)].done.None?)
    && match th.phase
       case Executing(callId) =>
         SlotOf(th) in s.table && s.table[SlotOf(th)].callId == callId && s.table[SlotOf(th)].claimant == t
         && s.table[SlotOf(th)].request == th.request && Invocations(s, SlotOf(th)) == []
       case Executed(callId, outcome) =>
         SlotOf(th) in s.table && s.table[SlotOf(th)].callId == callId && s.table[SlotOf(th)].claimant == t
         && s.table[SlotOf(th)].request == th.request && Invocations(s, SlotOf(th)) == [outcome]
       case Closing(answer) => Earned(s, SlotOf(th), answer)
       case Answered(answer) => Earned(s, SlotOf(th), answer)
       case _ => true
  }

  predicate LineSound(s: System, line: Line, call: CallState) {
    && call.owner in s.threads && LineOf(s.threads[call.owner]) == line
    && (call.done.None? ==> call.closes == 0 && Owning(s.threads[call.owner].phase))
    && (call.done.Some? ==> call.closes == 1 && s.threads[call.owner].phase == Answered(call.done.value))
  }

  /** Until its outcome is stored, the row of an executed call is pending. */
  predicate StillPending(s: System, th: Thread) {
    th.phase.Executed? ==> SlotOf(th) in s.table && s.table[SlotOf(th)].status.Pending?
  }

  ghost predicate Inv(s: System) {
    && (forall slot :: RowSound(s, slot))
    && (forall t :: t in s.threads ==> StillPending(s, s.threads[t]))
    && IdsDistinct(s.table)
    && (forall t :: t in s.threads ==> ThreadSound(s, t, s.threads[t]))
    && (forall line :: line in s.calls ==> LineSound(s, line, s.calls[line]))
  }

  // ------------------------------------------------------------------ every action keeps it

  /** What later states keep of a slot: its row's identity, and the invocations made for it. */
  ghost predicate SlotStays(s: System, s': System, slot: Slot) {
    && Invocations(s', slot) == Invocations(s, slot)
    && (slot in s.table ==> slot in s'.table && SameRow(s.table[slot], s'.table[slot]))
  }

  predicate SameRow(row: Row, row': Row) {
    row'.callId == row.callId && row'.request == row.request && row'.claimant == row.claimant
  }

  /** Everything about a thread's move but its new phase. */
  ghost predicate Moves(s: System, s': System, t: nat) {
    s'.runs == s.runs && t in s.threads && t in s'.threads
    && s'.threads == s.threads[t := s.threads[t].(phase := s'.threads[t].phase)]
  }

  lemma LockFrame(s: System, t: nat)
    requires t in s.threads
    ensures Moves(s, LockCall(s, t), t) && LockCall(s, t).table == s.table && LockCall(s, t).invoked == s.invoked
    ensures forall line :: line in s.calls ==> line in LockCall(s, t).calls && LockCall(s, t).calls[line] == s.calls[line]
  {
  }

  lemma ReserveFrame(s: System, t: nat, id: string, link: Link, slot: Slot)
    requires t in s.threads
    ensures var s' := ReserveCall(s, t, id, link);
      Moves(s, s', t) && s'.calls == s.calls && s'.invoked == s.invoked &&
      (slot in s.table ==> slot in s'.table && s'.table[slot] == s.table[slot])
  {
    hide AfterReserve;
  }

  lemma InvokeFrame(s: System, t: nat, outcome: Outcome, slot: Slot)
    requires t in s.threads && s.threads[t].phase.Executing?
    ensures var s' := InvokeCall(s, t, outcome);
      Moves(s, s', t) && s'.calls == s.calls && s'.table == s.table &&
      Invocations(s', slot) == if slot == SlotOf(s.threads[t]) then Invocations(s, slot) + [outcome] else Invocations(s, slot)
  {
  }

  lemma FinishFrame(s: System, t: nat, link: Link, slot: Slot)
    requires t in s.threads && s.threads[t].phase.Executed?
    ensures var s' := FinishStored(s, t, link);
      Moves(s, s', t) && s'.calls == s.calls && s'.invoked == s.invoked &&
      (slot in s.table ==> slot in s'.table && SameRow(s.table[slot], s'.table[slot]))
  {
    hide AnyFinishes, AnswerOf, Recorded, Finishes;
  }

  lemma CloseFrame(s: System, t: nat)
    requires t in s.threads && s.threads[t].phase.Closing? && LineOf(s.threads[t]) in s.calls
    ensures var s' := CloseCall(s, t);
      Moves(s, s', t) && s'.table == s.table && s'.invoked == s.invoked && s'.calls.Keys == s.calls.Keys &&
      forall line :: line in s.calls && line != LineOf(s.threads[t]) ==> line in s'.calls && s'.calls[line] == s.calls[line]
  {
  }

  /** Only the thread that runs a call adds an invocation, and only to its own slot. */
  lemma ActSlot(s: System, a: Action, slot: Slot)
    requires Enabled(s, a) && (a.Invoke? ==> ThreadSound(s, a.t, s.threads[a.t]))
    ensures SlotStays(s, Act(s, a), slot) || (a.Invoke? && slot == SlotOf(s.threads[a.t]) && Invocations(s, slot) == [])
  {
    hide LockCall, ReserveCall, InvokeCall, FinishStored, CloseCall, Invocations;
    match a {
      case Lock(t) => LockFrame(s, t); SameInvocations(s, Act(s, a), slot);
      case Reserve(t, id, link) => ReserveFrame(s, t, id, link, slot); SameInvocations(s, Act(s, a), slot);
      case Invoke(t, outcome) => InvokeFrame(s, t, outcome, slot);
      case Finish(t, link) => FinishFrame(s, t, link, slot); SameInvocations(s, Act(s, a), slot);
      case Close(t) => CloseFrame(s, t); SameInvocations(s, Act(s, a), slot);
      case _ => SameInvocations(s, Act(s, a), slot);
    }
  }

  lemma SameInvocations(s: System, s': System, slot: Slot)
    requires s'.invoked == s.invoked
    ensures Invocations(s', slot) == Invocations(s, slot)
  {
  }

  // ------------------------------------------------------------------ rows

  ghost predicate IdsDistinct(table: map<Slot, Row>) {
    forall x, y :: x in table && y in table && table[x].callId == table[y].callId ==> x == y
  }

  lemma ReserveKeepsRow(s: System, t: nat, id: string, link: Link, slot: Slot)
    requires t in s.threads && RowSound(s, slot)
    ensures RowSound(ReserveCall(s, t, id, link), slot)
  {
    hide AfterReserve;
  }

  lemma FinishKeepsRow(s: System, t: nat, link: Link, slot: Slot)
    requires t in s.threads && s.threads[t].phase.Executed? && ThreadSound(s, t, s.threads[t])
    requires RowSound(s, slot) && IdsDistinct(s.table)
    ensures RowSound(FinishStored(s, t, link), slot)
  {
    hide AnyFinishes, AnswerOf;
  }

  lemma RowKept(s: System, a: Action, slot: Slot)
    requires Enabled(s, a) && RowSound(s, slot) && IdsDistinct(s.table)
    requires a.t in s.threads ==> ThreadSound(s, a.t, s.threads[a.t]) && RowSound(s, SlotOf(s.threads[a.t]))
    ensures RowSound(Act(s, a), slot)
  {
    hide LockCall, ReserveCall, InvokeCall, FinishStored, CloseCall, Invocations, Recorded, IdsDistinct;
    match a {
      case Lock(t) => LockFrame(s, t); SameInvocations(s, Act(s, a), slot);
      case Reserve(t, id, link) => ReserveKeepsRow(s, t, id, link, slot);
      case Invoke(t, outcome) => InvokeFrame(s, t, outcome, slot); InvokedPending(s, t);
      case Finish(t, link) => FinishKeepsRow(s, t, link, slot);
      case Close(t) => CloseFrame(s, t); SameInvocations(s, Act(s, a), slot);
      case _ => SameInvocations(s, Act(s, a), slot);
    }
  }

  /** While a call executes, its row is pending. */
  lemma InvokedPending(s: System, t: nat)
    requires t in s.threads && s.threads[t].phase.Executing? && ThreadSound(s, t, s.threads[t])
    requires RowSound(s, SlotOf(s.threads[t]))
    ensures s.table[SlotOf(s.threads[t])].status.Pending?
  {
  }

  lemma ReserveIds(table: map<Slot, Row>, slot: Slot, request: Request, id: string, claimant: nat)
    requires IdsDistinct(table) && forall other :: other in table ==> table[other].callId != id
    ensures IdsDistinct(ReserveRow(table, slot, request, id, claimant).0)
  {
  }

  lemma FinishIds(table: map<Slot, Row>, run: string, callId: string, outcome: Outcome)
    requires IdsDistinct(table)
    ensures IdsDistinct(FinishRow(table, run, callId, outcome))
  {
    hide Finishes, Recorded;
  }

  lemma IdsKept(s: System, a: Action)
    requires Enabled(s, a) && IdsDistinct(s.table)
    ensures IdsDistinct(Act(s, a).table)
  {
    hide LockCall, InvokeCall, CloseCall, AfterReserve, AnyFinishes, AnswerOf, ReserveRow, FinishRow, IdsDistinct;
    match a {
      case Reserve(t, id, _) => ReserveIds(s.table, SlotOf(s.threads[t]), s.threads[t].request, id, t);
      case Finish(t, _) =>
        FinishIds(s.table, s.threads[t].request.run, s.threads[t].phase.callId, s.threads[t].phase.outcome);
      case Lock(t) => LockFrame(s, t);
      case Invoke(t, outcome) => InvokeFrame(s, t, outcome, Slot("", ""));
      case Close(t) => CloseFrame(s, t);
      case _ =>
    }
  }

  // ------------------------------------------------------------------ threads and lines

  /** A line, once there, is changed by nobody but its owner's closing. */
  lemma ActFrame(s: System, a: Action, line: Line)
    requires Enabled(s, a)
    ensures var s' := Act(s, a);
      (if a.Arrive? then s'.runs == s.runs && s'.threads == s.threads[a.t := Thread(a.invoker, a.key, a.request, Arrived)]
       else Moves(s, s', a.t)) &&
      (line in s.calls ==> line in s'.calls && (s'.calls[line] == s.calls[line] || (a.Close? && line == LineOf(s.threads[a.t]))))
  {
    hide LockCall, ReserveCall, InvokeCall, FinishStored, CloseCall, Invocations;
    var slot := Slot("", "");
    match a {
      case Lock(t) => LockFrame(s, t);
      case Reserve(t, id, link) => ReserveFrame(s, t, id, link, slot);
      case Invoke(t, outcome) => InvokeFrame(s, t, outcome, slot);
      case Finish(t, link) => FinishFrame(s, t, link, slot);
      case Close(t) => CloseFrame(s, t);
      case _ =>
    }
  }

  lemma OtherThread(s: System, a: Action, u: nat)
    requires Enabled(s, a) && u in s.threads && u != a.t && ThreadSound(s, u, s.threads[u])
    requires a.t in s.threads ==> ThreadSound(s, a.t, s.threads[a.t])
    ensures u in Act(s, a).threads && Act(s, a).threads[u] == s.threads[u] && ThreadSound(Act(s, a), u, s.threads[u])
  {
    hide Act, Recorded, Invocations;
    ActFrame(s, a, LineOf(s.threads[u]));
    ActSlot(s, a, SlotOf(s.threads[u]));
  }

  lemma OwnLock(s: System, t: nat)
    requires t in s.threads && s.threads[t].phase.Arrived? && ThreadSound(s, t, s.threads[t])
    ensures ThreadSound(LockCall(s, t), t, LockCall(s, t).threads[t])
  {
  }

  lemma OwnInvoke(s: System, t: nat, outcome: Outcome)
    requires t in s.threads && s.threads[t].phase.Executing? && ThreadSound(s, t, s.threads[t])
    ensures ThreadSound(InvokeCall(s, t, outcome), t, InvokeCall(s, t, outcome).threads[t])
  {
  }

  lemma OwnReserve(s: System, t: nat, id: string, link: Link)
    requires t in s.threads && s.threads[t].phase.Registered? && ThreadSound(s, t, s.threads[t]) && RowSound(s, SlotOf(s.threads[t]))
    requires forall slot :: slot in s.table ==> s.table[slot].callId != id
    ensures ThreadSound(ReserveCall(s, t, id, link), t, ReserveCall(s, t, id, link).threads[t])
  {
    hide Recorded;
  }

  lemma OwnFinish(s: System, t: nat, link: Link)
    requires t in s.threads && s.threads[t].phase.Executed? && ThreadSound(s, t, s.threads[t])
    ensures ThreadSound(FinishStored(s, t, link), t, FinishStored(s, t, link).threads[t])
  {
    hide AnyFinishes;
  }

  lemma OwnClose(s: System, t: nat)
    requires t in s.threads && s.threads[t].phase.Closing? && ThreadSound(s, t, s.threads[t])
    ensures ThreadSound(CloseCall(s, t), t, CloseCall(s, t).threads[t])
  {
    hide Recorded;
  }

  /** What a closed line says was earned by its owner. */
  lemma OwnAwait(s: System, t: nat)
    requires t in s.threads && s.threads[t].phase.Waiting? && LineOf(s.threads[t]) in s.calls && s.calls[LineOf(s.threads[t])].done.Some?
    requires ThreadSound(s, t, s.threads[t])
    requires LineSound(s, LineOf(s.threads[t]), s.calls[LineOf(s.threads[t])])
    requires ThreadSound(s, s.calls[LineOf(s.threads[t])].owner, s.threads[s.calls[LineOf(s.threads[t])].owner])
    ensures var s' := Move(s, t, Answered(s.calls[LineOf(s.threads[t])].done.value)); ThreadSound(s', t, s'.threads[t])
  {
    hide Recorded;
  }

  lemma OwnThread(s: System, a: Action)
    requires Enabled(s, a) && Inv(s)
    ensures a.t in Act(s, a).threads && ThreadSound(Act(s, a), a.t, Act(s, a).threads[a.t])
  {
    hide LockCall, ReserveCall, InvokeCall, FinishStored, CloseCall, Move, ThreadSound, LineSound, RowSound, IdsDistinct;
    match a {
      case Arrive(t, invoker, key, request) => OwnArrive(s, a);
      case Lock(t) => OwnLock(s, t); LockFrame(s, t);
      case Await(t) =>
        OwnerThere(s, LineOf(s.threads[t]));
        OwnAwait(s, t);
        MoveFrame(s, t, Answered(s.calls[LineOf(s.threads[t])].done.value));
      case GiveUp(t) => OwnGiveUp(s, t); MoveFrame(s, t, Answered(Errored("context ended")));
      case Reserve(t, id, link) => OwnReserve(s, t, id, link); ReserveFrame(s, t, id, link, SlotOf(s.threads[t]));
      case Invoke(t, outcome) => OwnInvoke(s, t, outcome); InvokeFrame(s, t, outcome, SlotOf(s.threads[t]));
      case Finish(t, link) => OwnFinish(s, t, link); FinishFrame(s, t, link, SlotOf(s.threads[t]));
      case Close(t) => OwnClose(s, t); CloseFrame(s, t);
    }
  }

  lemma OwnPending(s: System, a: Action)
    requires Enabled(s, a) && (a.Invoke? ==> ThreadSound(s, a.t, s.threads[a.t]) && RowSound(s, SlotOf(s.threads[a.t])))
    ensures a.t in Act(s, a).threads && StillPending(Act(s, a), Act(s, a).threads[a.t])
  {
    hide LockCall, ReserveCall, InvokeCall, FinishStored, CloseCall, Recorded;
    match a {
      case Lock(t) => LockFrame(s, t); LockPhases(s, t);
      case Reserve(t, id, link) => ReserveFrame(s, t, id, link, Slot("", "")); ReservePhases(s, t, id, link);
      case Invoke(t, outcome) => InvokedPending(s, t); InvokeFrame(s, t, outcome, Slot("", ""));
      case Finish(t, link) => FinishFrame(s, t, link, Slot("", "")); FinishPhases(s, t, link);
      case Close(t) => CloseFrame(s, t); ClosePhases(s, t);
      case _ =>
    }
  }

  /** No other call stores an outcome in this call's row. */
  lemma OtherPending(s: System, a: Action, u: nat)
    requires Enabled(s, a) && u in s.threads && u != a.t && ThreadSound(s, u, s.threads[u]) && IdsDistinct(s.table)
    requires a.t in s.threads ==> ThreadSound(s, a.t, s.threads[a.t])
    requires StillPending(s, s.threads[u])
    ensures StillPending(Act(s, a), s.threads[u])
  {
    hide LockCall, ReserveCall, InvokeCall, CloseCall, Invocations, AnswerOf, AnyFinishes, Recorded;
    var slot := SlotOf(s.threads[u]);
    match a {
      case Lock(t) => LockFrame(s, t);
      case Reserve(t, id, link) => ReserveFrame(s, t, id, link, slot);
      case Invoke(t, outcome) => InvokeFrame(s, t, outcome, slot);
      case Close(t) => CloseFrame(s, t);
      case _ =>
    }
  }

  lemma MoveFrame(s: System, t: nat, phase: Phase)
    requires t in s.threads
    ensures Moves(s, Move(s, t, phase), t)
  {
  }

  lemma OwnArrive(s: System, a: Action)
    requires Enabled(s, a) && a.Arrive?
    ensures a.t in Act(s, a).threads && ThreadSound(Act(s, a), a.t, Act(s, a).threads[a.t])
  {
  }

  lemma OwnGiveUp(s: System, t: nat)
    requires t in s.threads && ThreadSound(s, t, s.threads[t])
    ensures var s' := Move(s, t, Answered(Errored("context ended"))); t in s'.threads && ThreadSound(s', t, s'.threads[t])
  {
  }

  lemma OwnerThere(s: System, line: Line)
    requires Inv(s) && line in s.calls
    ensures LineSound(s, line, s.calls[line]) && s.calls[line].owner in s.threads
  {
    hide ThreadSound, RowSound, IdsDistinct;
    assert LineSound(s, line, s.calls[line]);
  }

  lemma ReserveOwning(s: System, t: nat, id: string, link: Link)
    requires t in s.threads
    ensures var s' := ReserveCall(s, t, id, link); t in s'.threads && Owning(s'.threads[t].phase)
  {
    hide ReserveRow;
  }

  /** A thread that owns its line stays its owner until it closes it. */
  lemma OwningStays(s: System, a: Action)
    requires Enabled(s, a) && a.t in s.threads && !a.Close? && !a.Lock?
    ensures Act(s, a).calls == s.calls && a.t in Act(s, a).threads && !s.threads[a.t].phase.Answered?
    ensures Owning(s.threads[a.t].phase) ==> Owning(Act(s, a).threads[a.t].phase)
  {
    hide LockCall, ReserveCall, CloseCall, Invocations, AnyFinishes, FinishRow, AnswerOf;
    if a.Reserve? {
      ReserveFrame(s, a.t, a.id, a.link, Slot("", ""));
      ReserveOwning(s, a.t, a.id, a.link);
    }
  }

  lemma LockLine(s: System, t: nat, line: Line)
    requires t in s.threads && s.threads[t].phase.Arrived? && line in LockCall(s, t).calls
    requires line in s.calls ==> LineSound(s, line, s.calls[line])
    ensures LineSound(LockCall(s, t), line, LockCall(s, t).calls[line])
  {
  }

  lemma CloseLine(s: System, t: nat, line: Line)
    requires t in s.threads && s.threads[t].phase.Closing? && LineOf(s.threads[t]) in s.calls && line in s.calls
    requires ThreadSound(s, t, s.threads[t]) && LineSound(s, line, s.calls[line])
    ensures line in CloseCall(s, t).calls && LineSound(CloseCall(s, t), line, CloseCall(s, t).calls[line])
  {
    hide Earned;
  }

  lemma LineKept(s: System, a: Action, line: Line)
    requires Enabled(s, a) && Inv(s) && line in Act(s, a).calls
    ensures LineSound(Act(s, a), line, Act(s, a).calls[line])
  {
    hide LockCall, ReserveCall, InvokeCall, FinishStored, CloseCall, ThreadSound, RowSound, IdsDistinct, Move;
    if a.Lock? {
      if line in s.calls { OwnerThere(s, line); }
      LockLine(s, a.t, line);
    } else if a.Close? {
      CloseFrame(s, a.t);
      OwnerThere(s, line);
      CloseLine(s, a.t, line);
    } else {
      ActFrame(s, a, line);
      if a.t in s.threads { OwningStays(s, a); }
      OwnerThere(s, line);
    }
  }

  /** Every atomic section of every call keeps the invariant. */
  lemma ActKeeps(s: System, a: Action)
    requires Inv(s) && Enabled(s, a)
    ensures Inv(Act(s, a))
  {
    hide Act, Enabled, ThreadSound, LineSound, RowSound, IdsDistinct, StillPending;
    var s' := Act(s, a);
    OwnThread(s, a);
    IdsKept(s, a);
    forall slot
      ensures RowSound(s', slot)
    {
      RowKept(s, a, slot);
    }
    forall u | u in s'.threads
      ensures ThreadSound(s', u, s'.threads[u]) && StillPending(s', s'.threads[u])
    {
      ActFrame(s, a, Line(0, ""));
      if u != a.t {
        OtherThread(s, a, u);
        OtherPending(s, a, u);
      } else {
        OwnPending(s, a);
      }
    }
    forall line | line in s'.calls
      ensures LineSound(s', line, s'.calls[line])
    {
      LineKept(s, a, line);
    }
  }

  // ------------------------------------------------------------------ whole runs

  ghost predicate Init(s: System) {
    s.calls == map[] && s.table == map[] && s.invoked == map[] && s.threads == map[]
  }

  ghost predicate IsRun(states: seq<System>, actions: seq<Action>) {
    && |states| == |actions| + 1 && Init(states[0])
    && forall i :: 0 <= i < |actions| ==> Enabled(states[i], actions[i]) && states[i + 1] == Act(states[i], actions[i])
  }

  lemma {:induction false} RunInv(states: seq<System>, actions: seq<Action>, i: nat)
    requires IsRun(states, actions) && i < |states|
    ensures Inv(states[i])
  {
    hide Inv, Act, Enabled;
    if i == 0 {
      InitInv(states[0]);
    } else {
      RunInv(states, actions, i - 1);
      ActKeeps(states[i - 1], actions[i - 1]);
    }
  }

  lemma InitInv(s: System)
    requires Init(s)
    ensures Inv(s)
  {
  }

  /** Over all interleavings of calls on any number of invokers, a key of a run executes at most once. */
  lemma AtMostOnce(states: seq<System>, actions: seq<Action>, i: nat, slot: Slot)
    requires IsRun(states, actions) && i < |states|
    ensures |Invocations(states[i], slot)| <= 1
  {
    RunInv(states, actions, i);
    hide IsRun, ThreadSound, LineSound, IdsDistinct;
    assert RowSound(states[i], slot);
  }

  /** Successful calls with one key agree, on the call they report and on its output, and the provider ran for them. */
  lemma SuccessesAgree(states: seq<System>, actions: seq<Action>, i: nat, t: nat, u: nat)
    requires IsRun(states, actions) && i < |states| && t in states[i].threads && u in states[i].threads
    requires var s := states[i];
      && SlotOf(s.threads[t]) == SlotOf(s.threads[u])
      && s.threads[t].phase.Answered? && s.threads[t].phase.answer.Returned?
      && s.threads[u].phase.Answered? && s.threads[u].phase.answer.Returned?
    ensures states[i].threads[t].phase.answer == states[i].threads[u].phase.answer
    ensures |Invocations(states[i], SlotOf(states[i].threads[t]))| == 1
  {
    RunInv(states, actions, i);
    hide IsRun, RowSound, LineSound, IdsDistinct;
    assert ThreadSound(states[i], t, states[i].threads[t]) && ThreadSound(states[i], u, states[i].threads[u]);
  }

  /** A success carries the provider's own output, unless the provider failed without saying why:
      that failure is recorded as a success, and every other call of the key returns it. */
  lemma SuccessIsTrue(states: seq<System>, actions: seq<Action>, i: nat, t: nat)
    requires IsRun(states, actions) && i < |states| && t in states[i].threads
    requires states[i].threads[t].phase.Answered? && states[i].threads[t].phase.answer.Returned?
    ensures var s := states[i]; var ran := Invocations(s, SlotOf(s.threads[t]));
      && |ran| == 1
      && (ran[0] == Output(s.threads[t].phase.answer.result.output) <==> ran[0] != Failure(""))
      && (ran[0] == Failure("") ==> s.threads[t].phase.answer.result == Result("", ""))
  {
    RunInv(states, actions, i);
    hide IsRun, RowSound, LineSound, IdsDistinct;
    assert ThreadSound(states[i], t, states[i].threads[t]);
  }

  ghost predicate Chain(states: seq<System>, actions: seq<Action>) {
    && |states| == |actions| + 1
    && forall i :: 0 <= i < |actions| ==> Enabled(states[i], actions[i]) && states[i + 1] == Act(states[i], actions[i])
  }

  lemma ChainArrive(states: seq<System>, actions: seq<Action>, t: nat, invoker: nat, key: string, request: Request)
    requires Chain(states, actions) && var s := states[|actions|]; t !in s.threads && invoker in s.runs && request.run == s.runs[invoker]
    ensures var s := states[|actions|];
      Chain(states + [s.(threads := s.threads[t := Thread(invoker, key, request, Arrived)])], actions + [Arrive(t, invoker, key, request)])
  {
    ChainGrows(states, actions, Arrive(t, invoker, key, request));
  }

  lemma ChainLock(states: seq<System>, actions: seq<Action>, t: nat)
    requires Chain(states, actions) && var s := states[|actions|]; t in s.threads && s.threads[t].phase.Arrived?
    ensures Chain(states + [LockCall(states[|actions|], t)], actions + [Lock(t)])
  {
    ChainGrows(states, actions, Lock(t));
  }

  lemma ChainReserve(states: seq<System>, actions: seq<Action>, t: nat, id: string)
    requires Chain(states, actions) && var s := states[|actions|]; t in s.threads && s.threads[t].phase.Registered?
    requires forall slot :: slot in states[|actions|].table ==> states[|actions|].table[slot].callId != id
    ensures Chain(states + [ReserveCall(states[|actions|], t, id, Through)], actions + [Reserve(t, id, Through)])
  {
    ChainGrows(states, actions, Reserve(t, id, Through));
  }

  lemma ChainRun(states: seq<System>, actions: seq<Action>, t: nat, outcome: Outcome)
    requires Chain(states, actions) && var s := states[|actions|]; t in s.threads && s.threads[t].phase.Executing?
    ensures Chain(states + [InvokeCall(states[|actions|], t, outcome)], actions + [Invoke(t, outcome)])
  {
    ChainGrows(states, actions, Invoke(t, outcome));
  }

  lemma ChainFinish(states: seq<System>, actions: seq<Action>, t: nat)
    requires Chain(states, actions) && var s := states[|actions|]; t in s.threads && s.threads[t].phase.Executed?
    ensures Chain(states + [FinishStored(states[|actions|], t, Through)], actions + [Finish(t, Through)])
  {
    ChainGrows(states, actions, Finish(t, Through));
  }

  lemma ChainClose(states: seq<System>, actions: seq<Action>, t: nat)
    requires Chain(states, actions)
    requires var s := states[|actions|]; t in s.threads && s.threads[t].phase.Closing? && LineOf(s.threads[t]) in s.calls
    ensures Chain(states + [CloseCall(states[|actions|], t)], actions + [Close(t)])
  {
    ChainGrows(states, actions, Close(t));
  }

  lemma ChainGrows(states: seq<System>, actions: seq<Action>, a: Action)
    requires Chain(states, actions) && Enabled(states[|actions|], a)
    ensures Chain(states + [Act(states[|actions|], a)], actions + [a])
  {
    hide Act, Enabled;
  }

  /** A first call whose provider fails without a text. */
  lemma SilentFailure(request: Request) returns (states: seq<System>, actions: seq<Action>)
    requires request.run == "run"
    ensures Chain(states, actions) && |actions| == 5 && Init(states[0])
    ensures var s := states[5];
      && s.runs == map[0 := "run", 1 := "run"] && s.threads.Keys == {0} && s.calls.Keys == {Line(0, "key")}
      && s.table == map[Slot("run", "key") := Row("call", request, Succeeded(Result("", "")), 0)]
      && Invocations(s, Slot("run", "key")) == [Failure("")]
  {
    hide Act, Enabled;
    var s := System(map[0 := "run", 1 := "run"], map[], map[], map[], map[]);
    var th := Thread(0, "key", request, Arrived);
    states, actions := [s], [];
    ChainArrive(states, actions, 0, 0, "key", request);
    var s1 := s.(threads := s.threads[0 := th]);
    states, actions := states + [s1], actions + [Arrive(0, 0, "key", request)];
    ChainLock(states, actions, 0);
    var s2 := LockCall(s1, 0);
    states, actions := states + [s2], actions + [Lock(0)];
    assert s2.threads == map[0 := th.(phase := Registered)];
    ChainReserve(states, actions, 0, "call");
    var s3 := ReserveCall(s2, 0, "call", Through);
    states, actions := states + [s3], actions + [Reserve(0, "call", Through)];
    assert s3.threads == map[0 := th.(phase := Executing("call"))];
    assert s3.table == map[Slot("run", "key") := Row("call", request, Pending, 0)];
    ChainRun(states, actions, 0, Failure(""));
    var s4 := InvokeCall(s3, 0, Failure(""));
    states, actions := states + [s4], actions + [Invoke(0, Failure(""))];
    assert s4.threads == map[0 := th.(phase := Executed("call", Failure("")))];
    ChainFinish(states, actions, 0);
    var s5 := FinishStored(s4, 0, Through);
    states, actions := states + [s5], actions + [Finish(0, Through)];
    assert s5.table == map[Slot("run", "key") := Row("call", request, Succeeded(Result("", "")), 0)];
  }

  /** Another invoker then asks for the same key and is told that it succeeded. */
  lemma SilentFailureSucceeds() returns (states: seq<System>, actions: seq<Action>)
    ensures IsRun(states, actions)
    ensures var s := states[|states| - 1];
      1 in s.threads && s.threads[1].phase == Answered(Returned(Result("", "")))
      && Invocations(s, SlotOf(s.threads[1])) == [Failure("")]
  {
    hide FinishStored, InvokeCall, Act, Enabled;
    var request := Request.Request("run", "tool", "1", "", "");
    states, actions := SilentFailure(request);
    var s := states[5];
    var th := Thread(1, "key", request, Arrived);
    ChainArrive(states, actions, 1, 1, "key", request);
    var s6 := s.(threads := s.threads[1 := th]);
    states, actions := states + [s6], actions + [Arrive(1, 1, "key", request)];
    ChainLock(states, actions, 1);
    var s7 := LockCall(s6, 1);
    states, actions := states + [s7], actions + [Lock(1)];
    assert s7.threads[1] == th.(phase := Registered);
    ChainReserve(states, actions, 1, "other");
    var s8 := ReserveCall(s7, 1, "other", Through);
    states, actions := states + [s8], actions + [Reserve(1, "other", Through)];
    assert s8.threads[1] == th.(phase := Closing(Returned(Result("", ""))));
    ChainClose(states, actions, 1);
    var s9 := CloseCall(s8, 1);
    states, actions := states + [s9], actions + [Close(1)];
  }

  /** A registered key's channel is closed once when its call is over, and never before or again. */
  lemma ClosedOnce(states: seq<System>, actions: seq<Action>, i: nat, line: Line)
    requires IsRun(states, actions) && i < |states| && line in states[i].calls
    ensures var s := states[i]; var call := s.calls[line];
      && call.owner in s.threads && call.closes <= 1 && (call.closes == 1 <==> call.done.Some?)
      && (call.closes == 1 <==> s.threads[call.owner].phase.Answered?)
  {
    RunInv(states, actions, i);
    hide IsRun, RowSound, ThreadSound, IdsDistinct;
    assert LineSound(states[i], line, states[i].calls[line]);
  }

  // ------------------------------------------------------------------ what a call answers

  /** What nothing takes away: a row's identity and, once settled, its status; what ran for it; a line's owner and,
      once closed, its answer. */
  ghost predicate Lasts(s: System, s': System) {
    && (forall slot :: slot in s.table ==>
          slot in s'.table && SameRow(s.table[slot], s'.table[slot])
          && (!s.table[slot].status.Pending? ==> s'.table[slot].status == s.table[slot].status))
    && (forall slot :: Invocations(s, slot) <= Invocations(s', slot))
    && (forall line :: line in s.calls ==> line in s'.calls && SameLine(s.calls[line], s'.calls[line]))
  }

  predicate SameLine(call: CallState, call': CallState) {
    && call'.name == call.name && call'.version == call.version && call'.resource == call.resource && call'.owner == call.owner
    && (call.done.Some? ==> call'.done == call.done)
  }

  lemma RowLasts(s: System, a: Action, slot: Slot)
    requires Enabled(s, a) && slot in s.table
    ensures slot in Act(s, a).table && SameRow(s.table[slot], Act(s, a).table[slot])
    ensures !s.table[slot].status.Pending? ==> Act(s, a).table[slot].status == s.table[slot].status
  {
    hide LockCall, ReserveCall, InvokeCall, CloseCall, Invocations, AnswerOf, AnyFinishes, Recorded;
    match a {
      case Lock(t) => LockFrame(s, t);
      case Reserve(t, id, link) => ReserveFrame(s, t, id, link, slot);
      case Invoke(t, outcome) => InvokeFrame(s, t, outcome, slot);
      case Close(t) => CloseFrame(s, t);
      case _ =>
    }
  }

  lemma LineLasts(s: System, a: Action, line: Line)
    requires Enabled(s, a) && line in s.calls && (a.Close? ==> ThreadSound(s, a.t, s.threads[a.t]))
    ensures line in Act(s, a).calls && SameLine(s.calls[line], Act(s, a).calls[line])
  {
    hide LockCall, ReserveCall, InvokeCall, FinishStored, Invocations, Recorded;
    ActFrame(s, a, line);
  }

  /** Every action of every call keeps them. */
  lemma ActLasts(s: System, a: Action)
    requires Inv(s) && Enabled(s, a)
    ensures Lasts(s, Act(s, a))
  {
    hide Act, Enabled, ThreadSound, LineSound, RowSound, IdsDistinct, StillPending, SameRow, SameLine, Invocations;
    forall slot | slot in s.table
      ensures slot in Act(s, a).table && SameRow(s.table[slot], Act(s, a).table[slot])
      ensures !s.table[slot].status.Pending? ==> Act(s, a).table[slot].status == s.table[slot].status
    {
      RowLasts(s, a, slot);
    }
    NotArriving(s, a);
    forall slot
      ensures Invocations(s, slot) <= Invocations(Act(s, a), slot)
    {
      ActSlot(s, a, slot);
      StaysMeans(s, Act(s, a), slot);
    }
    forall line | line in s.calls
      ensures line in Act(s, a).calls && SameLine(s.calls[line], Act(s, a).calls[line])
    {
      LineLasts(s, a, line);
    }
  }

  lemma NotArriving(s: System, a: Action)
    requires Enabled(s, a)
    ensures a.Arrive? || a.t in s.threads
  {
  }

  lemma StaysMeans(s: System, s': System, slot: Slot)
    ensures SlotStays(s, s', slot) ==> Invocations(s', slot) == Invocations(s, slot)
  {
  }

  lemma StillLasts(s: System)
    ensures Lasts(s, s)
  {
    hide Invocations;
  }

  lemma LastsTransitive(a: System, b: System, c: System)
    requires Lasts(a, b) && Lasts(b, c)
    ensures Lasts(a, c)
  {
    hide Invocations;
  }

  /** What a stored outcome becomes: a failure without a text is kept as a success without an output. */
  predicate Stored(status: Status, callId: string, outcome: Outcome) {
    match outcome
    case Output(text) => status == Succeeded(Result(callId, text))
    case Failure(text) => status == if text == "" then Succeeded(Result("", "")) else Failed(text)
  }

  /** What the call that ran the provider answers. */
  predicate Ran(answer: Answer, callId: string, outcome: Outcome, finishing: Link) {
    match outcome
    case Failure(text) => answer == Errored(text)
    case Output(text) =>
      if finishing.Through? then answer == Returned(Result(callId, text)) else answer == Errored("not recorded")
  }

  /** What a call answers that found the row of another one. */
  predicate Repeats(answer: Answer, row: Row, request: Request) {
    if row.request != request then answer == Errored("idempotency conflict")
    else
      || answer == Errored("still pending")
      || (row.status.Succeeded? && answer == Returned(row.status.result))
      || (row.status.Failed? && answer == Errored(row.status.cause))
  }

  /** What the first call of a key on its invoker answers; `id` is the identifier that it drew. */
  ghost predicate OwnAnswer(s: System, th: Thread, id: string, reserving: Link, outcome: Outcome, finishing: Link, answer: Answer) {
    match reserving
    case Declined(text) => answer == Errored(text)
    case RequestLost => answer == Errored("network")
    case ReplyLost => answer == Errored("network")
    case Through =>
      var slot := SlotOf(th);
      slot in s.table &&
      if s.table[slot].callId == id then
        && s.table[slot].request == th.request && Invocations(s, slot) == [outcome]
        && Ran(answer, id, outcome, finishing)
        && (finishing.Through? || finishing.ReplyLost? ==> Stored(s.table[slot].status, id, outcome))
      else Repeats(answer, s.table[slot], th.request)
  }

  /** What a later call of a key on one invoker answers. */
  ghost predicate JoinedAnswer(call: CallState, request: Request, answer: Answer) {
    if call.name != request.name || call.version != request.version || call.resource != request.resource
    then answer == Errored("idempotency conflict")
    else answer == Errored("context ended") || call.done == Some(answer)
  }

  ghost predicate PhaseAlong(s: System, th: Thread, call: CallState, t: nat, id: string, reserving: Link, outcome: Outcome, finishing: Link) {
    match th.phase
    case Arrived => true
    case Waiting =>
      call.owner != t && call.name == th.request.name && call.version == th.request.version && call.resource == th.request.resource
    case Registered => call.owner == t
    case Executing(callId) => call.owner == t && reserving.Through? && callId == id
    case Executed(callId, ran) => call.owner == t && reserving.Through? && callId == id && ran == outcome
    case Closing(answer) => call.owner == t && OwnAnswer(s, th, id, reserving, outcome, finishing, answer)
    case Answered(answer) =>
      if call.owner == t then OwnAnswer(s, th, id, reserving, outcome, finishing, answer)
      else JoinedAnswer(call, th.request, answer)
  }

  /** How far a call has come, and what it will answer or has answered. */
  ghost predicate Along(s: System, t: nat, id: string, reserving: Link, outcome: Outcome, finishing: Link)
    requires t in s.threads
  {
    var th := s.threads[t];
    th.phase.Arrived? ||
    (LineOf(th) in s.calls && PhaseAlong(s, th, s.calls[LineOf(th)], t, id, reserving, outcome, finishing))
  }

  lemma OwnAnswerLasts(s: System, s': System, th: Thread, id: string, reserving: Link, outcome: Outcome, finishing: Link, answer: Answer)
    requires Lasts(s, s') && |Invocations(s', SlotOf(th))| <= 1
    requires OwnAnswer(s, th, id, reserving, outcome, finishing, answer)
    ensures OwnAnswer(s', th, id, reserving, outcome, finishing, answer)
  {
    hide Invocations, Ran, SameLine;
    assert Invocations(s, SlotOf(th)) <= Invocations(s', SlotOf(th));
  }

  lemma LineStill(s: System, s': System, line: Line)
    requires Lasts(s, s') && line in s.calls
    ensures line in s'.calls && SameLine(s.calls[line], s'.calls[line])
  {
    hide SameRow, SameLine, Invocations;
  }

  lemma PhaseLasts(s: System, s': System, th: Thread, call: CallState, call': CallState, t: nat,
                   id: string, reserving: Link, outcome: Outcome, finishing: Link)
    requires SameLine(call, call')
    requires forall answer :: OwnAnswer(s, th, id, reserving, outcome, finishing, answer) ==>
               OwnAnswer(s', th, id, reserving, outcome, finishing, answer)
    requires PhaseAlong(s, th, call, t, id, reserving, outcome, finishing)
    ensures PhaseAlong(s', th, call', t, id, reserving, outcome, finishing)
  {
    hide OwnAnswer;
  }

  lemma AlongLasts(s: System, s': System, t: nat, id: string, reserving: Link, outcome: Outcome, finishing: Link)
    requires Lasts(s, s') && t in s.threads && t in s'.threads && s'.threads[t] == s.threads[t]
    requires forall slot :: |Invocations(s', slot)| <= 1
    requires Along(s, t, id, reserving, outcome, finishing)
    ensures Along(s', t, id, reserving, outcome, finishing)
  {
    hide Invocations, OwnAnswer, PhaseAlong, Lasts, SameLine;
    var th := s.threads[t];
    if !th.phase.Arrived? {
      LineStill(s, s', LineOf(th));
      forall answer | OwnAnswer(s, th, id, reserving, outcome, finishing, answer)
        ensures OwnAnswer(s', th, id, reserving, outcome, finishing, answer)
      {
        OwnAnswerLasts(s, s', th, id, reserving, outcome, finishing, answer);
      }
      PhaseLasts(s, s', th, s.calls[LineOf(th)], s'.calls[LineOf(th)], t, id, reserving, outcome, finishing);
    }
  }

  lemma OneInvocation(s: System)
    requires Inv(s)
    ensures forall slot :: |Invocations(s, slot)| <= 1
  {
    hide Invocations, ThreadSound, LineSound, IdsDistinct, StillPending;
    assert forall slot :: RowSound(s, slot) ==> |Invocations(s, slot)| <= 1;
  }

  lemma OwnerIsOther(s: System, t: nat, line: Line)
    requires Inv(s) && t in s.threads && s.threads[t].phase.Arrived? && line in s.calls
    ensures s.calls[line].owner != t
  {
    hide RowSound, ThreadSound, IdsDistinct, StillPending;
    assert LineSound(s, line, s.calls[line]);
  }

  lemma Locked(s: System, t: nat)
    requires t in s.threads
    ensures var th, s' := s.threads[t], LockCall(s, t);
      && t in s'.threads && s'.threads[t] == th.(phase := LockPhase(s, th)) && LineOf(th) in s'.calls
      && (if LineOf(th) in s.calls then s'.calls[LineOf(th)] == s.calls[LineOf(th)] else s'.calls[LineOf(th)].owner == t)
  {
    hide LockPhase;
  }

  lemma AlongLock(s: System, t: nat, id: string, reserving: Link, outcome: Outcome, finishing: Link)
    requires Inv(s) && t in s.threads && s.threads[t].phase.Arrived?
    ensures t in LockCall(s, t).threads && Along(LockCall(s, t), t, id, reserving, outcome, finishing)
  {
    hide Inv, OwnAnswer, LockCall;
    Locked(s, t);
    if LineOf(s.threads[t]) in s.calls { OwnerIsOther(s, t, LineOf(s.threads[t])); }
  }

  lemma AlongReserve(s: System, t: nat, id: string, reserving: Link, outcome: Outcome, finishing: Link)
    requires Inv(s) && Enabled(s, Reserve(t, id, reserving)) && Along(s, t, id, reserving, outcome, finishing)
    ensures t in ReserveCall(s, t, id, reserving).threads
    ensures Along(ReserveCall(s, t, id, reserving), t, id, reserving, outcome, finishing)
  {
    hide RowSound, ThreadSound, LineSound, IdsDistinct, StillPending, Invocations, Ran, Stored;
  }

  lemma AlongInvoke(s: System, t: nat, id: string, reserving: Link, outcome: Outcome, finishing: Link)
    requires Inv(s) && t in s.threads && s.threads[t].phase.Executing? && Along(s, t, id, reserving, outcome, finishing)
    ensures t in InvokeCall(s, t, outcome).threads && Along(InvokeCall(s, t, outcome), t, id, reserving, outcome, finishing)
  {
    hide RowSound, ThreadSound, LineSound, IdsDistinct, StillPending, OwnAnswer;
  }

  lemma AlongFinish(s: System, t: nat, id: string, reserving: Link, outcome: Outcome, finishing: Link)
    requires Inv(s) && t in s.threads && s.threads[t].phase.Executed? && Along(s, t, id, reserving, outcome, finishing)
    ensures t in FinishStored(s, t, finishing).threads
    ensures Along(FinishStored(s, t, finishing), t, id, reserving, outcome, finishing)
  {
    hide RowSound, LineSound, IdsDistinct;
    assert ThreadSound(s, t, s.threads[t]) && StillPending(s, s.threads[t]);
    var slot := SlotOf(s.threads[t]);
    assert Finishes(s.table[slot], slot, s.threads[t].request.run, id);
  }

  lemma AlongClose(s: System, t: nat, id: string, reserving: Link, outcome: Outcome, finishing: Link)
    requires t in s.threads && s.threads[t].phase.Closing? && Along(s, t, id, reserving, outcome, finishing)
    ensures t in CloseCall(s, t).threads && Along(CloseCall(s, t), t, id, reserving, outcome, finishing)
  {
    hide Ran, Stored, Repeats;
    SameInvocations(s, CloseCall(s, t), SlotOf(s.threads[t]));
  }

  function Leaving(s: System, t: nat): (a: Action)
    requires t in s.threads && s.threads[t].phase.Waiting?
    ensures Enabled(s, a) && a.t == t && (a.Await? || a.GiveUp?)
  {
    if LineOf(s.threads[t]) in s.calls && s.calls[LineOf(s.threads[t])].done.Some? then Await(t) else GiveUp(t)
  }

  lemma AlongLeave(s: System, t: nat, id: string, reserving: Link, outcome: Outcome, finishing: Link)
    requires t in s.threads && s.threads[t].phase.Waiting? && Along(s, t, id, reserving, outcome, finishing)
    ensures t in Act(s, Leaving(s, t)).threads && Along(Act(s, Leaving(s, t)), t, id, reserving, outcome, finishing)
  {
    hide OwnAnswer;
  }

  /** A call's own actions are of this kind. */
  predicate Plans(a: Action, id: string, reserving: Link, outcome: Outcome, finishing: Link) {
    match a
    case Reserve(_, i, link) => i == id && link == reserving
    case Invoke(_, o) => o == outcome
    case Finish(_, link) => link == finishing
    case _ => true
  }

  lemma OwnStep(s: System, a: Action, id: string, reserving: Link, outcome: Outcome, finishing: Link)
    requires Inv(s) && Enabled(s, a) && !a.Arrive? && Plans(a, id, reserving, outcome, finishing)
    requires Along(s, a.t, id, reserving, outcome, finishing)
    ensures a.t in Act(s, a).threads && Along(Act(s, a), a.t, id, reserving, outcome, finishing)
  {
    hide Inv, LockCall, ReserveCall, InvokeCall, FinishStored, CloseCall, OwnAnswer, Along;
    match a {
      case Lock(t) => AlongLock(s, t, id, reserving, outcome, finishing);
      case Reserve(t, _, _) => AlongReserve(s, t, id, reserving, outcome, finishing);
      case Invoke(t, _) => AlongInvoke(s, t, id, reserving, outcome, finishing);
      case Finish(t, _) => AlongFinish(s, t, id, reserving, outcome, finishing);
      case Close(t) => AlongClose(s, t, id, reserving, outcome, finishing);
      case Await(t) => AlongLeave(s, t, id, reserving, outcome, finishing);
      case GiveUp(t) => GivenUp(s, t, id, reserving, outcome, finishing);
    }
  }

  lemma GivenUp(s: System, t: nat, id: string, reserving: Link, outcome: Outcome, finishing: Link)
    requires t in s.threads && s.threads[t].phase.Waiting? && Along(s, t, id, reserving, outcome, finishing)
    ensures t in Act(s, GiveUp(t)).threads && Along(Act(s, GiveUp(t)), t, id, reserving, outcome, finishing)
  {
    hide OwnAnswer;
  }

  /** The reservation, the outcome and the link of the last word that a call got in a run, as far as it got any. */
  ghost predicate PlannedBy(actions: seq<Action>, n: nat, t: nat, id: string, reserving: Link, outcome: Outcome, finishing: Link) {
    n <= |actions| && forall i :: 0 <= i < n && actions[i].t == t ==> Plans(actions[i], id, reserving, outcome, finishing)
  }

  /** Over all interleavings, what a call answers is decided by what its own reservation, provider and link did, by the row
      it found, and by the call that it joined. */
  lemma {:induction false} AnswerFollows(states: seq<System>, actions: seq<Action>, n: nat, t: nat,
                                         id: string, reserving: Link, outcome: Outcome, finishing: Link)
    requires IsRun(states, actions) && n < |states| && t in states[n].threads
    requires PlannedBy(actions, n, t, id, reserving, outcome, finishing)
    ensures Along(states[n], t, id, reserving, outcome, finishing)
  {
    hide Inv, Act, Enabled, Along, Lasts, Plans;
    if n > 0 {
      var m := n - 1;
      var a := actions[m];
      RunInv(states, actions, m);
      RunInv(states, actions, n);
      if t in states[m].threads {
        AnswerFollows(states, actions, m, t, id, reserving, outcome, finishing);
        if a.t == t {
          NotAgain(states[m], a);
          OwnStep(states[m], a, id, reserving, outcome, finishing);
        } else {
          ActLasts(states[m], a);
          OthersPhase(states[m], a, t);
          OneInvocation(states[n]);
          AlongLasts(states[m], states[n], t, id, reserving, outcome, finishing);
        }
      } else {
        JustArrived(states[m], a, t, id, reserving, outcome, finishing);
      }
    }
  }

  lemma NotAgain(s: System, a: Action)
    requires Enabled(s, a) && a.t in s.threads
    ensures !a.Arrive?
  {
  }

  lemma OthersPhase(s: System, a: Action, t: nat)
    requires Enabled(s, a) && t in s.threads && a.t != t
    ensures t in Act(s, a).threads && Act(s, a).threads[t] == s.threads[t]
  {
    hide Act;
    ActFrame(s, a, Line(0, ""));
  }

  lemma JustArrived(s: System, a: Action, t: nat, id: string, reserving: Link, outcome: Outcome, finishing: Link)
    requires Enabled(s, a) && t !in s.threads && t in Act(s, a).threads
    ensures Along(Act(s, a), t, id, reserving, outcome, finishing)
  {
    hide LockCall, ReserveCall, InvokeCall, FinishStored, CloseCall;
    ActFrame(s, a, Line(0, ""));
  }

  /** A call whose row was its own is answered with what its provider did: its output as a success once it was stored,
      its failure in the provider's words. */
  lemma ProviderIsHeard(states: seq<System>, actions: seq<Action>, n: nat, t: nat, id: string, outcome: Outcome)
    requires IsRun(states, actions) && n < |states| && t in states[n].threads && states[n].threads[t].phase.Answered?
    requires PlannedBy(actions, n, t, id, Through, outcome, Through)
    requires var s, th := states[n], states[n].threads[t];
      && LineOf(th) in s.calls && s.calls[LineOf(th)].owner == t
      && SlotOf(th) in s.table && s.table[SlotOf(th)].callId == id
    ensures states[n].threads[t].phase.answer ==
            match outcome case Output(text) => Returned(Result(id, text)) case Failure(text) => Errored(text)
    ensures states[n].table[SlotOf(states[n].threads[t])].status ==
            match outcome
            case Output(text) => Succeeded(Result(id, text))
            case Failure(text) => if text == "" then Succeeded(Result("", "")) else Failed(text)
  {
    hide IsRun;
    AnswerFollows(states, actions, n, t, id, Through, outcome, Through);
  }

  /** While a call takes no step, the others leave it where it is and keep whatever lasts. */
  lemma {:induction false} OthersRun(states: seq<System>, actions: seq<Action>, i: nat, j: nat, t: nat)
    requires IsRun(states, actions) && i <= j < |states| && t in states[i].threads
    requires forall k :: i <= k < j ==> actions[k].t != t
    ensures Lasts(states[i], states[j]) && Inv(states[j])
    ensures t in states[j].threads && states[j].threads[t] == states[i].threads[t]
    decreases j - i
  {
    hide Inv, Act, Enabled, Lasts;
    RunInv(states, actions, j);
    if i == j {
      StillLasts(states[i]);
    } else {
      OthersRun(states, actions, i, j - 1, t);
      ActLasts(states[j - 1], actions[j - 1]);
      LastsTransitive(states[i], states[j - 1], states[j]);
      OthersPhase(states[j - 1], actions[j - 1], t);
    }
  }

  // ------------------------------------------------------------------ the calls themselves

  predicate Unused(table: map<Slot, Row>, id: string) {
    forall slot :: slot in table ==> table[slot].callId != id
  }

  /** All invokers with the table they share; each method but Call is one atomic section. */
  class Capabilities {
    var runs: map<nat, string>
    var calls: map<Line, CallState>
    var table: map<Slot, Row>
    var invoked: map<Slot, seq<Outcome>>
    var threads: map<nat, Thread>

    constructor (runs: map<nat, string>)
      ensures Init(View()) && Inv(View()) && this.runs == runs
    {
      this.runs := runs;
      calls, table, invoked, threads := map[], map[], map[], map[];
      new;
      InitInv(View());
    }

    function View(): System
      reads this
    {
      System(runs, calls, table, invoked, threads)
    }

    /** Anything that other calls do meanwhile; nobody else draws this random identifier. */
    method Elsewhere(t: nat, ghost id: string)
      requires Inv(View()) && Unused(table, id)
      modifies this
      ensures Inv(View()) && Unused(table, id) && runs == old(runs) && Lasts(old(View()), View())
      ensures t in threads <==> t in old(threads)
      ensures t in threads ==> threads[t] == old(threads[t])
    {
      hide Inv, Lasts;
      StillLasts(View());
    }

    method SetPhase(t: nat, phase: Phase)
      requires t in threads
      modifies `threads
      ensures View() == Move(old(View()), t, phase)
    {
      threads := threads[t := threads[t].(phase := phase)];
    }

    /** Under the invoker's mutex: join the call that already has the key, or register as its first. */
    method Register(t: nat)
      requires Inv(View()) && Enabled(View(), Lock(t))
      modifies this
      ensures View() == Act(old(View()), Lock(t)) && Inv(View())
    {
      hide Inv;
      ActKeeps(View(), Lock(t));
      var th := threads[t];
      if LineOf(th) in calls {
        var previous := calls[LineOf(th)];
        if previous.name != th.request.name || previous.version != th.request.version || previous.resource != th.request.resource {
          SetPhase(t, Answered(Errored("idempotency conflict")));
          return;
        }
        SetPhase(t, Waiting);
      } else {
        calls := calls[LineOf(th) := CallState(th.request.name, th.request.version, th.request.resource, None, 0, t)];
        SetPhase(t, Registered);
      }
    }

    /** One transaction: insert the row unless the key has one, and read it back. */
    method ReserveCapability(slot: Slot, request: Request, id: string, claimant: nat) returns (reply: Reply<Reservation>)
      modifies `table
      ensures (table, reply) == ReserveRow(old(table), slot, request, id, claimant)
    {
      var before := table;
      if slot !in table {
        table := table[slot := Row(id, request, Pending, claimant)];
      }
      var row := table[slot];
      if row.request != request {
        table := before;
        return Rejected(ErrIdempotencyConflict);
      }
      assert table == before[slot := row];
      reply := Accepted(Reservation(row.callId, row.status.Pending? && row.callId == id,
                                    if row.status.Succeeded? then Some(row.status.result) else None,
                                    if row.status.Failed? then row.status.cause else ""));
    }

    method RequestReservation(t: nat, id: string, link: Link)
      requires Inv(View()) && Enabled(View(), Reserve(t, id, link))
      modifies this
      ensures View() == Act(old(View()), Reserve(t, id, link)) && Inv(View())
    {
      hide Inv, ReserveRow, AfterReserve;
      ActKeeps(View(), Reserve(t, id, link));
      match link {
        case Declined(text) => SetPhase(t, Closing(Errored(text)));
        case RequestLost => SetPhase(t, Closing(Errored("network")));
        case _ =>
          var reply := ReserveCapability(SlotOf(threads[t]), threads[t].request, id, t);
          SetPhase(t, if link.ReplyLost? then Closing(Errored("network")) else AfterReserve(reply));
      }
    }

    method InvokeProvider(t: nat, outcome: Outcome)
      requires Inv(View()) && Enabled(View(), Invoke(t, outcome))
      modifies this
      ensures View() == Act(old(View()), Invoke(t, outcome)) && Inv(View())
    {
      hide Inv;
      ActKeeps(View(), Invoke(t, outcome));
      var slot := SlotOf(threads[t]);
      invoked := invoked[slot := (if slot in invoked then invoked[slot] else []) + [outcome]];
      SetPhase(t, Executed(threads[t].phase.callId, outcome));
    }

    method RequestFinish(t: nat, link: Link)
      requires Inv(View()) && Enabled(View(), Finish(t, link))
      modifies this
      ensures View() == Act(old(View()), Finish(t, link)) && Inv(View())
    {
      hide Inv, FinishRow, Recorded, Finishes;
      ActKeeps(View(), Finish(t, link));
      var th := threads[t];
      var recorded := link.Through? && AnyFinishes(table, th.request.run, th.phase.callId);
      if link.Through? || link.ReplyLost? {
        table := FinishRow(table, th.request.run, th.phase.callId, th.phase.outcome);
      }
      SetPhase(t, Closing(AnswerOf(th.phase.callId, th.phase.outcome, recorded)));
    }

    /** Publishes the answer and closes the channel of the key. */
    method FinishCall(t: nat)
      requires Inv(View()) && Enabled(View(), Close(t))
      modifies this
      ensures View() == Act(old(View()), Close(t)) && Inv(View())
    {
      hide Inv;
      ActKeeps(View(), Close(t));
      var line := LineOf(threads[t]);
      calls := calls[line := calls[line].(done := Some(threads[t].phase.answer), closes := calls[line].closes + 1)];
      SetPhase(t, Answered(threads[t].phase.answer));
    }

    /** A waiting call leaves with the answer of its key, or with the end of its context. */
    method Leave(t: nat)
      requires Inv(View()) && t in threads && threads[t].phase.Waiting?
      modifies this
      ensures View() == Act(old(View()), Leaving(old(View()), t)) && Inv(View())
    {
      hide Inv;
      var line := LineOf(threads[t]);
      if line in calls && calls[line].done.Some? {
        ActKeeps(View(), Await(t));
        SetPhase(t, Answered(calls[line].done.value));
      } else {
        ActKeeps(View(), GiveUp(t));
        SetPhase(t, Answered(Errored("context ended")));
      }
    }

    /** One call from its arrival to its answer, with other calls in between any two of its sections. */
    method Call(t: nat, invoker: nat, provided: bool, grants: seq<Grant>, call: Asked, key: string, input: string,
                id: string, reserving: Link, outcome: Outcome, finishing: Link)
      returns (answer: Answer, ghost granting: Granting)
      requires Inv(View()) && Unused(table, id) && t !in threads && invoker in runs
      modifies this
      ensures Inv(View()) && (provided && key != "" ==> Decides(grants, call, granting))
      ensures !provided || key == "" || !granting.Granted? ==> View() == old(View())
      ensures !provided ==> answer == Errored("no provider")
      ensures provided && key == "" ==> answer == Errored("no key")
      ensures provided && key != "" && granting.OutOfScope? ==> answer == Errored("out of scope")
      ensures provided && key != "" && granting.NotGranted? ==> answer == Errored("not granted")
      ensures provided && key != "" && granting.Granted? ==>
                var request := Request.Request(old(runs)[invoker], call.name, granting.grant.version, call.resource, input);
                && t in threads && threads[t] == Thread(invoker, key, request, Answered(answer))
                // the answer is decided by what the call's own requests and provider did, by its row, and by the call it joined
                && Line(invoker, key) in calls
                && (if calls[Line(invoker, key)].owner == t
                    then OwnAnswer(View(), threads[t], id, reserving, outcome, finishing, answer)
                    else JoinedAnswer(calls[Line(invoker, key)], request, answer))
                && (answer.Returned? ==>
                      Earned(View(), Slot(request.run, key), answer) && |Invocations(View(), Slot(request.run, key))| == 1)
    {
      hide Inv, Act, Move, Earned, Invocations, Lasts, OwnAnswer, JoinedAnswer;
      if !provided { return Errored("no provider"), NotGranted; }
      if key == "" { return Errored("no key"), NotGranted; }
      var found := FindGrant(grants, call);
      granting := found;
      match found {
        case OutOfScope => answer := Errored("out of scope");
        case NotGranted => answer := Errored("not granted");
        case Granted(grant) =>
          answer := Carry(t, invoker, key, Request.Request(runs[invoker], grant.name, grant.version, call.resource, input),
                          id, reserving, outcome, finishing);
      }
    }

    /** From the first lock to the end of the call. */
    method Carry(t: nat, invoker: nat, key: string, request: Request, id: string, reserving: Link, outcome: Outcome, finishing: Link)
      returns (answer: Answer)
      requires Inv(View()) && Unused(table, id) && Enabled(View(), Arrive(t, invoker, key, request))
      modifies this
      ensures Inv(View()) && t in threads && threads[t] == Thread(invoker, key, request, Answered(answer))
      ensures Along(View(), t, id, reserving, outcome, finishing)
      ensures answer.Returned? ==> Earned(View(), Slot(request.run, key), answer) && |Invocations(View(), Slot(request.run, key))| == 1
    {
      hide Inv, Act, Move, Earned, Invocations, Along, Lasts;
      ActKeeps(View(), Arrive(t, invoker, key, request));
      ArriveView(View(), t, invoker, key, request);
      threads := threads[t := Thread(invoker, key, request, Arrived)];
      Join(t, id, reserving, outcome, finishing);
      if threads[t].phase.Registered? {
        Section(View(), Reserve(t, id, reserving), id, reserving, outcome, finishing);
        RequestReservation(t, id, reserving);
        Settle(t, id, reserving, outcome, finishing);
      }
      answer := threads[t].phase.answer;
      AnswerEarned(View(), t);
    }

    /** Registers the call, or joins the one that has its key and waits for it. */
    method Join(t: nat, ghost id: string, ghost reserving: Link, ghost outcome: Outcome, ghost finishing: Link)
      requires Inv(View()) && Unused(table, id) && t in threads && threads[t].phase.Arrived?
      modifies this
      ensures Inv(View()) && Unused(table, id) && t in threads && threads[t] == old(threads[t]).(phase := threads[t].phase)
      ensures threads[t].phase.Registered? || threads[t].phase.Answered?
      ensures Along(View(), t, id, reserving, outcome, finishing)
    {
      hide Inv, Act, Move, Earned, Invocations, Along, Lasts;
      Elsewhere(t, id);
      BeginsAlong(View(), t, id, reserving, outcome, finishing);
      Section(View(), Lock(t), id, reserving, outcome, finishing);
      Register(t);
      ghost var locked := View();
      Elsewhere(t, id);
      OthersLast(locked, View(), t, id, reserving, outcome, finishing);
      if threads[t].phase.Waiting? {
        Section(View(), Leaving(View(), t), id, reserving, outcome, finishing);
        LeavingTable(View(), t);
        Leave(t);
      }
    }

    /** From the reservation to the end of the call. */
    method Settle(t: nat, ghost id: string, ghost reserving: Link, outcome: Outcome, finishing: Link)
      requires Inv(View()) && t in threads && (threads[t].phase.Executing? || threads[t].phase.Closing?)
      requires Along(View(), t, id, reserving, outcome, finishing)
      modifies this
      ensures Inv(View()) && t in threads && threads[t] == old(threads[t]).(phase := threads[t].phase) && threads[t].phase.Answered?
      ensures Along(View(), t, id, reserving, outcome, finishing)
    {
      hide Inv, Act, Move, Earned, Invocations, Along, Lasts;
      if threads[t].phase.Executing? { Execute(t, id, reserving, outcome, finishing); }
      ghost var before := View();
      Meanwhile(t);
      OthersLast(before, View(), t, id, reserving, outcome, finishing);
      OwnsLine(View(), t);
      Section(View(), Close(t), id, reserving, outcome, finishing);
      FinishCall(t);
    }

    /** Runs the provider and stores its outcome. */
    method Execute(t: nat, ghost id: string, ghost reserving: Link, outcome: Outcome, finishing: Link)
      requires Inv(View()) && t in threads && threads[t].phase.Executing? && Along(View(), t, id, reserving, outcome, finishing)
      modifies this
      ensures Inv(View()) && t in threads && threads[t] == old(threads[t]).(phase := threads[t].phase) && threads[t].phase.Closing?
      ensures Along(View(), t, id, reserving, outcome, finishing)
    {
      hide Inv, Act, Move, Earned, Invocations, Along, Lasts;
      ghost var before := View();
      Meanwhile(t);
      OthersLast(before, View(), t, id, reserving, outcome, finishing);
      Section(View(), Invoke(t, outcome), id, reserving, outcome, finishing);
      InvokeProvider(t, outcome);
      before := View();
      Meanwhile(t);
      OthersLast(before, View(), t, id, reserving, outcome, finishing);
      Section(View(), Finish(t, finishing), id, reserving, outcome, finishing);
      RequestFinish(t, finishing);
    }

    method Meanwhile(t: nat)
      requires Inv(View()) && t in threads
      modifies this
      ensures Inv(View()) && t in threads && threads[t] == old(threads[t]) && Lasts(old(View()), View())
    {
      hide Inv, Lasts;
      StillLasts(View());
    }
  }

  lemma LeavingTable(s: System, t: nat)
    requires t in s.threads && s.threads[t].phase.Waiting?
    ensures Act(s, Leaving(s, t)).table == s.table
  {
  }

  /** What one section does to its own call. */
  lemma Section(s: System, a: Action, id: string, reserving: Link, outcome: Outcome, finishing: Link)
    requires Inv(s) && Enabled(s, a) && !a.Arrive? && Plans(a, id, reserving, outcome, finishing)
    requires Along(s, a.t, id, reserving, outcome, finishing)
    ensures Moves(s, Act(s, a), a.t) && Follows(Act(s, a).threads[a.t].phase, a)
    ensures Along(Act(s, a), a.t, id, reserving, outcome, finishing)
    ensures a.Lock? ==> Act(s, a).table == s.table
  {
    hide Inv, Act, Enabled, Along;
    PhaseAfter(s, a);
    OwnStep(s, a, id, reserving, outcome, finishing);
  }

  lemma BeginsAlong(s: System, t: nat, id: string, reserving: Link, outcome: Outcome, finishing: Link)
    requires t in s.threads && s.threads[t].phase.Arrived?
    ensures Along(s, t, id, reserving, outcome, finishing)
  {
  }

  lemma OthersLast(s: System, s': System, t: nat, id: string, reserving: Link, outcome: Outcome, finishing: Link)
    requires Lasts(s, s') && Inv(s') && t in s.threads && t in s'.threads && s'.threads[t] == s.threads[t]
    requires Along(s, t, id, reserving, outcome, finishing)
    ensures Along(s', t, id, reserving, outcome, finishing)
  {
    hide Inv, Lasts, Along, Invocations;
    OneInvocation(s');
    AlongLasts(s, s', t, id, reserving, outcome, finishing);
  }

  lemma ArriveView(s: System, t: nat, invoker: nat, key: string, request: Request)
    requires Enabled(s, Arrive(t, invoker, key, request))
    ensures Act(s, Arrive(t, invoker, key, request)) == s.(threads := s.threads[t := Thread(invoker, key, request, Arrived)])
  {
  }

  predicate Follows(phase: Phase, a: Action) {
    match a
    case Lock(_) => phase.Registered? || phase.Waiting? || phase.Answered?
    case Reserve(_, _, _) => phase.Executing? || phase.Closing?
    case Invoke(_, _) => phase.Executed?
    case Finish(_, _) => phase.Closing?
    case _ => phase.Answered?
  }

  /** Where each section leaves its own thread. */
  lemma PhaseAfter(s: System, a: Action)
    requires Enabled(s, a) && !a.Arrive?
    ensures Moves(s, Act(s, a), a.t) && Follows(Act(s, a).threads[a.t].phase, a)
    ensures a.Lock? ==> Act(s, a).table == s.table
  {
    hide LockCall, ReserveCall, InvokeCall, FinishStored, CloseCall, Invocations;
    var slot := Slot("", "");
    match a {
      case Lock(t) => LockFrame(s, t); LockPhases(s, t);
      case Reserve(t, id, link) => ReserveFrame(s, t, id, link, slot); ReservePhases(s, t, id, link);
      case Invoke(t, outcome) => InvokeFrame(s, t, outcome, slot); InvokePhases(s, t, outcome);
      case Finish(t, link) => FinishFrame(s, t, link, slot); FinishPhases(s, t, link);
      case Close(t) => CloseFrame(s, t); ClosePhases(s, t);
      case _ =>
    }
  }

  lemma LockPhases(s: System, t: nat)
    requires t in s.threads
    ensures t in LockCall(s, t).threads && Follows(LockCall(s, t).threads[t].phase, Lock(t))
  {
  }

  lemma ReservePhases(s: System, t: nat, id: string, link: Link)
    requires t in s.threads
    ensures var s' := ReserveCall(s, t, id, link); t in s'.threads && Follows(s'.threads[t].phase, Reserve(t, id, link))
  {
    hide ReserveRow;
  }

  lemma InvokePhases(s: System, t: nat, outcome: Outcome)
    requires t in s.threads && s.threads[t].phase.Executing?
    ensures var s' := InvokeCall(s, t, outcome); t in s'.threads && s'.threads[t].phase.Executed?
  {
  }

  lemma FinishPhases(s: System, t: nat, link: Link)
    requires t in s.threads && s.threads[t].phase.Executed?
    ensures var s' := FinishStored(s, t, link); t in s'.threads && s'.threads[t].phase.Closing?
  {
    hide AnyFinishes, FinishRow;
  }

  lemma ClosePhases(s: System, t: nat)
    requires t in s.threads && s.threads[t].phase.Closing? && LineOf(s.threads[t]) in s.calls
    ensures var s' := CloseCall(s, t); t in s'.threads && s'.threads[t].phase.Answered?
  {
  }

  lemma OwnsLine(s: System, t: nat)
    requires Inv(s) && t in s.threads && s.threads[t].phase.Closing?
    ensures LineOf(s.threads[t]) in s.calls
  {
    hide RowSound, LineSound, IdsDistinct, Earned;
    assert ThreadSound(s, t, s.threads[t]);
  }

  lemma AnswerEarned(s: System, t: nat)
    requires Inv(s) && t in s.threads && s.threads[t].phase.Answered?
    ensures Earned(s, SlotOf(s.threads[t]), s.threads[t].phase.answer)
    ensures s.threads[t].phase.answer.Returned? ==> |Invocations(s, SlotOf(s.threads[t]))| == 1
  {
    hide RowSound, LineSound, IdsDistinct;
    assert ThreadSound(s, t, s.threads[t]);
  }
}

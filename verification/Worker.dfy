/** One assignment on a node: start, emit, and report the end. */
module Worker {
  import opened Types
  import opened Identity
  import opened Numerals
  import opened RunProtocol
  import opened RunInvariants
  import opened Protocol
  import opened Behaviours
  import opened EmitOrder
  import opened World
  import opened Cancellation
  import opened Outbox
  import opened FinalReport

  /** One call of `emit` by the runtime, and what context and disk do to it. */
  datatype Emission = Emission(kind: string, payload: Payload, stop: Time, saving: Fault, removing: Fault)

  datatype Upload = Upload(id: string, readable: bool)

  /** What the runtime makes of the assignment; `unprepared` is a cause for not starting it. */
  datatype Plan = Plan(unprepared: Option<string>, emits: seq<Emission>, work: Work, trouble: string, renewal: int)
  datatype Work = Produced(result: RunResult, uploads: seq<Upload>) | Crashed(cause: string)

  datatype Outcome = Finished(result: RunResult) | FailedWith(cause: string) | RunWasCancelled | Unsure

  // ------------------------------------------------------------------ events of the runtime

  function EventAt(a: Assignment, emits: seq<Emission>, i: nat): PendingEvent
    requires i < |emits|
  {
    var text := if emits[i].payload.Json? then emits[i].payload.text else "";
    PendingEvent(a.runId, a.attemptId, a.lease, Decimal(i + 1), emits[i].kind, text)
  }

  /** The first `n` emissions as events, numbered from 1. */
  function Emissions(a: Assignment, emits: seq<Emission>, n: nat): (events: seq<PendingEvent>)
    requires n <= |emits|
    ensures |events| == n && forall i :: 0 <= i < n ==> events[i] == EventAt(a, emits, i)
  {
    seq(n, i requires 0 <= i < n => EventAt(a, emits, i))
  }

  lemma EmissionsDistinct(a: Assignment, emits: seq<Emission>, n: nat)
    requires n <= |emits|
    ensures var events := Emissions(a, emits, n);
      && (forall i, j :: 0 <= i < j < n ==> events[i].id != events[j].id)
      && (forall i :: 0 <= i < n ==> events[i].id != "")
  {
    hide Decimal;
    var events := Emissions(a, emits, n);
    forall i, j | 0 <= i < j < n
      ensures events[i].id != events[j].id
    {
      if events[i].id == events[j].id { DecimalInjective(i + 1, j + 1); }
    }
  }

  // ------------------------------------------------------------------ stages of an assignment

  function LogOf(tr: Trace, r: string): seq<Event> {
    if |tr.states| > 0 && r in Last(tr).entries then Last(tr).entries[r].log else []
  }

  ghost predicate Tokens(a: Assignment) {
    NulFree(a.attemptId) && NulFree(a.lease) && a.lease != ""
  }

  /** These events were asked for, in this order, and all but perhaps the last are in the log. */
  ghost predicate Underway(d: Durable, a: Assignment, events: seq<PendingEvent>) {
    && Tokens(a) && |d.tr.states| > 0 && a.runId in Last(d.tr).entries
    && OnlyAsked(d.asked, a.attemptId, a.lease, events)
    && InStep(LogOf(d.tr, a.runId), a.attemptId, a.lease, events)
  }

  /** The log holds exactly these events of the lease, in this order. */
  ghost predicate Emitted(d: Durable, a: Assignment, events: seq<PendingEvent>) {
    Underway(d, a, events) && FromLease(LogOf(d.tr, a.runId), a.attemptId, a.lease) == Marks(events)
  }

  /** Requests that are not events were added. */
  ghost predicate NoMoreEvents(asked: set<Packet>, asked': set<Packet>) {
    asked <= asked' && forall p :: p in asked' && p !in asked ==> !p.ask.AskAppend?
  }

  predicate SpooledFor(file: File, lease: string) {
    file.Stored? && file.event.lease == lease
  }

  ghost predicate NoneSpooled(files: map<string, File>, lease: string) {
    forall name :: name in files ==> !SpooledFor(files[name], lease)
  }

  ghost predicate AtMostOneSpooled(files: map<string, File>, lease: string) {
    forall n, m :: n in files && m in files && SpooledFor(files[n], lease) && SpooledFor(files[m], lease) ==> n == m
  }

  /** At no moment in between did the spool hold two events of the lease. */
  ghost predicate Tidy(s: Story, s': Story, lease: string) {
    && s.journal <= s'.journal && AtMostOneSpooled(s'.now.files, lease)
    && forall i :: |s.journal| <= i < |s'.journal| ==> AtMostOneSpooled(s'.journal[i].files, lease)
  }

  /** No success was reported under the lease. */
  ghost predicate NoneReported(asked: set<Packet>, lease: string) {
    forall p :: p in asked && p.lease == lease ==> !p.ask.AskComplete?
  }

  /** The assignment is the answer to claim `k`, and since then only its holder reports under its lease. */
  ghost predicate Claimed(d: Durable, a: Assignment, k: int) {
    && 0 <= k < |d.tr.ops| && Grants(d.tr.ops[k], a.runId) && d.tr.ops[k].reply.value == a
    && Civil(d.tr, k, a.lease, d.asked)
  }

  /** The assignment was claimed, and no event and no success was sent under its lease yet. */
  ghost predicate JustClaimed(d: Durable, a: Assignment, k: int) {
    && Claimed(d, a, k) && NoneReported(d.asked, a.lease)
    && (forall p :: p in d.asked && p.lease == a.lease ==> !p.ask.AskAppend?)
    && NoneSpooled(d.files, a.lease)
  }

  /** The assignment was claimed and its holder never asked for a success. */
  ghost predicate Unfinished(d: Durable, a: Assignment, k: int) {
    Claimed(d, a, k) && NoneReported(d.asked, a.lease)
  }

  lemma ClaimGives(s: State, op: Op, s': State, a: Assignment)
    requires Inv(s) && Next(s, op, s') && Inv(s') && Grants(op, a.runId) && op.reply.value == a
    ensures Tokens(a) && a.lease !in s.issued && a.runId in s.entries
  {
    hide Inv, Sound, Sweep, Next;
    GrantedRun(s, op, s', a.runId);
    ClaimNames(s, op, s', a);
    SoundAt(s', a.runId);
    SoundTokens(s'.entries[a.runId]);
  }

  lemma ClaimNames(s: State, op: Op, s': State, a: Assignment)
    requires Next(s, op, s') && Grants(op, a.runId) && op.reply.value == a
    ensures a.runId in s'.entries && s'.entries[a.runId].run.attempt.id == a.attemptId
    ensures s'.entries[a.runId].run.attempt.lease == a.lease && a.lease != ""
  {
    hide Sweep, LiveOn, Claimable, Terminals, Started, LogShape;
  }

  lemma SoundTokens(e: Entry)
    requires Sound(e)
    ensures NulFree(e.run.attempt.id) && NulFree(e.run.attempt.lease)
  {
    hide LogSound, HistorySound;
  }

  lemma ClaimedClean(d: Durable, ttl: Time, a: Assignment, k: int)
    requires Running(d.tr, ttl) && JustClaimed(d, a, k)
    ensures Emitted(d, a, [])
  {
    hide Running, IsTrace, Inv, Next, FromLease, Permitted, NoneSpooled, NoneReported;
    RunningTrace(d.tr, ttl);
    ClaimFacts(d.tr, a, k);
    assert Marks([]) == [];
    assert OnlyAsked(d.asked, a.attemptId, a.lease, []);
    UnissuedUnused(d.tr, k, a.runId, a.attemptId, a.lease);
    StaysInStep(d.tr, k, |d.tr.states| - 1, a.runId, a.attemptId, a.lease, d.asked, []);
  }

  lemma ClaimFacts(tr: Trace, a: Assignment, k: int)
    requires IsTrace(tr) && |tr.states| == |tr.ops| + 1
    requires 0 <= k < |tr.ops| && Grants(tr.ops[k], a.runId) && tr.ops[k].reply.value == a
    ensures Tokens(a) && a.lease !in tr.states[k].issued && a.runId in tr.states[k].entries
  {
    hide IsTrace, Inv, Next;
    StepOf(tr, k);
    Reachable(tr, k);
    Reachable(tr, k + 1);
    ClaimGives(tr.states[k], tr.ops[k], tr.states[k + 1], a);
  }

  lemma UnderwayStays(s: Story, s': Story, ttl: Time, a: Assignment, spools: set<map<string, File>>, events: seq<PendingEvent>)
    requires Moves(s, s', a.lease, spools) && Running(s.now.tr, ttl) && Running(s'.now.tr, ttl)
    requires Tokens(a) && |s.now.tr.states| > 0 && a.runId in Last(s.now.tr).entries
    requires OnlyAsked(s'.now.asked, a.attemptId, a.lease, events)
    requires InStep(LogOf(s.now.tr, a.runId), a.attemptId, a.lease, events)
    ensures Underway(s'.now, a, events)
    ensures FromLease(LogOf(s.now.tr, a.runId), a.attemptId, a.lease) == Marks(events) ==> Emitted(s'.now, a, events)
  {
    hide Running, IsTrace, InStep, OnlyAsked, FromLease, Permitted, Sound, EntryStep, Marks;
    RunningTrace(s.now.tr, ttl);
    RunningTrace(s'.now.tr, ttl);
    var i, j := |s.now.tr.states| - 1, |s'.now.tr.states| - 1;
    assert s'.now.tr.states[i] == s.now.tr.states[i];
    StaysInStep(s'.now.tr, i, j, a.runId, a.attemptId, a.lease, s'.now.asked, events);
    RunBetween(s'.now.tr, i, j, a.runId);
    FromLeaseGrows(LogOf(s.now.tr, a.runId), LogOf(s'.now.tr, a.runId), a.attemptId, a.lease);
    FullStays(LogOf(s.now.tr, a.runId), LogOf(s'.now.tr, a.runId), a, events);
  }

  lemma FullStays(log: seq<Event>, log': seq<Event>, a: Assignment, events: seq<PendingEvent>)
    requires FromLease(log, a.attemptId, a.lease) <= FromLease(log', a.attemptId, a.lease)
    requires InStep(log', a.attemptId, a.lease, events)
    ensures FromLease(log, a.attemptId, a.lease) == Marks(events) ==> FromLease(log', a.attemptId, a.lease) == Marks(events)
  {
    hide FromLease;
  }

  lemma OnlyAskedStays(asked: set<Packet>, asked': set<Packet>, a: Assignment, events: seq<PendingEvent>)
    requires OnlyAsked(asked, a.attemptId, a.lease, events) && NoMoreEvents(asked, asked')
    ensures OnlyAsked(asked', a.attemptId, a.lease, events)
  {
  }

  lemma EmittedStays(s: Story, s': Story, ttl: Time, a: Assignment, events: seq<PendingEvent>)
    requires Drifts(s, s', a.lease) && Running(s.now.tr, ttl) && Running(s'.now.tr, ttl)
    requires NoMoreEvents(s.now.asked, s'.now.asked)
    ensures Emitted(s.now, a, events) ==> Emitted(s'.now, a, events)
    ensures Underway(s.now, a, events) ==> Underway(s'.now, a, events)
  {
    hide Running, InStep, OnlyAsked, FromLease, Moves;
    if Underway(s.now, a, events) {
      OnlyAskedStays(s.now.asked, s'.now.asked, a, events);
      UnderwayStays(s, s', ttl, a, {s.now.files}, events);
    }
  }

  /** Asking for one more event. */
  lemma NextUnderway(asked: set<Packet>, asked': set<Packet>, log: seq<Event>, a: Assignment, emits: seq<Emission>, n: nat)
    requires n < |emits| && asked' <= asked + {AppendOf(EventAt(a, emits, n))}
    requires OnlyAsked(asked, a.attemptId, a.lease, Emissions(a, emits, n))
    requires FromLease(log, a.attemptId, a.lease) == Marks(Emissions(a, emits, n))
    ensures OnlyAsked(asked', a.attemptId, a.lease, Emissions(a, emits, n + 1))
    ensures InStep(log, a.attemptId, a.lease, Emissions(a, emits, n + 1))
  {
    hide FromLease, Decimal;
    var events := Emissions(a, emits, n + 1);
    EmissionsDistinct(a, emits, n + 1);
    assert events[..n] == Emissions(a, emits, n);
    forall p | p in asked' && p.lease == a.lease && p.ask.AskAppend?
      ensures exists i :: 0 <= i <= n && p == AppendOf(events[i]) && p.attemptId == a.attemptId
    {
      if p == AppendOf(events[n]) {
      } else {
        var i :| 0 <= i < n && p == AppendOf(Emissions(a, emits, n)[i]) && p.attemptId == a.attemptId;
        assert p == AppendOf(events[i]);
      }
    }
  }

  /** A delivered event completes the log. */
  lemma DeliveredEmitted(d: Durable, a: Assignment, emits: seq<Emission>, n: nat)
    requires n < |emits| && Underway(d, a, Emissions(a, emits, n + 1)) && Landed(d.tr, EventAt(a, emits, n))
    ensures Emitted(d, a, Emissions(a, emits, n + 1))
  {
    hide FromLease, Decimal, OnlyAsked, Join3;
    var events := Emissions(a, emits, n + 1);
    var event := EventAt(a, emits, n);
    EmissionsDistinct(a, emits, n + 1);
    var log := LogOf(d.tr, a.runId);
    var i :| Lands(log, event, i);
    HasFromLease(log, a.attemptId, a.lease, event.id, i);
    var k :| 0 <= k < |FromLease(log, a.attemptId, a.lease)| && FromLease(log, a.attemptId, a.lease)[k] == Mark(event.id, log[i].body);
    if FromLease(log, a.attemptId, a.lease) != Marks(events) {
      assert false;
    }
  }

  // ------------------------------------------------------------------ the spool

  lemma SpoolsTidy(s: Story, s': Story, event: PendingEvent)
    requires Moves(s, s', event.lease, Spools(s.now.files, event)) && s'.now.files in Spools(s.now.files, event)
    requires NoneSpooled(s.now.files, event.lease)
    ensures Tidy(s, s', event.lease)
  {
    hide Digest, Permitted;
  }

  lemma DriftTidy(s: Story, s': Story, lease: string)
    requires Drifts(s, s', lease) && AtMostOneSpooled(s.now.files, lease)
    ensures Tidy(s, s', lease)
  {
    hide AtMostOneSpooled, Permitted;
  }

  lemma TidyTransitive(a: Story, b: Story, c: Story, lease: string)
    requires Tidy(a, b, lease) && Tidy(b, c, lease)
    ensures Tidy(a, c, lease)
  {
    hide AtMostOneSpooled;
    assert forall i :: |a.journal| <= i < |b.journal| ==> c.journal[i] == b.journal[i];
  }

  // ------------------------------------------------------------------ emitting

  /** Emission stops at an event that cannot be encoded or stored, that the disk failed, or that stays spooled. */
  predicate Blocked(a: Assignment, emits: seq<Emission>, sent: nat, files: map<string, File>) {
    || (sent < |emits| && emits[sent].payload.Unencodable?)
    || (0 < sent <= |emits| && var e, event := emits[sent - 1], EventAt(a, emits, sent - 1);
        e.saving != NoFault || e.removing != NoFault || |event.text| > EVENT_LIMIT || Digest(event) in files)
  }

  /** Emission `i` was encoded, spooled, acknowledged by the control plane, and taken out of the spool. */
  ghost predicate Carried(a: Assignment, emits: seq<Emission>, i: nat, news: seq<Talk>)
    requires i < |emits|
  {
    && emits[i].payload.Json? && |emits[i].payload.text| <= EVENT_LIMIT
    && emits[i].saving == NoFault && emits[i].removing == NoFault
    && Heard(news, AppendOf(EventAt(a, emits, i)), Done)
  }

  ghost predicate AllCarried(a: Assignment, emits: seq<Emission>, news: seq<Talk>) {
    forall i :: 0 <= i < |emits| ==> Carried(a, emits, i, news)
  }

  /** Only these emissions were talked about. */
  ghost predicate AboutEvents(a: Assignment, emits: seq<Emission>, sent: nat, news: seq<Talk>) {
    sent <= |emits| && forall k :: 0 <= k < |news| ==> AboutOne(a, emits, sent, news[k].packet)
  }

  ghost predicate AboutOne(a: Assignment, emits: seq<Emission>, sent: nat, packet: Packet)
    requires sent <= |emits|
  {
    exists i :: 0 <= i < sent && packet == AppendOf(EventAt(a, emits, i))
  }

  /** How far emission has come: everything so far was carried, or something was not and nothing more is tried. */
  ghost predicate Emitting(a: Assignment, emits: seq<Emission>, sent: nat, failed: bool, news: seq<Talk>) {
    && AboutEvents(a, emits, sent, news)
    && if failed then !AllCarried(a, emits, news) else forall i :: 0 <= i < sent ==> Carried(a, emits, i, news)
  }

  /** One call of `emit` while nothing has failed yet. */
  method Emit(w: World, a: Assignment, ghost claim: int, emits: seq<Emission>, next: nat) returns (ok: bool, sent: nat)
    requires next < |emits| && w.Valid() && Emitted(w.Now(), a, Emissions(a, emits, next))
    requires NoneSpooled(w.files, a.lease) && Unfinished(w.Now(), a, claim)
    modifies w
    ensures w.Valid() && Unfinished(w.Now(), a, claim) && Tidy(old(w.Told()), w.Told(), a.lease)
    ensures sent == if emits[next].payload.Json? then next + 1 else next
    ensures Underway(w.Now(), a, Emissions(a, emits, sent))
    ensures ok ==> sent == next + 1 && Emitted(w.Now(), a, Emissions(a, emits, next + 1)) && NoneSpooled(w.files, a.lease)
    ensures !ok ==> Blocked(a, emits, sent, w.files)
    ensures old(w.talks) <= w.talks && EmitNews(a, emits, next, ok, News(old(w.talks), w.talks))
    ensures old(w.asked) <= w.asked && forall p :: p in w.asked && p !in old(w.asked) ==> p.ask.AskAppend?
  {
    hide Running, Safe, AllSafe, Moves, Emitted, Underway, NoneSpooled, Tidy, Landed, OnlyAsked, InStep, FromLease, TurnedAway,
         Unfinished, EmitNews, Insisted, News;
    if emits[next].payload.Unencodable? {
      NotEncoded(a, emits, next, w.talks);
      SameTidy(w.Told(), a.lease);
      EmittedUnderway(w.Now(), a, Emissions(a, emits, next));
      return false, next;
    }
    ghost var before, said, start := w.Told(), w.talks, w.Clock();
    var event := EventAt(a, emits, next);
    ok := Deliver(w, event, emits[next].stop, emits[next].saving, emits[next].removing);
    sent := next + 1;
    Delivered(before, w.Told(), w.ttl, a, emits, next, ok);
    UnfinishedStays(before, w.Told(), a, claim, Spools(before.now.files, event));
    DeliveryNews(a, emits, next, said, w.talks, ok, before.now.files, start, w.Clock());
  }

  lemma EmittedUnderway(d: Durable, a: Assignment, events: seq<PendingEvent>)
    requires Emitted(d, a, events)
    ensures Underway(d, a, events)
  {
  }

  /** The runtime emits one event after the other; after the first failure `emit` does nothing. */
  method EmitAll(w: World, a: Assignment, ghost claim: int, emits: seq<Emission>) returns (failed: bool, sent: nat)
    requires w.Valid() && Emitted(w.Now(), a, []) && NoneSpooled(w.files, a.lease) && Unfinished(w.Now(), a, claim)
    modifies w
    ensures Unfinished(w.Now(), a, claim)
    ensures w.Valid() && Tidy(old(w.Told()), w.Told(), a.lease)
    ensures sent <= |emits| && forall i :: 0 <= i < sent ==> emits[i].payload.Json?
    ensures Underway(w.Now(), a, Emissions(a, emits, sent))
    ensures !failed ==> sent == |emits| && Emitted(w.Now(), a, Emissions(a, emits, sent)) && NoneSpooled(w.files, a.lease)
    ensures failed ==> Blocked(a, emits, sent, w.files)
    ensures old(w.talks) <= w.talks && AboutEvents(a, emits, sent, News(old(w.talks), w.talks))
    ensures failed <==> !AllCarried(a, emits, News(old(w.talks), w.talks))
    ensures old(w.asked) <= w.asked && forall p :: p in w.asked && p !in old(w.asked) ==> p.ask.AskAppend?
  {
    hide Running, Safe, AllSafe, Emitted, Underway, NoneSpooled, Tidy, Unfinished, AllCarried, AboutEvents, Emitting, EmitNews, News,
         Blocked;
    failed, sent := false, 0;
    NothingYet(w.Now(), a, emits);
    SameTidy(w.Told(), a.lease);
    NothingCarried(a, emits, w.talks);
    for next := 0 to |emits|
      invariant w.Valid() && Tidy(old(w.Told()), w.Told(), a.lease) && Unfinished(w.Now(), a, claim)
      invariant sent <= next && forall i :: 0 <= i < sent ==> emits[i].payload.Json?
      invariant Underway(w.Now(), a, Emissions(a, emits, sent))
      invariant !failed ==> sent == next && Emitted(w.Now(), a, Emissions(a, emits, sent)) && NoneSpooled(w.files, a.lease)
      invariant failed ==> Blocked(a, emits, sent, w.files)
      invariant old(w.talks) <= w.talks && Emitting(a, emits, sent, failed, News(old(w.talks), w.talks))
      invariant old(w.asked) <= w.asked && forall p :: p in w.asked && p !in old(w.asked) ==> p.ask.AskAppend?
    {
      if !failed {
        ghost var before, said := w.Told(), w.talks;
        var ok;
        ok, sent := Emit(w, a, claim, emits, next);
        TidyTransitive(old(w.Told()), before, w.Told(), a.lease);
        Carrying(a, emits, next, old(w.talks), said, w.talks, ok);
        failed := !ok;
      }
    }
    CarriedAll(a, emits, sent, failed, News(old(w.talks), w.talks));
  }

  /** What one emission said, and whether it was carried. */
  ghost predicate EmitNews(a: Assignment, emits: seq<Emission>, n: nat, ok: bool, news: seq<Talk>)
    requires n < |emits|
  {
    && (emits[n].payload.Unencodable? ==> news == [])
    && (forall k :: 0 <= k < |news| ==> news[k].packet == AppendOf(EventAt(a, emits, n)))
    && (ok <==> Carried(a, emits, n, news))
  }

  lemma NothingCarried(a: Assignment, emits: seq<Emission>, talks: seq<Talk>)
    ensures Emitting(a, emits, 0, false, News(talks, talks))
  {
    hide Carried;
  }

  lemma NotEncoded(a: Assignment, emits: seq<Emission>, n: nat, talks: seq<Talk>)
    requires n < |emits| && emits[n].payload.Unencodable?
    ensures EmitNews(a, emits, n, false, News(talks, talks))
  {
    hide Heard;
  }

  lemma CarriedAll(a: Assignment, emits: seq<Emission>, sent: nat, failed: bool, news: seq<Talk>)
    requires Emitting(a, emits, sent, failed, news) && (!failed ==> sent == |emits|)
    ensures AboutEvents(a, emits, sent, news) && (failed <==> !AllCarried(a, emits, news))
  {
    hide Carried;
  }

  lemma HeardLater(said: seq<Talk>, more: seq<Talk>, packet: Packet, answer: Answer)
    ensures Heard(said + more, packet, answer) <==> Heard(said, packet, answer) || Heard(more, packet, answer)
  {
    var all := said + more;
    if Heard(said, packet, answer) {
      var i :| 0 <= i < |said| && said[i].packet == packet && said[i].reply == Answered(answer);
      assert all[i] == said[i];
    }
    if Heard(more, packet, answer) {
      var i :| 0 <= i < |more| && more[i].packet == packet && more[i].reply == Answered(answer);
      assert all[|said| + i] == more[i];
    }
  }

  /** A repeated request was accepted exactly when its last answer says so. */
  lemma HeardLast(news: seq<Talk>, packet: Packet, start: Time, limit: Time, end: Time, answer: Answer)
    requires Insisted(news, packet, start, limit, end) && Final(Answered(answer))
    ensures Heard(news, packet, answer) <==> news[|news| - 1].reply == Answered(answer)
  {
    hide Pause, Final;
    forall i | 0 <= i < |news| - 1
      ensures news[i].reply != Answered(answer)
    {
      assert Resumed(news, i + 1);
    }
  }

  lemma EventsDiffer(a: Assignment, emits: seq<Emission>, i: nat, j: nat)
    requires i < |emits| && j < |emits| && i != j
    ensures AppendOf(EventAt(a, emits, i)) != AppendOf(EventAt(a, emits, j))
  {
    hide Decimal;
    if Decimal(i + 1) == Decimal(j + 1) { DecimalInjective(i + 1, j + 1); }
  }

  lemma NotHeardYet(a: Assignment, emits: seq<Emission>, n: nat, news: seq<Talk>)
    requires n < |emits| && AboutEvents(a, emits, n, news)
    ensures !Heard(news, AppendOf(EventAt(a, emits, n)), Done)
  {
    hide EventAt;
    forall k | 0 <= k < |news|
      ensures news[k].packet != AppendOf(EventAt(a, emits, n))
    {
      assert AboutOne(a, emits, n, news[k].packet);
      var i :| 0 <= i < n && news[k].packet == AppendOf(EventAt(a, emits, i));
      EventsDiffer(a, emits, i, n);
    }
  }

  lemma AboutOneMore(a: Assignment, emits: seq<Emission>, n: nat, news: seq<Talk>, more: seq<Talk>)
    requires n < |emits| && AboutEvents(a, emits, n, news)
    requires forall k :: 0 <= k < |more| ==> more[k].packet == AppendOf(EventAt(a, emits, n))
    ensures AboutEvents(a, emits, n + 1, news + more)
  {
    hide EventAt;
    forall k | 0 <= k < |news + more|
      ensures AboutOne(a, emits, n + 1, (news + more)[k].packet)
    {
      if k < |news| {
        assert AboutOne(a, emits, n, news[k].packet);
      } else {
        assert (news + more)[k] == more[k - |news|];
      }
    }
  }

  lemma DeliveryNews(a: Assignment, emits: seq<Emission>, n: nat, said: seq<Talk>, now: seq<Talk>, ok: bool,
                     files: map<string, File>, start: Time, end: Time)
    requires n < |emits| && emits[n].payload.Json? && said <= now
    requires var event := EventAt(a, emits, n);
      && (if Storable(files, event) && emits[n].saving == NoFault
          then Insisted(News(said, now), AppendOf(event), start, Min(start + 5 * SECOND, emits[n].stop), end)
          else now == said)
      && (ok <==> Storable(files, event) && emits[n].saving == emits[n].removing == NoFault
                  && now[|now| - 1].reply == Answered(Done))
    ensures EmitNews(a, emits, n, ok, News(said, now))
  {
    hide Carried, Heard, Insisted, Final;
    var event, news := EventAt(a, emits, n), News(said, now);
    if Storable(files, event) && emits[n].saving == NoFault {
      DoneIsFinal();
      HeardLast(news, AppendOf(event), start, Min(start + 5 * SECOND, emits[n].stop), end, Done);
      AllAbout(news, AppendOf(event), start, Min(start + 5 * SECOND, emits[n].stop), end);
      assert news[|news| - 1] == now[|now| - 1];
    } else {
      NotHeardInNothing(AppendOf(event), Done);
    }
    CarriedMeans(a, emits, n, news);
  }

  lemma Carrying(a: Assignment, emits: seq<Emission>, n: nat, before: seq<Talk>, said: seq<Talk>, now: seq<Talk>, ok: bool)
    requires n < |emits| && before <= said <= now && Emitting(a, emits, n, false, News(before, said))
    requires EmitNews(a, emits, n, ok, News(said, now))
    ensures before <= now
    ensures Emitting(a, emits, if emits[n].payload.Json? then n + 1 else n, !ok, News(before, now))
  {
    hide AboutEvents, Carried, Heard;
    var packet, more := AppendOf(EventAt(a, emits, n)), News(said, now);
    assert News(before, now) == News(before, said) + more;
    NotHeardYet(a, emits, n, News(before, said));
    HeardLater(News(before, said), more, packet, Done);
    forall i | 0 <= i < n
      ensures Carried(a, emits, i, News(before, now))
    {
      StillCarried(a, emits, i, News(before, said), more);
    }
    AboutOneMore(a, emits, n, News(before, said), more);
    SameEmission(a, emits, n, News(before, now), more);
    if emits[n].payload.Unencodable? { assert News(before, now) == News(before, said); }
  }

  lemma SameEmission(a: Assignment, emits: seq<Emission>, n: nat, news: seq<Talk>, more: seq<Talk>)
    requires n < |emits|
    requires Heard(news, AppendOf(EventAt(a, emits, n)), Done) <==> Heard(more, AppendOf(EventAt(a, emits, n)), Done)
    ensures Carried(a, emits, n, news) <==> Carried(a, emits, n, more)
  {
    hide Heard;
  }

  lemma DoneIsFinal()
    ensures Final(Answered(Done))
  {
  }

  lemma NotHeardInNothing(packet: Packet, answer: Answer)
    ensures !Heard([], packet, answer)
  {
  }

  lemma AllAbout(news: seq<Talk>, packet: Packet, start: Time, limit: Time, end: Time)
    requires Insisted(news, packet, start, limit, end)
    ensures forall k :: 0 <= k < |news| ==> news[k].packet == packet
    ensures news != []
  {
    hide Pause, Final, Resumed;
  }

  lemma StillCarried(a: Assignment, emits: seq<Emission>, i: nat, news: seq<Talk>, more: seq<Talk>)
    requires i < |emits| && Carried(a, emits, i, news)
    ensures Carried(a, emits, i, news + more)
  {
    hide Heard;
    HeardLater(news, more, AppendOf(EventAt(a, emits, i)), Done);
  }

  lemma CarriedMeans(a: Assignment, emits: seq<Emission>, n: nat, news: seq<Talk>)
    requires n < |emits| && emits[n].payload.Json?
    ensures var event := EventAt(a, emits, n);
      Carried(a, emits, n, news) <==>
      |event.text| <= EVENT_LIMIT && emits[n].saving == NoFault && emits[n].removing == NoFault && Heard(news, AppendOf(event), Done)
  {
    hide Heard;
  }

  lemma NothingYet(d: Durable, a: Assignment, emits: seq<Emission>)
    requires Emitted(d, a, [])
    ensures Emissions(a, emits, 0) == [] && Underway(d, a, [])
  {
  }

  lemma SameTidy(s: Story, lease: string)
    requires NoneSpooled(s.now.files, lease)
    ensures Tidy(s, s, lease)
  {
  }

  lemma Delivered(s: Story, s': Story, ttl: Time, a: Assignment, emits: seq<Emission>, n: nat, ok: bool)
    requires n < |emits| && Emitted(s.now, a, Emissions(a, emits, n)) && NoneSpooled(s.now.files, a.lease)
    requires Running(s.now.tr, ttl) && Running(s'.now.tr, ttl)
    requires Moves(s, s', a.lease, Spools(s.now.files, EventAt(a, emits, n)))
    requires s'.now.files in Spools(s.now.files, EventAt(a, emits, n))
    requires s'.now.asked <= s.now.asked + {AppendOf(EventAt(a, emits, n))}
    requires ok ==> Landed(s'.now.tr, EventAt(a, emits, n)) && s'.now.files == s.now.files
    ensures Underway(s'.now, a, Emissions(a, emits, n + 1)) && Tidy(s, s', a.lease)
    ensures ok ==> Emitted(s'.now, a, Emissions(a, emits, n + 1)) && NoneSpooled(s'.now.files, a.lease)
  {
    hide Running, Moves, Tidy, Landed, OnlyAsked, InStep, FromLease, NoneSpooled, Spools, EventAt;
    NextUnderway(s.now.asked, s'.now.asked, LogOf(s.now.tr, a.runId), a, emits, n);
    UnderwayStays(s, s', ttl, a, Spools(s.now.files, EventAt(a, emits, n)), Emissions(a, emits, n + 1));
    EventLease(a, emits, n);
    SpoolsTidy(s, s', EventAt(a, emits, n));
    if ok { DeliveredEmitted(s'.now, a, emits, n); }
  }

  lemma EventLease(a: Assignment, emits: seq<Emission>, n: nat)
    requires n < |emits|
    ensures EventAt(a, emits, n).lease == a.lease
  {
  }

  // ------------------------------------------------------------------ the end of an attempt

  function Ask(a: Assignment, ask: EmitOrder.Ask): Packet {
    Packet(a.runId, a.attemptId, a.lease, ask)
  }

  /** The keeper's renewal number `k` was told that the run is to be cancelled. */
  predicate KeeperSaw(tr: Trace, a: Assignment, k: int) {
    0 <= k < |tr.ops| && tr.ops[k].OpCall? && tr.ops[k].runId == a.runId
    && tr.ops[k].answer.Renewed? && tr.ops[k].answer.cancelRequested
  }

  /** Confirms a cancellation the node has learnt of. */
  method Acknowledge(w: World, a: Assignment, stop: Time, lenient: bool) returns (outcome: Outcome)
    requires w.Valid() && CancelRecorded(w.tr, a.runId)
    modifies w
    ensures w.Valid() && Drifts(old(w.Told()), w.Told(), a.lease) && NoMoreEvents(old(w.asked), w.asked)
    ensures outcome == RunWasCancelled ==> CancelRecorded(w.tr, a.runId)
    ensures outcome == RunWasCancelled || outcome == Unsure
    ensures w.asked == old(w.asked) + {Ask(a, AskAcknowledge)}
    ensures CancelRecorded(w.tr, a.runId) && old(w.Clock()) <= w.Clock()
    ensures |w.talks| == |old(w.talks)| + 1 && w.talks[..|old(w.talks)|] == old(w.talks)
    ensures var talk := w.talks[|old(w.talks)|];
      talk.packet == Ask(a, AskAcknowledge) && talk.from == old(w.Clock())
      && (outcome == RunWasCancelled <==>
          talk.reply == Answered(Done) || (lenient && talk.reply == Answered(Refused(ErrInvalidTransition))))
  {
    hide Running, Safe, AllSafe, Drifts, Moves, CancelRecorded, Answers;
    ghost var before := w.Told();
    var reply, at := w.Exchange(a.lease, Ask(a, AskAcknowledge), stop);
    CancelStays(before, w.Told(), w.ttl, a.lease, a.runId);
    if reply == Answered(Done) || (lenient && reply == Answered(Refused(ErrInvalidTransition))) { return RunWasCancelled; }
    outcome := Unsure;
  }

  ghost function ReportNews(a: Assignment, news: seq<Talk>): seq<Talk> {
    if news != [] && news[|news| - 1].packet == Ask(a, AskAcknowledge) then news[..|news| - 1] else news
  }

  /** What was said to conclude: the report, repeated until it is answered, and then, if and only if its answer or
      the keeper spoke of a cancellation, the acknowledgement. The outcome follows from the answers. */
  ghost predicate Concluded(a: Assignment, ask: EmitOrder.Ask, news: seq<Talk>, start: Time, limit: Time, end: Time,
                            keeperSaw: bool, outcome: Outcome) {
    var reports := ReportNews(a, news);
    && reports != []
    && Insisted(reports, Ask(a, ask), start, limit, if |reports| == |news| then end else news[|reports|].from)
    && var reply := reports[|reports| - 1].reply;
    && (|reports| < |news| <==> reply == Answered(Refused(ErrRunCancelled)) || keeperSaw)
    && (outcome == RunWasCancelled <==>
          |reports| < |news| && (news[|news| - 1].reply == Answered(Done) || news[|news| - 1].reply == Answered(Refused(ErrInvalidTransition))))
    && (outcome.Finished? || outcome.FailedWith? <==> |reports| == |news| && reply == Answered(Done))
  }

  /** Reports the end, and turns a refusal that speaks of cancellation into its acknowledgement. */
  method Conclude(w: World, a: Assignment, ask: EmitOrder.Ask, renewal: int, stop: Time)
    returns (outcome: Outcome, report: Report, ghost commit: int)
    requires w.Valid() && (ask.AskComplete? || ask.AskFail?)
    modifies w
    ensures w.Valid() && Drifts(old(w.Told()), w.Told(), a.lease) && NoMoreEvents(old(w.asked), w.asked)
    ensures w.asked <= old(w.asked) + {Ask(a, ask), Ask(a, AskAcknowledge)} && Ask(a, ask) in w.asked
    ensures old(w.talks) <= w.talks
    ensures Concluded(a, ask, News(old(w.talks), w.talks), old(w.Clock()), Min(old(w.Clock()) + 10 * SECOND, stop), w.Clock(),
                      KeeperSaw(w.tr, a, renewal), outcome)
    ensures outcome.Finished? ==> ask == AskComplete(outcome.result)
    ensures outcome.FailedWith? ==> ask == AskFail(outcome.cause)
    ensures outcome.Finished? || outcome.FailedWith? ==>
              Holding(w.tr, Ask(a, ask)) && |old(w.tr).ops| <= commit < |w.tr.ops| && Answers(w.tr.ops[commit], Ask(a, ask), Done)
    ensures outcome == RunWasCancelled ==> CancelRecorded(w.tr, a.runId)
    ensures outcome == Unsure ==> !report.Committed? || CancelRecorded(w.tr, a.runId)
    ensures report.Unresolved? ==> Min(old(w.Clock()) + 10 * SECOND, stop) <= w.Clock()
  {
    hide Running, Safe, AllSafe, Drifts, Moves, CancelRecorded, Holding, Insisted, Concluded, News, Final, ReportOf, KeeperSaw;
    report, commit := RetryFinalReport(w, Ask(a, ask), stop);
    ghost var reported, said, start, limit := w.Told(), w.talks, old(w.Clock()), Min(old(w.Clock()) + 10 * SECOND, stop);
    SaidSomething(old(w.talks), said, Ask(a, ask), start, limit, w.Clock());
    ReportMeans(said[|said| - 1].reply);
    var told := 0 <= renewal < |w.tr.ops| && w.tr.ops[renewal].OpCall? && w.tr.ops[renewal].runId == a.runId
                && w.tr.ops[renewal].answer.Renewed? && w.tr.ops[renewal].answer.cancelRequested;
    KeeperSawMeans(w.tr, a, renewal);
    if report == Declined(ErrRunCancelled) || told {
      KeeperSawCancel(w.tr, a, renewal);
      CancelIsTrue(w.tr, w.ttl, if report == Declined(ErrRunCancelled) then commit else renewal);
      outcome := Acknowledge(w, a, stop, true);
      DriftsTransitive(old(w.Told()), reported, w.Told(), a.lease);
      if KeeperSaw(reported.now.tr, a, renewal) { KeeperStillSaw(reported, w.Told(), a, renewal); }
      AcknowledgedEnd(a, ask, old(w.talks), said, w.talks, start, limit, w.Clock(), KeeperSaw(w.tr, a, renewal), outcome);
      return;
    }
    if report.Committed? {
      outcome := if ask.AskComplete? then Finished(ask.result) else FailedWith(ask.cause);
    } else {
      outcome := Unsure;
    }
    PlainEnd(a, ask, old(w.talks), w.talks, start, limit, w.Clock(), outcome);
  }

  lemma SaidSomething(before: seq<Talk>, said: seq<Talk>, packet: Packet, start: Time, limit: Time, end: Time)
    requires before <= said && Insisted(News(before, said), packet, start, limit, end)
    ensures |before| < |said|
  {
    hide Insists, Final;
  }

  lemma ReportMeans(reply: NetReply)
    ensures ReportOf(reply).Committed? <==> reply == Answered(Done)
    ensures ReportOf(reply) == Declined(ErrRunCancelled) <==> reply == Answered(Refused(ErrRunCancelled))
  {
  }

  lemma KeeperSawMeans(tr: Trace, a: Assignment, k: int)
    ensures KeeperSaw(tr, a, k) <==>
            0 <= k < |tr.ops| && tr.ops[k].OpCall? && tr.ops[k].runId == a.runId
            && tr.ops[k].answer.Renewed? && tr.ops[k].answer.cancelRequested
  {
  }

  lemma KeeperSawCancel(tr: Trace, a: Assignment, k: int)
    ensures KeeperSaw(tr, a, k) ==>
              0 <= k < |tr.ops| && tr.ops[k].OpCall? && tr.ops[k].runId == a.runId && SpeaksOfCancel(tr.ops[k].answer)
  {
  }

  lemma KeeperStillSaw(s: Story, s': Story, a: Assignment, k: int)
    requires KeeperSaw(s.now.tr, a, k) && Drifts(s, s', a.lease)
    ensures KeeperSaw(s'.now.tr, a, k)
  {
    DriftKeepsOp(s, s', a.lease, k);
  }

  lemma PlainEnd(a: Assignment, ask: EmitOrder.Ask, before: seq<Talk>, said: seq<Talk>, start: Time, limit: Time, end: Time, outcome: Outcome)
    requires (ask.AskComplete? || ask.AskFail?) && before <= said && Insisted(News(before, said), Ask(a, ask), start, limit, end)
    requires said[|said| - 1].reply != Answered(Refused(ErrRunCancelled)) && outcome != RunWasCancelled
    requires outcome.Finished? || outcome.FailedWith? <==> said[|said| - 1].reply == Answered(Done)
    ensures Concluded(a, ask, News(before, said), start, limit, end, false, outcome)
  {
    hide Pause, Final, Resumed;
    var news := News(before, said);
    assert news[|news| - 1] == said[|said| - 1] && ReportNews(a, news) == news;
  }

  lemma AcknowledgedEnd(a: Assignment, ask: EmitOrder.Ask, before: seq<Talk>, said: seq<Talk>, now: seq<Talk>, start: Time,
                        limit: Time, end: Time, keeperSaw: bool, outcome: Outcome)
    requires (ask.AskComplete? || ask.AskFail?) && before <= said && |before| < |said| && |now| == |said| + 1 && now[..|said|] == said
    requires now[|said|].packet == Ask(a, AskAcknowledge) && Insisted(News(before, said), Ask(a, ask), start, limit, now[|said|].from)
    requires said[|said| - 1].reply == Answered(Refused(ErrRunCancelled)) || keeperSaw
    requires outcome == RunWasCancelled || outcome == Unsure
    requires outcome == RunWasCancelled <==>
             now[|said|].reply == Answered(Done) || now[|said|].reply == Answered(Refused(ErrInvalidTransition))
    ensures before <= now && Concluded(a, ask, News(before, now), start, limit, end, keeperSaw, outcome)
  {
    hide Pause, Final, Resumed, Insisted;
    var news := News(before, now);
    assert now == said + [now[|said|]];
    assert news == News(before, said) + [now[|said|]];
    assert ReportNews(a, news) == News(before, said);
  }

  ghost predicate AboutUploads(news: seq<Talk>) {
    forall k :: 0 <= k < |news| ==> news[k].packet.ask.AskRecord?
  }

  /** Every file could be read, and was accepted in its turn. */
  ghost predicate AllUploaded(a: Assignment, uploads: seq<Upload>, news: seq<Talk>) {
    |news| == |uploads| && SomeUploaded(a, uploads, news)
  }

  ghost predicate SomeUploaded(a: Assignment, uploads: seq<Upload>, news: seq<Talk>) {
    |news| <= |uploads| &&
    forall i :: 0 <= i < |news| ==>
      uploads[i].readable && news[i].packet == Ask(a, AskRecord(ArtifactCreated, uploads[i].id)) && news[i].reply == Answered(Done)
  }

  method UploadAll(w: World, a: Assignment, uploads: seq<Upload>, stop: Time) returns (ok: bool)
    requires w.Valid()
    modifies w
    ensures w.Valid() && Drifts(old(w.Told()), w.Told(), a.lease) && NoMoreEvents(old(w.asked), w.asked)
    ensures NoneReported(old(w.asked), a.lease) ==> NoneReported(w.asked, a.lease)
    ensures ok ==> forall i :: 0 <= i < |uploads| ==> uploads[i].readable
    ensures ok ==> forall i :: 0 <= i < |uploads| ==> Uploaded(w.tr, a, uploads[i].id)
    ensures old(w.talks) <= w.talks && AboutUploads(News(old(w.talks), w.talks))
    ensures ok <==> AllUploaded(a, uploads, News(old(w.talks), w.talks))
    ensures forall p :: p in w.asked && p !in old(w.asked) ==> p.ask.AskRecord?
  {
    hide Running, Safe, AllSafe, Drifts, Moves, Answers, Uploaded, News;
    SelfDrift(w.Told(), a.lease);
    NoNews(w.talks);
    for next := 0 to |uploads|
      invariant w.Valid() && Drifts(old(w.Told()), w.Told(), a.lease) && NoMoreEvents(old(w.asked), w.asked)
      invariant NoneReported(old(w.asked), a.lease) ==> NoneReported(w.asked, a.lease)
      invariant old(w.talks) <= w.talks && |News(old(w.talks), w.talks)| == next
      invariant SomeUploaded(a, uploads, News(old(w.talks), w.talks)) && AboutUploads(News(old(w.talks), w.talks))
      invariant forall p :: p in w.asked && p !in old(w.asked) ==> p.ask.AskRecord?
      invariant forall i :: 0 <= i < next ==> uploads[i].readable && Uploaded(w.tr, a, uploads[i].id)
    {
      if !uploads[next].readable { return false; }
      ghost var before, said := w.Told(), w.talks;
      var reply, at := w.Exchange(a.lease, Ask(a, AskRecord(ArtifactCreated, uploads[next].id)), stop);
      DriftsTransitive(old(w.Told()), before, w.Told(), a.lease);
      NewsGrow(old(w.talks), said, w.talks[|said|]);
      UploadsStay(before, w.Told(), a, uploads, next);
      if reply != Answered(Done) { return false; }
      UploadedNow(w.tr, a, uploads[next].id, at);
    }
    ok := true;
  }

  lemma NoNews(talks: seq<Talk>)
    ensures News(talks, talks) == []
  {
  }

  lemma NewsGrow(before: seq<Talk>, said: seq<Talk>, talk: Talk)
    requires before <= said
    ensures before <= said + [talk] && News(before, said + [talk]) == News(before, said) + [talk]
  {
  }

  /** The control plane accepted the artifact. */
  ghost predicate Uploaded(tr: Trace, a: Assignment, id: string) {
    exists k :: 0 <= k < |tr.ops| && Answers(tr.ops[k], Ask(a, AskRecord(ArtifactCreated, id)), Done)
  }

  lemma UploadedNow(tr: Trace, a: Assignment, id: string, at: int)
    requires 0 <= at < |tr.ops| && Answers(tr.ops[at], Ask(a, AskRecord(ArtifactCreated, id)), Done)
    ensures Uploaded(tr, a, id)
  {
  }

  lemma UploadsStay(s: Story, s': Story, a: Assignment, uploads: seq<Upload>, n: nat)
    requires Drifts(s, s', a.lease) && n <= |uploads| && forall i :: 0 <= i < n ==> Uploaded(s.now.tr, a, uploads[i].id)
    ensures forall i :: 0 <= i < n ==> Uploaded(s'.now.tr, a, uploads[i].id)
  {
    hide Permitted, Answers;
    forall i | 0 <= i < n
      ensures Uploaded(s'.now.tr, a, uploads[i].id)
    {
      var k :| 0 <= k < |s.now.tr.ops| && Answers(s.now.tr.ops[k], Ask(a, AskRecord(ArtifactCreated, uploads[i].id)), Done);
      assert s'.now.tr.ops[k] == s.now.tr.ops[k];
    }
  }

  // ------------------------------------------------------------------ completion never overtakes events

  lemma UnfinishedStays(s: Story, s': Story, a: Assignment, k: int, spools: set<map<string, File>>)
    requires Unfinished(s.now, a, k) && Moves(s, s', a.lease, spools)
    requires forall p :: p in s'.now.asked && p !in s.now.asked && p.lease == a.lease ==> !p.ask.AskComplete?
    ensures Unfinished(s'.now, a, k)
  {
    hide Permitted, Grants;
    ClaimedStays(s, s', a, k, spools);
  }

  lemma ClaimedStays(s: Story, s': Story, a: Assignment, k: int, spools: set<map<string, File>>)
    requires Claimed(s.now, a, k) && Moves(s, s', a.lease, spools)
    ensures Claimed(s'.now, a, k)
  {
    hide Permitted, Grants;
    forall i | k <= i < |s'.now.tr.ops|
      ensures Permitted(s'.now.tr.ops[i], a.lease, s'.now.asked)
    {
      if i < |s.now.tr.ops| {
        assert s'.now.tr.ops[i] == s.now.tr.ops[i];
        StillPermitted(s.now.tr.ops[i], a.lease, s.now.asked, s'.now.asked);
      }
    }
  }

  /** A success committed under the lease, whether or not anybody learns of it. */
  predicate Succeeds(op: Op, a: Assignment) {
    op.OpCall? && op.runId == a.runId && op.lease == a.lease && op.call.Complete? && op.answer == Done
  }

  /** Success was committed when every emitted event was in the log, in order and with no other in between. */
  ghost predicate CompletedAfter(tr: Trace, commit: int, a: Assignment, result: RunResult, events: seq<PendingEvent>) {
    && |tr.states| == |tr.ops| + 1 && 0 <= commit < |tr.ops|
    && Reported(tr.ops[commit], a.runId, result) && a.runId in tr.states[commit].entries
    && FromLease(tr.states[commit].entries[a.runId].log, a.attemptId, a.lease) == Marks(events)
  }

  /** By state `i` all events were in the log; before it nobody had asked for a success, and since then for this one only. */
  ghost predicate Reporting(d: Durable, a: Assignment, k: int, i: nat, events: seq<PendingEvent>, result: RunResult) {
    && Tokens(a) && Claimed(d, a, k) && k < i < |d.tr.states|
    && (forall n :: k <= n < i && n < |d.tr.ops| ==> !Succeeds(d.tr.ops[n], a))
    && a.runId in d.tr.states[i].entries
    && FromLease(d.tr.states[i].entries[a.runId].log, a.attemptId, a.lease) == Marks(events)
    && OnlyAsked(d.asked, a.attemptId, a.lease, events)
    && (forall p :: p in d.asked && p.lease == a.lease && p.ask.AskComplete? ==> p.ask == AskComplete(result))
  }

  /** A token opens nothing before it is issued. */
  lemma EarlySuccess(tr: Trace, a: Assignment, k: int, n: nat)
    requires IsTrace(tr) && |tr.states| == |tr.ops| + 1
    requires n < k < |tr.ops| && Grants(tr.ops[k], a.runId) && tr.ops[k].reply.value == a
    ensures !Succeeds(tr.ops[n], a)
  {
    hide IsTrace, Inv, Next, Advances;
    ClaimFacts(tr, a, k);
    Between(tr, n, k);
    NothingIssuedTwice(tr.states[n], tr.states[k]);
    Reachable(tr, n);
    StepOf(tr, n);
    if Succeeds(tr.ops[n], a) { SuccessNeedsLease(tr.states[n], tr.ops[n], tr.states[n + 1], a); }
  }

  lemma SuccessNeedsLease(s: State, op: Op, s': State, a: Assignment)
    requires Inv(s) && Next(s, op, s') && Succeeds(op, a) && a.lease != ""
    ensures a.lease in s.issued
  {
    hide Inv, Succeed;
    HoldsIssued(s, op.runId);
  }

  /** Without a request for it there is no success, now or later. */
  lemma NoSuccess(d: Durable, ttl: Time, a: Assignment, k: int, n: nat)
    requires Running(d.tr, ttl) && Unfinished(d, a, k) && n < |d.tr.ops|
    ensures !Succeeds(d.tr.ops[n], a)
  {
    hide Running, IsTrace, Grants;
    RunningTrace(d.tr, ttl);
    if n < k {
      EarlySuccess(d.tr, a, k, n);
    } else {
      ClaimFacts(d.tr, a, k);
      assert Permitted(d.tr.ops[n], a.lease, d.asked);
    }
  }

  /** Whenever a success is committed, acknowledged or not, every emitted event is in the log, in order and without gaps. */
  lemma CommitAfterEvents(d: Durable, ttl: Time, a: Assignment, k: int, i: nat, events: seq<PendingEvent>, result: RunResult, n: nat)
    requires Running(d.tr, ttl) && Reporting(d, a, k, i, events, result) && n < |d.tr.ops| && Succeeds(d.tr.ops[n], a)
    ensures i <= n && d.tr.ops[n].call.result == result && CompletedAfter(d.tr, n, a, result, events)
  {
    hide Running, IsTrace, Grants, FromLease, Marks, Sound, EntryStep, OnlyAsked, InStep;
    RunningTrace(d.tr, ttl);
    if n < k { EarlySuccess(d.tr, a, k, n); }
    assert Permitted(d.tr.ops[n], a.lease, d.asked);
    assert PacketOf(d.tr.ops[n]) in d.asked;
    CommittedLog(d.tr, a, i, n, d.asked, events);
  }

  lemma CommittedLog(tr: Trace, a: Assignment, i: nat, n: nat, asked: set<Packet>, events: seq<PendingEvent>)
    requires IsTrace(tr) && i <= n < |tr.states| && a.runId in tr.states[i].entries && Tokens(a)
    requires Civil(tr, i, a.lease, asked) && OnlyAsked(asked, a.attemptId, a.lease, events)
    requires FromLease(tr.states[i].entries[a.runId].log, a.attemptId, a.lease) == Marks(events)
    ensures a.runId in tr.states[n].entries
    ensures FromLease(tr.states[n].entries[a.runId].log, a.attemptId, a.lease) == Marks(events)
  {
    hide IsTrace, FromLease, Marks, Sound, EntryStep, OnlyAsked, Permitted;
    StaysInStep(tr, i, n, a.runId, a.attemptId, a.lease, asked, events);
    RunBetween(tr, i, n, a.runId);
    FromLeaseGrows(tr.states[i].entries[a.runId].log, tr.states[n].entries[a.runId].log, a.attemptId, a.lease);
    FullStays(tr.states[i].entries[a.runId].log, tr.states[n].entries[a.runId].log, a, events);
  }

  /** Asking for a success once everything is in the log. */
  lemma StartsReporting(s: Story, s': Story, ttl: Time, a: Assignment, k: int, events: seq<PendingEvent>, result: RunResult)
    requires Emitted(s.now, a, events) && Unfinished(s.now, a, k) && Drifts(s, s', a.lease)
    requires Running(s.now.tr, ttl) && Running(s'.now.tr, ttl)
    requires s'.now.asked <= s.now.asked + {Ask(a, AskComplete(result)), Ask(a, AskAcknowledge)}
    ensures Reporting(s'.now, a, k, |s.now.tr.ops|, events, result)
  {
    hide Running, IsTrace, Grants, FromLease, Marks, Permitted, InStep, Succeeds;
    RunningTrace(s.now.tr, ttl);
    RunningTrace(s'.now.tr, ttl);
    var i := |s.now.tr.ops|;
    StateAt(s.now.tr.states, s'.now.tr.states, i);
    ClaimedStays(s, s', a, k, {s.now.files});
    forall n | k <= n < i
      ensures n < |s'.now.tr.ops| && !Succeeds(s'.now.tr.ops[n], a)
    {
      NoSuccess(s.now, ttl, a, k, n);
      DriftKeepsOp(s, s', a.lease, n);
    }
  }

  /** Requests that the holder of the lease no longer makes once it has reported. */
  ghost predicate Closed(asked: set<Packet>, asked': set<Packet>, lease: string) {
    forall p :: p in asked' && p !in asked && p.lease == lease ==> !p.ask.AskComplete? && !p.ask.AskAppend?
  }

  /** What later moments add to it: late copies of old requests commit nothing new. */
  lemma ReportingStays(s: Story, s': Story, a: Assignment, k: int, i: nat, events: seq<PendingEvent>, result: RunResult,
                       spools: set<map<string, File>>)
    requires Reporting(s.now, a, k, i, events, result) && Moves(s, s', a.lease, spools) && i <= |s.now.tr.ops|
    requires Closed(s.now.asked, s'.now.asked, a.lease)
    ensures Reporting(s'.now, a, k, i, events, result)
  {
    hide Grants, FromLease, Marks, Permitted, Succeeds;
    ClaimedStays(s, s', a, k, spools);
    StateAt(s.now.tr.states, s'.now.tr.states, i);
    assert forall n :: 0 <= n < |s.now.tr.ops| ==> s'.now.tr.ops[n] == s.now.tr.ops[n];
  }

  // ------------------------------------------------------------------ what is reported

  /** The talks about artifacts, in order. */
  ghost function Records(news: seq<Talk>): seq<Talk> {
    if news == [] then []
    else
      var last := news[|news| - 1];
      Records(news[..|news| - 1]) + if last.packet.ask.AskRecord? then [last] else []
  }

  /** What a node that has started the runtime reports in the end, told by the answers it got. */
  ghost function Due(a: Assignment, plan: Plan, news: seq<Talk>): EmitOrder.Ask {
    if !AllCarried(a, plan.emits, news) then AskFail(plan.trouble)
    else
      match plan.work
      case Crashed(cause) => AskFail(cause)
      case Produced(result, uploads) =>
        if AllUploaded(a, uploads, Records(news)) then AskComplete(result) else AskFail(plan.trouble)
  }

  /** What a node reports of an assignment, if anything. */
  ghost function Verdict(a: Assignment, plan: Plan, news: seq<Talk>): Option<EmitOrder.Ask> {
    if plan.unprepared.Some? then Some(AskFail(plan.unprepared.value))
    else if Heard(news, Ask(a, AskStart), Done) then Some(Due(a, plan, news))
    else None
  }

  /** This report was asked for and no other one. */
  ghost predicate OnlyReport(a: Assignment, verdict: Option<EmitOrder.Ask>, asked: set<Packet>, asked': set<Packet>) {
    && (verdict.Some? ==> Ask(a, verdict.value) in asked')
    && forall p :: p in asked' && p !in asked && IsReport(p) ==> verdict.Some? && p == Ask(a, verdict.value)
  }

  /** The outcome follows from the answers to the report and to the acknowledgement, and from what the keeper saw. */
  ghost predicate Closes(a: Assignment, ask: EmitOrder.Ask, news: seq<Talk>, keeperSaw: bool, outcome: Outcome) {
    && (outcome.Finished? || outcome.FailedWith? <==> Heard(news, Ask(a, ask), Done) && !keeperSaw)
    && (outcome == RunWasCancelled <==>
          (Heard(news, Ask(a, ask), Refused(ErrRunCancelled)) || keeperSaw)
          && (Heard(news, Ask(a, AskAcknowledge), Done) || Heard(news, Ask(a, AskAcknowledge), Refused(ErrInvalidTransition))))
  }

  lemma {:induction false} RecordsJoin(news: seq<Talk>, more: seq<Talk>)
    ensures Records(news + more) == Records(news) + Records(more)
  {
    if more == [] {
      assert news + more == news;
    } else {
      RecordsJoin(news, more[..|more| - 1]);
      assert (news + more)[..|news + more| - 1] == news + more[..|more| - 1];
    }
  }

  lemma {:induction false} NoRecords(news: seq<Talk>)
    requires forall i :: 0 <= i < |news| ==> !news[i].packet.ask.AskRecord?
    ensures Records(news) == []
  {
    if news != [] { NoRecords(news[..|news| - 1]); }
  }

  lemma {:induction false} AllRecords(news: seq<Talk>)
    requires AboutUploads(news)
    ensures Records(news) == news
  {
    if news != [] { AllRecords(news[..|news| - 1]); }
  }

  lemma NotHeard(news: seq<Talk>, packet: Packet)
    requires forall i :: 0 <= i < |news| ==> news[i].packet != packet
    ensures forall answer :: !Heard(news, packet, answer)
  {
  }

  /** Talks that concern no event leave what was carried as it is. */
  lemma SameCarried(a: Assignment, emits: seq<Emission>, news: seq<Talk>, other: seq<Talk>)
    requires forall i :: 0 <= i < |other| ==> !other[i].packet.ask.AskAppend?
    ensures AllCarried(a, emits, news + other) == AllCarried(a, emits, other + news) == AllCarried(a, emits, news)
  {
    hide Heard, EventAt;
    forall i | 0 <= i < |emits|
      ensures Carried(a, emits, i, news + other) == Carried(a, emits, i, other + news) == Carried(a, emits, i, news)
    {
      var packet := AppendOf(EventAt(a, emits, i));
      NotHeard(other, packet);
      HeardLater(news, other, packet, Done);
      HeardLater(other, news, packet, Done);
    }
  }

  /** What was concluded, in terms of the answers. */
  lemma ConcludedCloses(a: Assignment, ask: EmitOrder.Ask, news: seq<Talk>, start: Time, limit: Time, end: Time,
                        keeperSaw: bool, outcome: Outcome)
    requires (ask.AskComplete? || ask.AskFail?) && Concluded(a, ask, news, start, limit, end, keeperSaw, outcome)
    ensures Closes(a, ask, news, keeperSaw, outcome)
    ensures forall i :: 0 <= i < |news| ==> !news[i].packet.ask.AskRecord? && !news[i].packet.ask.AskAppend? && !news[i].packet.ask.AskStart?
  {
    hide Insisted, Final, Heard;
    var reports := ReportNews(a, news);
    var reportEnd := if |reports| == |news| then end else news[|reports|].from;
    var rest := news[|reports|..];
    assert news == reports + rest;
    AllAbout(reports, Ask(a, ask), start, limit, reportEnd);
    CancelIsFinal();
    HeardLast(reports, Ask(a, ask), start, limit, reportEnd, Done);
    HeardLast(reports, Ask(a, ask), start, limit, reportEnd, Refused(ErrRunCancelled));
    HeardLater(reports, rest, Ask(a, ask), Done);
    HeardLater(reports, rest, Ask(a, ask), Refused(ErrRunCancelled));
    NotHeard(rest, Ask(a, ask));
    HeardLater(reports, rest, Ask(a, AskAcknowledge), Done);
    HeardLater(reports, rest, Ask(a, AskAcknowledge), Refused(ErrInvalidTransition));
    NotHeard(reports, Ask(a, AskAcknowledge));
    OneAnswer(rest, Ask(a, AskAcknowledge));
  }

  lemma CancelIsFinal()
    ensures Final(Answered(Done)) && Final(Answered(Refused(ErrRunCancelled)))
  {
  }

  lemma OneAnswer(news: seq<Talk>, packet: Packet)
    requires news != [] ==> |news| == 1 && news[0].packet == packet
    ensures forall answer :: Heard(news, packet, answer) <==> news != [] && news[0].reply == Answered(answer)
  {
    if news != [] { assert news[0].packet == packet; }
  }

  /** Earlier talks about other things do not change it. */
  lemma ClosesLater(a: Assignment, ask: EmitOrder.Ask, before: seq<Talk>, news: seq<Talk>, keeperSaw: bool, outcome: Outcome)
    requires Closes(a, ask, news, keeperSaw, outcome) && (ask.AskComplete? || ask.AskFail?)
    requires forall i :: 0 <= i < |before| ==>
      before[i].packet.ask.AskStart? || before[i].packet.ask.AskAppend? || before[i].packet.ask.AskRecord?
    ensures Closes(a, ask, before + news, keeperSaw, outcome)
  {
    hide Heard;
    NotHeard(before, Ask(a, ask));
    NotHeard(before, Ask(a, AskAcknowledge));
    HeardLater(before, news, Ask(a, ask), Done);
    HeardLater(before, news, Ask(a, ask), Refused(ErrRunCancelled));
    HeardLater(before, news, Ask(a, AskAcknowledge), Done);
    HeardLater(before, news, Ask(a, AskAcknowledge), Refused(ErrInvalidTransition));
  }

  /** The end of an execution, from the last emission on: uploads, unless it failed, and the report. */
  ghost predicate Wrapped(a: Assignment, plan: Plan, failed: bool, news: seq<Talk>, ask: EmitOrder.Ask) {
    && (forall i :: 0 <= i < |news| ==> !news[i].packet.ask.AskAppend? && !news[i].packet.ask.AskStart?)
    && ask == if failed then AskFail(plan.trouble)
              else
                match plan.work
                case Crashed(cause) => AskFail(cause)
                case Produced(result, uploads) =>
                  if AllUploaded(a, uploads, Records(news)) then AskComplete(result) else AskFail(plan.trouble)
  }

  lemma WrappedShort(a: Assignment, plan: Plan, failed: bool, news: seq<Talk>, ask: EmitOrder.Ask, keeperSaw: bool, outcome: Outcome,
                     start: Time, limit: Time, end: Time)
    requires plan.work.Crashed? || failed
    requires ask == AskFail(if failed then plan.trouble else plan.work.cause)
    requires Concluded(a, ask, news, start, limit, end, keeperSaw, outcome)
    ensures Wrapped(a, plan, failed, news, ask) && Closes(a, ask, news, keeperSaw, outcome)
  {
    hide Concluded, Closes, AllUploaded, Records;
    ConcludedCloses(a, ask, news, start, limit, end, keeperSaw, outcome);
  }

  lemma WrappedWhole(a: Assignment, plan: Plan, said: seq<Talk>, uploaded: seq<Talk>, now: seq<Talk>, ok: bool, keeperSaw: bool,
                     outcome: Outcome, start: Time, limit: Time, end: Time)
    requires plan.work.Produced? && said <= uploaded <= now && AboutUploads(News(said, uploaded))
    requires ok <==> AllUploaded(a, plan.work.uploads, News(said, uploaded))
    requires Concluded(a, if ok then AskComplete(plan.work.result) else AskFail(plan.trouble), News(uploaded, now),
                       start, limit, end, keeperSaw, outcome)
    ensures var ask := if ok then AskComplete(plan.work.result) else AskFail(plan.trouble);
      Wrapped(a, plan, false, News(said, now), ask) && Closes(a, ask, News(said, now), keeperSaw, outcome)
  {
    hide Concluded, Closes, AllUploaded, Records;
    var ask := if ok then AskComplete(plan.work.result) else AskFail(plan.trouble);
    var u, c := News(said, uploaded), News(uploaded, now);
    assert News(said, now) == u + c;
    ConcludedCloses(a, ask, c, start, limit, end, keeperSaw, outcome);
    ClosesLater(a, ask, u, c, keeperSaw, outcome);
    RecordsJoin(u, c);
    NoRecords(c);
    AllRecords(u);
    assert u + [] == u;
  }

  /** Uploads what was produced and reports the end of an execution. */
  method WrapUp(w: World, a: Assignment, ghost claim: int, plan: Plan, failed: bool, sent: nat, stop: Time)
    returns (outcome: Outcome, ghost reporting: nat, ghost ask: EmitOrder.Ask)
    requires w.Valid() && sent <= |plan.emits| && Unfinished(w.Now(), a, claim) && AtMostOneSpooled(w.files, a.lease)
    requires Underway(w.Now(), a, Emissions(a, plan.emits, sent)) && plan.unprepared.None?
    requires !failed ==> sent == |plan.emits| && Emitted(w.Now(), a, Emissions(a, plan.emits, sent))
    modifies w
    ensures w.Valid() && Tidy(old(w.Told()), w.Told(), a.lease) && w.files == old(w.files)
    ensures Underway(w.Now(), a, Emissions(a, plan.emits, sent))
    ensures forall n :: 0 <= n < |w.tr.ops| && Succeeds(w.tr.ops[n], a) ==> CompletedAsPlanned(w.tr, n, a, plan, failed, sent)
    ensures Unfinished(w.Now(), a, claim)
            || (CompletesPlan(plan, failed, sent)
                && Reporting(w.Now(), a, claim, reporting, Emissions(a, plan.emits, |plan.emits|), plan.work.result))
    ensures outcome.Finished? ==> CompletesPlan(plan, failed, sent) && outcome.result == plan.work.result
    ensures outcome.Finished? ==> Holding(w.tr, Ask(a, AskComplete(outcome.result)))
    ensures outcome.FailedWith? ==> Holding(w.tr, Ask(a, AskFail(outcome.cause)))
    ensures outcome == RunWasCancelled ==> CancelRecorded(w.tr, a.runId)
    ensures old(w.talks) <= w.talks && Wrapped(a, plan, failed, News(old(w.talks), w.talks), ask)
    ensures Closes(a, ask, News(old(w.talks), w.talks), KeeperSaw(w.tr, a, plan.renewal), outcome)
    ensures OnlyReport(a, Some(ask), old(w.asked), w.asked) && old(w.asked) <= w.asked
  {
    hide Running, Safe, AllSafe, Drifts, Moves, Emitted, Underway, AtMostOneSpooled, Tidy, CancelRecorded, Holding,
         CompletedAfter, Claimed, Reporting, Succeeds, Concluded, Wrapped, Closes, News, KeeperSaw, AllUploaded, AboutUploads;
    reporting := 0;
    var report;
    ghost var commit;
    ghost var emitted, said := w.Told(), w.talks;
    ghost var events := Emissions(a, plan.emits, sent);
    if plan.work.Crashed? || failed {
      ask := AskFail(if failed then plan.trouble else plan.work.cause);
      outcome, report, commit := Conclude(w, a, AskFail(if failed then plan.trouble else plan.work.cause), plan.renewal, stop);
      WrappedShort(a, plan, failed, News(said, w.talks), ask, KeeperSaw(w.tr, a, plan.renewal), outcome,
                   old(w.Clock()), Min(old(w.Clock()) + 10 * SECOND, stop), w.Clock());
      FileUnchanged(emitted, w.Told(), a.lease);
      Onward(emitted, w.Told(), w.ttl, a, claim, events);
      NoSuccesses(w.Now(), w.ttl, a, claim);
      return;
    }
    var ok := UploadAll(w, a, plan.work.uploads, stop);
    ghost var uploaded, saidThen, clock := w.Told(), w.talks, w.Clock();
    Onward(emitted, uploaded, w.ttl, a, claim, events);
    FileUnchanged(emitted, uploaded, a.lease);
    ask := if ok then AskComplete(plan.work.result) else AskFail(plan.trouble);
    outcome, report, commit := Conclude(w, a, if ok then AskComplete(plan.work.result) else AskFail(plan.trouble), plan.renewal, stop);
    WrappedWhole(a, plan, said, saidThen, w.talks, ok, KeeperSaw(w.tr, a, plan.renewal), outcome,
                 clock, Min(clock + 10 * SECOND, stop), w.Clock());
    Onward(uploaded, w.Told(), w.ttl, a, claim, events);
    FileUnchanged(uploaded, w.Told(), a.lease);
    TidyTransitive(emitted, uploaded, w.Told(), a.lease);
    if ok {
      reporting := |uploaded.now.tr.ops|;
      StartsReporting(uploaded, w.Told(), w.ttl, a, claim, events, plan.work.result);
      AllFollow(w.Now(), w.ttl, a, claim, reporting, events, plan.work.result);
    } else {
      NoSuccesses(w.Now(), w.ttl, a, claim);
    }
  }

  /** What was said from the start on adds up to the report due. */
  lemma ReportDue(a: Assignment, plan: Plan, start: seq<Talk>, started: seq<Talk>, emitted: seq<Talk>, now: seq<Talk>,
                  sent: nat, failed: bool, ask: EmitOrder.Ask, keeperSaw: bool, outcome: Outcome)
    requires start <= started <= emitted <= now && plan.unprepared.None? && (ask.AskComplete? || ask.AskFail?)
    requires |started| == |start| + 1 && started[|start|].packet == Ask(a, AskStart) && started[|start|].reply == Answered(Done)
    requires AboutEvents(a, plan.emits, sent, News(started, emitted))
    requires failed <==> !AllCarried(a, plan.emits, News(started, emitted))
    requires Wrapped(a, plan, failed, News(emitted, now), ask) && Closes(a, ask, News(emitted, now), keeperSaw, outcome)
    ensures start <= now && Verdict(a, plan, News(start, now)) == Some(ask)
    ensures Closes(a, ask, News(start, now), keeperSaw, outcome)
  {
    hide AllCarried, Closes, AllUploaded, AboutEvents, Heard, Records;
    var s, e, c := News(start, started), News(started, emitted), News(emitted, now);
    var news := News(start, now);
    assert news == (s + e) + c && s == [started[|start|]];
    OnlyEvents(a, plan.emits, sent, e);
    SameCarried(a, plan.emits, e, s);
    SameCarried(a, plan.emits, s + e, c);
    RecordsJoin(s + e, c);
    NoRecords(s + e);
    assert [] + Records(c) == Records(c);
    OneAnswer(s, Ask(a, AskStart));
    HeardLater(s, e, Ask(a, AskStart), Done);
    HeardLater(s + e, c, Ask(a, AskStart), Done);
    ClosesLater(a, ask, s + e, c, keeperSaw, outcome);
  }

  lemma OnlyEvents(a: Assignment, emits: seq<Emission>, sent: nat, news: seq<Talk>)
    requires AboutEvents(a, emits, sent, news)
    ensures forall i :: 0 <= i < |news| ==> news[i].packet.ask.AskAppend?
  {
    forall i | 0 <= i < |news|
      ensures news[i].packet.ask.AskAppend?
    {
      assert AboutOne(a, emits, sent, news[i].packet);
    }
  }

  /** From a claim to the end of the attempt. */
  method RunOnce(w: World, a: Assignment, ghost claim: int, plan: Plan, stop: Time)
    returns (outcome: Outcome, sent: nat, failed: bool, ghost reporting: nat)
    requires w.Valid() && JustClaimed(w.Now(), a, claim)
    modifies w
    ensures w.Valid() && Tidy(old(w.Told()), w.Told(), a.lease)
    ensures sent <= |plan.emits| && Underway(w.Now(), a, Emissions(a, plan.emits, sent))
    ensures failed ==> Blocked(a, plan.emits, sent, w.files)
    // the one report that the answers call for was made, a success when everything before it succeeded, and no other one
    ensures old(w.talks) <= w.talks
    ensures OnlyReport(a, Verdict(a, plan, News(old(w.talks), w.talks)), old(w.asked), w.asked)
    ensures plan.unprepared.None? ==> Ask(a, AskStart) in w.asked
    // and its answer decides the outcome
    ensures Ends(a, plan, News(old(w.talks), w.talks), KeeperSaw(w.tr, a, plan.renewal), outcome)
    // every success under the lease, acknowledged or not, is that of an unfailed execution and follows all of its events
    ensures forall n :: 0 <= n < |w.tr.ops| && Succeeds(w.tr.ops[n], a) ==> CompletedAsPlanned(w.tr, n, a, plan, failed, sent)
    // and so is every success that a late request may still commit
    ensures Unfinished(w.Now(), a, claim)
            || (CompletesPlan(plan, failed, sent)
                && Reporting(w.Now(), a, claim, reporting, Emissions(a, plan.emits, |plan.emits|), plan.work.result))
    ensures outcome.Finished? ==> CompletesPlan(plan, failed, sent) && outcome.result == plan.work.result
    ensures outcome.Finished? ==> Holding(w.tr, Ask(a, AskComplete(outcome.result)))
    ensures outcome.FailedWith? ==> Holding(w.tr, Ask(a, AskFail(outcome.cause)))
    ensures outcome == RunWasCancelled ==> CancelRecorded(w.tr, a.runId)
  {
    hide Running, Safe, AllSafe, Drifts, Moves, Emitted, Underway, NoneSpooled, AtMostOneSpooled, Tidy, CancelRecorded, Holding,
         CompletedAfter, Claimed, Reporting, Succeeds, Verdict, Ends, Closes, Wrapped, News, KeeperSaw, AllCarried, AboutEvents,
         OnlyReport;
    outcome, sent, failed, reporting := Unsure, 0, false, 0;
    ghost var start, said, asked := w.Told(), w.talks, w.asked;
    var ready;
    ready, outcome := Begin(w, a, claim, plan, stop);
    ghost var started, begun := w.Told(), w.talks;
    NothingYet(w.Now(), a, plan.emits);
    EmittedUnderway(w.Now(), a, []);
    if !ready {
      NoSuccesses(w.Now(), w.ttl, a, claim);
      return;
    }
    failed, sent := EmitAll(w, a, claim, plan.emits);
    ghost var emitted, told, askedThen := w.Told(), w.talks, w.asked;
    TidyTransitive(start, started, emitted, a.lease);
    TidyNow(start, emitted, a.lease);
    ghost var ask;
    outcome, reporting, ask := WrapUp(w, a, claim, plan, failed, sent, stop);
    TidyTransitive(start, emitted, w.Told(), a.lease);
    WrappedAsk(a, plan, failed, News(told, w.talks), ask);
    ReportDue(a, plan, said, begun, told, w.talks, sent, failed, ask, KeeperSaw(w.tr, a, plan.renewal), outcome);
    OneReport(a, plan, said, w.talks, ask, asked, askedThen, w.asked, KeeperSaw(w.tr, a, plan.renewal), outcome);
  }

  /** Reports why the runtime cannot be started, or asks to start it. */
  method Begin(w: World, a: Assignment, ghost claim: int, plan: Plan, stop: Time) returns (ready: bool, outcome: Outcome)
    requires w.Valid() && JustClaimed(w.Now(), a, claim)
    modifies w
    ensures w.Valid() && Tidy(old(w.Told()), w.Told(), a.lease) && w.files == old(w.files)
    ensures Unfinished(w.Now(), a, claim) && Emitted(w.Now(), a, []) && NoneSpooled(w.files, a.lease)
    ensures old(w.asked) <= w.asked && old(w.talks) <= w.talks
    ensures plan.unprepared.None? ==> Ask(a, AskStart) in w.asked
    ensures ready ==> plan.unprepared.None? && forall p :: p in w.asked && p !in old(w.asked) ==> !IsReport(p)
    ensures ready ==> |w.talks| == |old(w.talks)| + 1
                      && w.talks[|old(w.talks)|].packet == Ask(a, AskStart) && w.talks[|old(w.talks)|].reply == Answered(Done)
    ensures !ready ==> OnlyReport(a, Verdict(a, plan, News(old(w.talks), w.talks)), old(w.asked), w.asked)
    ensures !ready ==> Ends(a, plan, News(old(w.talks), w.talks), KeeperSaw(w.tr, a, plan.renewal), outcome)
    ensures !ready ==> outcome == Unsure || (outcome == RunWasCancelled && CancelRecorded(w.tr, a.runId))
  {
    hide Running, Safe, AllSafe, Drifts, Moves, Emitted, Underway, NoneSpooled, AtMostOneSpooled, Tidy, CancelRecorded,
         Claimed, Verdict, Ends, News, KeeperSaw, OnlyReport;
    ready, outcome := false, Unsure;
    ghost var start, said, asked := w.Told(), w.talks, w.asked;
    ClaimedClean(w.Now(), w.ttl, a, claim);
    NoneIsAtMostOne(w.files, a.lease);
    if plan.unprepared.Some? {
      var reply, at := w.Exchange(a.lease, Ask(a, AskFail(plan.unprepared.value)), stop);
      Onward(start, w.Told(), w.ttl, a, claim, []);
      FileUnchanged(start, w.Told(), a.lease);
      GivenUp(a, plan, said, w.talks, asked, w.asked, KeeperSaw(w.tr, a, plan.renewal));
      return;
    }
    var reply, at := w.Exchange(a.lease, Ask(a, AskStart), stop);
    ghost var started, begun := w.Told(), w.talks;
    Onward(start, started, w.ttl, a, claim, []);
    FileUnchanged(start, started, a.lease);
    if reply == Answered(Done) { return true, Unsure; }
    if reply == Answered(Refused(ErrRunCancelled)) {
      CancelIsTrue(w.tr, w.ttl, at);
      outcome := Acknowledge(w, a, stop, false);
      DriftsTransitive(start, started, w.Told(), a.lease);
      Onward(start, w.Told(), w.ttl, a, claim, []);
      FileUnchanged(start, w.Told(), a.lease);
    }
    NotStarted(a, plan, said, begun, w.talks, asked, w.asked, KeeperSaw(w.tr, a, plan.renewal), outcome);
  }

  /** How an assignment ends for the node. */
  ghost predicate Ends(a: Assignment, plan: Plan, news: seq<Talk>, keeperSaw: bool, outcome: Outcome) {
    if plan.unprepared.Some? then outcome == Unsure
    else
      match Verdict(a, plan, news)
      case Some(ask) => Closes(a, ask, news, keeperSaw, outcome)
      case None =>
        && (outcome == RunWasCancelled || outcome == Unsure)
        && (outcome == RunWasCancelled <==>
              Heard(news, Ask(a, AskStart), Refused(ErrRunCancelled)) && Heard(news, Ask(a, AskAcknowledge), Done))
  }

  lemma GivenUp(a: Assignment, plan: Plan, before: seq<Talk>, now: seq<Talk>, asked: set<Packet>, asked': set<Packet>, keeperSaw: bool)
    requires plan.unprepared.Some? && before <= now && asked' == asked + {Ask(a, AskFail(plan.unprepared.value))}
    ensures OnlyReport(a, Verdict(a, plan, News(before, now)), asked, asked')
    ensures Ends(a, plan, News(before, now), keeperSaw, Unsure)
  {
    hide Heard, AllCarried, AllUploaded;
  }

  lemma NotStarted(a: Assignment, plan: Plan, before: seq<Talk>, begun: seq<Talk>, now: seq<Talk>, asked: set<Packet>, asked': set<Packet>,
                   keeperSaw: bool, outcome: Outcome)
    requires plan.unprepared.None? && |begun| == |before| + 1 && before <= begun && begun <= now
    requires begun[|before|].packet == Ask(a, AskStart) && begun[|before|].reply != Answered(Done)
    requires asked' <= asked + {Ask(a, AskStart), Ask(a, AskAcknowledge)}
    requires if begun[|before|].reply == Answered(Refused(ErrRunCancelled))
             then |now| == |begun| + 1 && now[|begun|].packet == Ask(a, AskAcknowledge)
                  && (outcome == RunWasCancelled || outcome == Unsure)
                  && (outcome == RunWasCancelled <==> now[|begun|].reply == Answered(Done))
             else now == begun && outcome == Unsure
    ensures before <= now && OnlyReport(a, Verdict(a, plan, News(before, now)), asked, asked')
    ensures Ends(a, plan, News(before, now), keeperSaw, outcome)
  {
    hide AllCarried, AllUploaded, Heard;
    var s, c := News(before, begun), News(begun, now);
    assert News(before, now) == s + c;
    OneAnswer(s, Ask(a, AskStart));
    NotHeard(c, Ask(a, AskStart));
    NotHeard(s, Ask(a, AskAcknowledge));
    OneAnswer(c, Ask(a, AskAcknowledge));
    HeardLater(s, c, Ask(a, AskStart), Done);
    HeardLater(s, c, Ask(a, AskStart), Refused(ErrRunCancelled));
    HeardLater(s, c, Ask(a, AskAcknowledge), Done);
  }

  lemma WrappedAsk(a: Assignment, plan: Plan, failed: bool, news: seq<Talk>, ask: EmitOrder.Ask)
    requires Wrapped(a, plan, failed, news, ask)
    ensures ask.AskComplete? || ask.AskFail?
  {
    hide AllUploaded, Records;
  }

  lemma OneReport(a: Assignment, plan: Plan, before: seq<Talk>, now: seq<Talk>, ask: EmitOrder.Ask, asked: set<Packet>,
                  askedThen: set<Packet>, asked': set<Packet>, keeperSaw: bool, outcome: Outcome)
    requires before <= now && plan.unprepared.None? && Verdict(a, plan, News(before, now)) == Some(ask)
    requires Closes(a, ask, News(before, now), keeperSaw, outcome)
    requires OnlyReport(a, Some(ask), askedThen, asked') && forall p :: p in askedThen && p !in asked ==> !IsReport(p)
    ensures OnlyReport(a, Verdict(a, plan, News(before, now)), asked, asked')
    ensures Ends(a, plan, News(before, now), keeperSaw, outcome)
  {
    hide Verdict, Closes;
  }

  /** The runtime was started, every emission was delivered, and it produced a result. */
  predicate CompletesPlan(plan: Plan, failed: bool, sent: nat) {
    plan.unprepared.None? && !failed && sent == |plan.emits| && plan.work.Produced? && ReadableUploads(plan.work.uploads)
  }

  ghost predicate CompletedAsPlanned(tr: Trace, commit: int, a: Assignment, plan: Plan, failed: bool, sent: nat) {
    CompletesPlan(plan, failed, sent) &&
    CompletedAfter(tr, commit, a, plan.work.result, Emissions(a, plan.emits, |plan.emits|))
  }

  predicate ReadableUploads(uploads: seq<Upload>) {
    forall i :: 0 <= i < |uploads| ==> uploads[i].readable
  }

  lemma NoSuccesses(d: Durable, ttl: Time, a: Assignment, k: int)
    requires Running(d.tr, ttl) && Unfinished(d, a, k)
    ensures forall n :: 0 <= n < |d.tr.ops| ==> !Succeeds(d.tr.ops[n], a)
  {
    hide Running, Unfinished, Succeeds;
    forall n | 0 <= n < |d.tr.ops|
      ensures !Succeeds(d.tr.ops[n], a)
    {
      NoSuccess(d, ttl, a, k, n);
    }
  }

  lemma AllFollow(d: Durable, ttl: Time, a: Assignment, k: int, i: nat, events: seq<PendingEvent>, result: RunResult)
    requires Running(d.tr, ttl) && Reporting(d, a, k, i, events, result)
    ensures forall n :: 0 <= n < |d.tr.ops| && Succeeds(d.tr.ops[n], a) ==> CompletedAfter(d.tr, n, a, result, events)
  {
    hide Running, Reporting, Succeeds, CompletedAfter;
    forall n | 0 <= n < |d.tr.ops| && Succeeds(d.tr.ops[n], a)
      ensures CompletedAfter(d.tr, n, a, result, events)
    {
      CommitAfterEvents(d, ttl, a, k, i, events, result, n);
    }
  }

  lemma NoneIsAtMostOne(files: map<string, File>, lease: string)
    requires NoneSpooled(files, lease)
    ensures AtMostOneSpooled(files, lease)
  {
  }

  lemma FileUnchanged(s: Story, s': Story, lease: string)
    requires Drifts(s, s', lease)
    ensures s'.now.files == s.now.files
  {
  }

  lemma TidyNow(s: Story, s': Story, lease: string)
    requires Tidy(s, s', lease)
    ensures AtMostOneSpooled(s'.now.files, lease)
  {
  }

  lemma Onward(s: Story, s': Story, ttl: Time, a: Assignment, k: int, events: seq<PendingEvent>)
    requires Drifts(s, s', a.lease) && Running(s.now.tr, ttl) && Running(s'.now.tr, ttl)
    requires NoMoreEvents(s.now.asked, s'.now.asked) && AtMostOneSpooled(s.now.files, a.lease)
    ensures Emitted(s.now, a, events) ==> Emitted(s'.now, a, events)
    ensures Underway(s.now, a, events) ==> Underway(s'.now, a, events)
    ensures Tidy(s, s', a.lease)
    ensures Unfinished(s.now, a, k) && NoneReported(s'.now.asked, a.lease) ==> Unfinished(s'.now, a, k)
  {
    hide Running, Underway, Emitted, NoMoreEvents, AtMostOneSpooled, Moves, Tidy, Claimed;
    EmittedStays(s, s', ttl, a, events);
    DriftTidy(s, s', a.lease);
    if Unfinished(s.now, a, k) { ClaimedStays(s, s', a, k, {s.now.files}); }
  }
}

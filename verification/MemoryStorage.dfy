/** The in-memory store: maps and counters changed in place, proved to take the steps of the protocol. */
module MemoryStorage {
  import opened Types
  import opened Identity
  import opened RunProtocol
  import opened RunInvariants
  import opened Protocol
  import opened Behaviours

  datatype Node = Node(registration: Registration, active: int, lastSeen: Time)

  /** Every counter is the number of live attempts on its node. */
  ghost predicate Counted(nodes: map<string, Node>, entries: map<string, Entry>) {
    "" !in nodes && forall n :: n in nodes ==> nodes[n].active == |LiveOn(entries, n)|
  }

  function Released(nodes: map<string, Node>, nodeId: string): map<string, Node> {
    if nodeId in nodes && nodes[nodeId].active > 0
    then nodes[nodeId := nodes[nodeId].(active := nodes[nodeId].active - 1)]
    else nodes
  }

  /** Giving up a live attempt: the counter was positive, so the guard never hides a double release. */
  lemma ReleaseCounts(nodes: map<string, Node>, entries: map<string, Entry>, r: string, e': Entry)
    requires Counted(nodes, entries) && r in entries && Live(entries[r]) && !Live(e')
    ensures entries[r].run.attempt.nodeId in nodes ==> nodes[entries[r].run.attempt.nodeId].active > 0
    ensures Counted(Released(nodes, entries[r].run.attempt.nodeId), entries[r := e'])
  {
    hide Live;
    var n := entries[r].run.attempt.nodeId;
    var entries' := entries[r := e'];
    forall m
      ensures LiveOn(entries', m) == if m == n then LiveOn(entries, m) - {r} else LiveOn(entries, m)
    {
    }
    assert r in LiveOn(entries, n);
  }

  lemma KeepCounts(nodes: map<string, Node>, entries: map<string, Entry>, r: string, e': Entry)
    requires Counted(nodes, entries)
    requires if r in entries then Live(e') == Live(entries[r]) && (Live(e') ==> e'.run.attempt.nodeId == entries[r].run.attempt.nodeId)
             else !Live(e')
    ensures Counted(nodes, entries[r := e'])
  {
    hide Live;
    forall m ensures LiveOn(entries[r := e'], m) == LiveOn(entries, m) {
    }
  }

  lemma GrantCounts(nodes: map<string, Node>, entries: map<string, Entry>, r: string, e': Entry, n: string)
    requires Counted(nodes, entries) && r in entries && !Live(entries[r]) && Live(e')
    requires e'.run.attempt.nodeId == n && n in nodes
    ensures Counted(nodes[n := nodes[n].(active := nodes[n].active + 1)], entries[r := e'])
  {
    hide Live;
    forall m
      ensures LiveOn(entries[r := e'], m) == if m == n then LiveOn(entries, m) + {r} else LiveOn(entries, m)
    {
    }
    assert r !in LiveOn(entries, n);
  }

  ghost function Registrations(nodes: map<string, Node>): map<string, Registration> {
    map n | n in nodes :: nodes[n].registration
  }

  lemma ReleasedRegistrations(nodes: map<string, Node>, nodeId: string)
    ensures Registrations(Released(nodes, nodeId)) == Registrations(nodes)
  {
  }

  /** The last stored attempt is a copy from when it was queued; the current one is in the run. */
  ghost function PastOf(attempts: seq<Attempt>): seq<Attempt> {
    if attempts == [] then [] else attempts[..|attempts| - 1]
  }

  /** The tables, read as one entry a run. */
  ghost predicate Tables(entries: map<string, Entry>, runs: map<string, Run>, requests: map<string, Request>,
                         events: map<string, seq<Event>>, history: map<string, seq<Attempt>>) {
    && entries.Keys == runs.Keys == requests.Keys == events.Keys == history.Keys
    && forall r :: r in entries ==> Row(entries[r], r, runs[r], requests[r], events[r], history[r])
  }

  ghost predicate Row(e: Entry, r: string, run: Run, request: Request, log: seq<Event>, attempts: seq<Attempt>) {
    attempts != [] && run.id == r && e == Entry(run, request, log, PastOf(attempts))
  }

  lemma RowAt(entries: map<string, Entry>, runs: map<string, Run>, requests: map<string, Request>,
              events: map<string, seq<Event>>, history: map<string, seq<Attempt>>, r: string)
    requires Tables(entries, runs, requests, events, history) && (r in entries || r in runs)
    ensures r in entries && r in runs && r in requests && r in events && r in history
    ensures Row(entries[r], r, runs[r], requests[r], events[r], history[r])
  {
  }

  lemma PutRow(entries: map<string, Entry>, runs: map<string, Run>, requests: map<string, Request>,
               events: map<string, seq<Event>>, history: map<string, seq<Attempt>>,
               r: string, run: Run, request: Request, log: seq<Event>, attempts: seq<Attempt>)
    requires Tables(entries, runs, requests, events, history) && run.id == r && attempts != []
    ensures Tables(entries[r := Entry(run, request, log, PastOf(attempts))], runs[r := run], requests[r := request],
                   events[r := log], history[r := attempts])
  {
    hide PastOf;
  }

  lemma SameAt<T>(m: map<string, T>, r: string)
    requires r in m
    ensures m[r := m[r]] == m
  {
  }

  class MemoryStorage {
    var nodes: map<string, Node>
    var runs: map<string, Run>
    var requests: map<string, Request>
    var events: map<string, seq<Event>>
    var byIdempotency: map<string, string>
    var attemptHistory: map<string, seq<Attempt>>
    /** The last reading of the clock, and the random identifiers drawn so far. */
    var clock: Time
    var issued: set<string>

    /** The same tables, one entry a run. */
    ghost var entries: map<string, Entry>

    ghost predicate Shape()
      reads this
    {
      Tables(entries, runs, requests, events, attemptHistory)
    }

    ghost function View(): State
      reads this
    {
      State(clock, Registrations(nodes), entries, byIdempotency, issued)
    }

    ghost predicate Valid()
      reads this
    {
      Shape() && Inv(View()) && Counted(nodes, entries)
    }

    constructor ()
      ensures Valid() && Init(View())
    {
      nodes, runs, requests, events := map[], map[], map[], map[];
      byIdempotency, attemptHistory := map[], map[];
      clock, issued, entries := 0, {}, map[];
    }

    method Now() returns (t: Time)
      modifies this`clock
      ensures old(clock) <= t == clock
    {
      t :| clock <= t;
      clock := t;
    }

    method NewId() returns (id: string)
      modifies this`issued
      ensures Fresh(old(issued), id) && issued == old(issued) + {id}
    {
      FreshExists(issued);
      id :| Fresh(issued, id);
      issued := issued + {id};
    }

    // ---------------------------------------------------------------- helpers

    method AppendTo(r: string, body: EventBody)
      requires Shape() && r in runs
      modifies this`events, this`entries
      ensures Shape() && r in old(entries) && entries == old(entries)[r := Append(old(entries)[r], body)]
    {
      hide Tables, Terminals, Started, LogShape, PastOf;
      RowAt(entries, runs, requests, events, attemptHistory, r);
      events := events[r := events[r] + [Event(Assigned, r, runs[r].attempt.id, |events[r]| + 1, body)]];
      entries := entries[r := Append(entries[r], body)];
      PutRow(old(entries), runs, requests, old(events), attemptHistory, r, runs[r], requests[r], events[r], attemptHistory[r]);
      SameAt(runs, r); SameAt(requests, r); SameAt(attemptHistory, r);
    }

    method ReleaseNode(nodeId: string)
      modifies this`nodes
      ensures nodes == Released(old(nodes), nodeId) && Registrations(nodes) == old(Registrations(nodes))
    {
      ReleasedRegistrations(nodes, nodeId);
      if nodeId in nodes && nodes[nodeId].active > 0 {
        nodes := nodes[nodeId := nodes[nodeId].(active := nodes[nodeId].active - 1)];
      }
    }

    /** Writes one run back. */
    method SetRun(r: string, run: Run)
      requires Shape() && r in runs && run.id == r
      modifies this`runs, this`entries
      ensures Shape() && r in old(entries) && entries == old(entries)[r := old(entries)[r].(run := run)]
      ensures runs == old(runs)[r := run]
    {
      hide Tables, PastOf;
      RowAt(entries, runs, requests, events, attemptHistory, r);
      runs := runs[r := run];
      entries := entries[r := entries[r].(run := run)];
      PutRow(old(entries), old(runs), requests, events, attemptHistory, r, run, requests[r], events[r], attemptHistory[r]);
      SameAt(requests, r); SameAt(events, r); SameAt(attemptHistory, r);
    }

    method RequeueExpired(r: string, now: Time)
      requires Shape() && r in runs && Counted(nodes, entries)
      modifies this`runs, this`events, this`entries, this`nodes
      ensures Shape() && Counted(nodes, entries) && r in old(entries)
      ensures entries == old(entries)[r := Expire(old(entries)[r], now)]
      ensures Registrations(nodes) == old(Registrations(nodes))
    {
      hide Tables, Terminals, Started, LogShape, Counted, PastOf, Registrations, Released;
      RowAt(entries, runs, requests, events, attemptHistory, r);
      var attempt := runs[r].attempt;
      if attempt.status != AttemptLeased || !LeasePassed(attempt, now) {
        return;
      }
      ReleaseNode(attempt.nodeId);
      AppendTo(r, EvLeaseExpired(attempt.nodeId));
      SetRun(r, runs[r].(attempt := attempt.(status := AttemptQueued, nodeId := "", lease := "", leaseExpiresAt := None)));
      assert entries == old(entries)[r := Expire(old(entries)[r], now)];
      ReleaseCounts(old(nodes), old(entries), r, Expire(old(entries)[r], now));
    }

    method FinalizeCancellation(r: string, now: Time)
      requires Shape() && r in runs && Counted(nodes, entries)
      requires runs[r].status == RunCancelled || Live(entries[r]) || runs[r].attempt.nodeId == ""
      modifies this`runs, this`events, this`entries, this`nodes
      ensures Shape() && Counted(nodes, entries) && r in old(entries)
      ensures entries == old(entries)[r := FinalizeCancel(old(entries)[r], now)]
      ensures Registrations(nodes) == old(Registrations(nodes))
    {
      hide Tables, Terminals, Started, LogShape, PastOf, Registrations, LiveOn;
      RowAt(entries, runs, requests, events, attemptHistory, r);
      var run := runs[r];
      if run.status == RunCancelled {
        return;
      }
      ReleaseNode(run.attempt.nodeId);
      SetRun(r, run.(attempt := run.attempt.(status := AttemptCancelled, completedAt := Some(now)),
                     status := RunCancelled, cancelledAt := Some(now), completedAt := Some(now)));
      AppendTo(r, EvAttemptCancelled(run.cancelReason));
      AppendTo(r, EvRunCancelled(run.cancelReason));
      ghost var done := FinalizeCancel(old(entries)[r], now);
      assert entries == old(entries)[r := done];
      if Live(old(entries)[r]) {
        ReleaseCounts(old(nodes), old(entries), r, done);
      } else {
        KeepCounts(nodes, old(entries), r, done);
      }
    }

    method CancelRunLocked(r: string, reason: string, requester: string, now: Time)
      requires Shape() && r in runs && Counted(nodes, entries) && Sound(entries[r])
      modifies this`runs, this`events, this`entries, this`nodes
      ensures Shape() && Counted(nodes, entries) && r in old(entries)
      ensures entries == old(entries)[r := Cancel(old(entries)[r], reason, requester, now)]
      ensures Registrations(nodes) == old(Registrations(nodes))
    {
      hide Tables, Terminals, Started, LogShape, PastOf, Registrations, LiveOn, Counted, LogSound, HistorySound, FinalizeCancel, HasEvent, Appendable;
      RowAt(entries, runs, requests, events, attemptHistory, r);
      if Terminal(runs[r].status) || runs[r].cancelRequestedAt.Some? {
        return;
      }
      SetRun(r, runs[r].(cancelRequestedAt := Some(now), cancelReason := reason));
      AppendTo(r, EvCancelRequested(reason, requester));
      KeepCounts(nodes, old(entries), r, entries[r]);
      assert entries == old(entries)[r := entries[r]];
      if runs[r].attempt.status == AttemptQueued {
        FinalizeCancellation(r, now);
        assert entries == old(entries)[r := entries[r]];
        return;
      }
      ghost var asked := entries[r];
      RowAt(entries, runs, requests, events, attemptHistory, r);
      SetRun(r, runs[r].(status := RunCancelling));
      KeepCounts(nodes, old(entries), r, entries[r]);
      assert entries == old(entries)[r := entries[r]];
    }

    /** Accepts the current lease while it runs; puts an unstarted run whose lease is over back in the queue. */
    method CheckLease(r: string, attemptId: string, lease: string) returns (error: Option<Error>, ghost t1: Time)
      requires Shape() && Counted(nodes, entries)
      modifies this`runs, this`events, this`entries, this`nodes, this`clock
      ensures Shape() && Counted(nodes, entries)
      ensures old(clock) <= t1 <= clock && Registrations(nodes) == old(Registrations(nodes))
      ensures r !in old(entries) ==> error == Some(ErrNotFound) && entries == old(entries)
      ensures r in old(entries) ==>
                var (e, ok) := Authorize(old(entries)[r], attemptId, lease, t1);
                entries == old(entries)[r := e] && error == if ok then None else Some(ErrInvalidLease)
      ensures error.None? ==> entries == old(entries) && r in runs
    {
      hide Tables, Terminals, Started, LogShape, PastOf, Registrations, LiveOn, Counted, Expire;
      t1 := clock;
      if r !in runs {
        assert r !in entries by { if r in entries { RowAt(entries, runs, requests, events, attemptHistory, r); } }
        return Some(ErrNotFound), t1;
      }
      RowAt(entries, runs, requests, events, attemptHistory, r);
      var attempt := runs[r].attempt;
      SameAt(entries, r);
      if attempt.id != attemptId || lease == "" || attempt.lease != lease {
        return Some(ErrInvalidLease), t1;
      }
      var now := Now();
      t1 := now;
      if LeaseOver(attempt, now) {
        var later := Now();
        RequeueExpired(r, later);
        ExpireLater(old(entries)[r], now, later);
        return Some(ErrInvalidLease), t1;
      }
      return None, t1;
    }

    // ---------------------------------------------------------------- calls made with a lease

    method CommitStart(r: string, now: Time)
      requires Shape() && r in runs && Counted(nodes, entries) && Live(entries[r])
      modifies this`runs, this`events, this`entries, this`nodes
      ensures Shape() && Counted(nodes, entries) && r in old(entries)
      ensures entries == old(entries)[r := Begin(old(entries)[r], now)] && Registrations(nodes) == old(Registrations(nodes))
    {
      hide Tables, Terminals, Started, LogShape, PastOf, Registrations, Counted, LiveOn, HasEvent;
      RowAt(entries, runs, requests, events, attemptHistory, r);
      var run := runs[r];
      SetRun(r, run.(status := RunRunning, startedAt := Some(now),
                     attempt := run.attempt.(status := AttemptRunning, startedAt := Some(now))));
      AppendTo(r, EvStarted(run.attempt.nodeId));
      AppendTo(r, EvRunStarted);
      KeepCounts(nodes, old(entries), r, Begin(old(entries)[r], now));
      assert entries == old(entries)[r := Begin(old(entries)[r], now)];
    }

    method CommitSuccess(r: string, result: RunResult, now: Time)
      requires Shape() && r in runs && Counted(nodes, entries) && Live(entries[r])
      modifies this`runs, this`events, this`entries, this`nodes
      ensures Shape() && Counted(nodes, entries) && r in old(entries)
      ensures entries == old(entries)[r := Succeed(old(entries)[r], result, now)] && Registrations(nodes) == old(Registrations(nodes))
    {
      hide Tables, Terminals, Started, LogShape, PastOf, Registrations, Counted, LiveOn, HasEvent;
      RowAt(entries, runs, requests, events, attemptHistory, r);
      var run := runs[r];
      SetRun(r, run.(status := RunSucceeded, result := Some(result), completedAt := Some(now),
                     attempt := run.attempt.(status := AttemptSucceeded, completedAt := Some(now))));
      ReleaseNode(run.attempt.nodeId);
      AppendTo(r, EvAttemptSucceeded);
      AppendTo(r, EvRunSucceeded(result));
      ReleaseCounts(old(nodes), old(entries), r, Succeed(old(entries)[r], result, now));
      assert entries == old(entries)[r := Succeed(old(entries)[r], result, now)];
    }

    method CommitFailure(r: string, cause: string, now: Time)
      requires Shape() && r in runs && Counted(nodes, entries) && Live(entries[r])
      modifies this`runs, this`events, this`entries, this`nodes
      ensures Shape() && Counted(nodes, entries) && r in old(entries)
      ensures entries == old(entries)[r := Break(old(entries)[r], cause, now)] && Registrations(nodes) == old(Registrations(nodes))
    {
      hide Tables, Terminals, Started, LogShape, PastOf, Registrations, Counted, LiveOn, HasEvent;
      RowAt(entries, runs, requests, events, attemptHistory, r);
      var run := runs[r];
      SetRun(r, run.(status := RunFailed, error := cause, completedAt := Some(now),
                     attempt := run.attempt.(status := AttemptFailed, completedAt := Some(now))));
      ReleaseNode(run.attempt.nodeId);
      AppendTo(r, EvAttemptFailed(cause));
      AppendTo(r, EvRunFailed(cause));
      ReleaseCounts(old(nodes), old(entries), r, Break(old(entries)[r], cause, now));
      assert entries == old(entries)[r := Break(old(entries)[r], cause, now)];
    }

    method StartHeld(r: string, ghost attemptId: string, ghost lease: string, ghost t1: Time) returns (answer: Answer, ghost t2: Time, ghost t3: Time)
      requires Shape() && r in runs && Counted(nodes, entries) && Sound(entries[r])
      modifies this`runs, this`events, this`entries, this`nodes, this`clock
      ensures Shape() && Counted(nodes, entries) && Registrations(nodes) == old(Registrations(nodes)) && r in old(entries)
      ensures old(clock) <= clock && old(clock) <= t2 <= t3 <= clock
      ensures ApplyAuthorized(old(entries)[r], attemptId, lease, Call.Start(t1, t2, t3)).1 == answer
      ensures entries == old(entries)[r := ApplyAuthorized(old(entries)[r], attemptId, lease, Call.Start(t1, t2, t3)).0]
    {
      hide Tables, Sound, Terminals, Started, LogShape, PastOf, Registrations, Counted, LiveOn, Expire, FinalizeCancel, HasEvent, Begin, Succeed, Break;
      RowAt(entries, runs, requests, events, attemptHistory, r);
      SameAt(entries, r);
      var run := runs[r];
      t2, t3 := clock, clock;
      if run.attempt.status != AttemptLeased {
        return Refused(ErrInvalidTransition), t2, t3;
      }
      var now := Now();
      t2, t3 := now, now;
      if run.status == RunCancelling {
        FinalizeCancellation(r, now);
        return Refused(ErrRunCancelled), t2, t3;
      }
      var later := Now();
      t3 := later;
      if LeasePassed(run.attempt, now) {
        RequeueExpired(r, later);
        return Refused(ErrInvalidLease), t2, t3;
      }
      CommitStart(r, later);
      return Done, t2, t3;
    }

    method RenewHeld(r: string, ghost attemptId: string, ghost lease: string, ghost t1: Time, leaseTTL: Time) returns (answer: Answer, ghost t2: Time)
      requires Shape() && r in runs && Counted(nodes, entries) && Sound(entries[r])
      modifies this`runs, this`events, this`entries, this`nodes, this`clock
      ensures Shape() && Counted(nodes, entries) && Registrations(nodes) == old(Registrations(nodes)) && r in old(entries)
      ensures old(clock) <= clock && old(clock) <= t2 <= clock
      ensures ApplyAuthorized(old(entries)[r], attemptId, lease, Call.Renew(t1, t2, leaseTTL)).1 == answer
      ensures entries == old(entries)[r := ApplyAuthorized(old(entries)[r], attemptId, lease, Call.Renew(t1, t2, leaseTTL)).0]
    {
      hide Tables, Sound, Terminals, Started, LogShape, PastOf, Registrations, Counted, LiveOn, Expire, FinalizeCancel, HasEvent, Begin, Succeed, Break;
      RowAt(entries, runs, requests, events, attemptHistory, r);
      SameAt(entries, r);
      var run := runs[r];
      t2 := clock;
      if run.attempt.status != AttemptLeased && run.attempt.status != AttemptRunning {
        return Refused(ErrInvalidTransition), t2;
      }
      var now := Now();
      t2 := now;
      if LeaseOver(run.attempt, now) {
        return Refused(ErrInvalidLease), t2;
      }
      SetRun(r, run.(attempt := run.attempt.(leaseExpiresAt := Some(now + leaseTTL))));
      KeepCounts(nodes, old(entries), r, entries[r]);
      assert entries == old(entries)[r := entries[r]];
      return Renewed(now + leaseTTL, run.cancelRequestedAt.Some?, run.cancelReason), t2;
    }

    method AcknowledgeHeld(r: string, ghost attemptId: string, ghost lease: string, ghost t1: Time) returns (answer: Answer, ghost t2: Time)
      requires Shape() && r in runs && Counted(nodes, entries) && Sound(entries[r])
      modifies this`runs, this`events, this`entries, this`nodes, this`clock
      ensures Shape() && Counted(nodes, entries) && Registrations(nodes) == old(Registrations(nodes)) && r in old(entries)
      ensures old(clock) <= clock && old(clock) <= t2 <= clock
      ensures ApplyAuthorized(old(entries)[r], attemptId, lease, Call.Acknowledge(t1, t2)).1 == answer
      ensures entries == old(entries)[r := ApplyAuthorized(old(entries)[r], attemptId, lease, Call.Acknowledge(t1, t2)).0]
    {
      hide Tables, LogSound, HistorySound, Terminals, Started, LogShape, PastOf, Registrations, Counted, LiveOn, Expire, FinalizeCancel, HasEvent, Begin, Succeed, Break;
      RowAt(entries, runs, requests, events, attemptHistory, r);
      SameAt(entries, r);
      var run := runs[r];
      t2 := clock;
      if run.status == RunCancelled {
        return Done, t2;
      }
      if run.status != RunCancelling {
        return Refused(ErrInvalidTransition), t2;
      }
      var now := Now();
      t2 := now;
      FinalizeCancellation(r, now);
      return Done, t2;
    }

    method Start(a: Assignment) returns (answer: Answer, ghost call: Call)
      requires Valid()
      modifies this
      ensures Valid() && call.Start?
      ensures Next(old(View()), OpCall(a.runId, a.attemptId, a.lease, call, answer), View())
    {
      hide Tables, Inv, PastOf, Registrations, Counted, Expire, Apply, ApplyAuthorized, Authorize, CallStep, Sound;
      ghost var s := View();
      var error, t1 := CheckLease(a.runId, a.attemptId, a.lease);
      if error.Some? {
        call, answer := Call.Start(t1, clock, clock), Refused(error.value);
      } else {
        SoundAt(s, a.runId);
        ghost var t2, t3;
        answer, t2, t3 := StartHeld(a.runId, a.attemptId, a.lease, t1);
        call := Call.Start(t1, t2, t3);
      }
      Routed(s, a, call);
      CallTaken(s, a.runId, a.attemptId, a.lease, call, answer, View());
    }

    method Renew(a: Assignment, leaseTTL: Time) returns (answer: Answer, ghost call: Call)
      requires Valid()
      modifies this
      ensures Valid() && call.Renew? && call.ttl == leaseTTL
      ensures Next(old(View()), OpCall(a.runId, a.attemptId, a.lease, call, answer), View())
    {
      hide Tables, Inv, PastOf, Registrations, Counted, Expire, Apply, ApplyAuthorized, Authorize, CallStep, Sound;
      ghost var s := View();
      var error, t1 := CheckLease(a.runId, a.attemptId, a.lease);
      if error.Some? {
        call, answer := Call.Renew(t1, clock, leaseTTL), Refused(error.value);
      } else {
        SoundAt(s, a.runId);
        ghost var t2;
        answer, t2 := RenewHeld(a.runId, a.attemptId, a.lease, t1, leaseTTL);
        call := Call.Renew(t1, t2, leaseTTL);
      }
      Routed(s, a, call);
      CallTaken(s, a.runId, a.attemptId, a.lease, call, answer, View());
    }

    method AcknowledgeCancellation(a: Assignment) returns (answer: Answer, ghost call: Call)
      requires Valid()
      modifies this
      ensures Valid() && call.Acknowledge?
      ensures Next(old(View()), OpCall(a.runId, a.attemptId, a.lease, call, answer), View())
    {
      hide Tables, Inv, PastOf, Registrations, Counted, Expire, Apply, ApplyAuthorized, Authorize, CallStep, Sound;
      ghost var s := View();
      var error, t1 := CheckLease(a.runId, a.attemptId, a.lease);
      if error.Some? {
        call, answer := Call.Acknowledge(t1, clock), Refused(error.value);
      } else {
        SoundAt(s, a.runId);
        ghost var t2;
        answer, t2 := AcknowledgeHeld(a.runId, a.attemptId, a.lease, t1);
        call := Call.Acknowledge(t1, t2);
      }
      Routed(s, a, call);
      CallTaken(s, a.runId, a.attemptId, a.lease, call, answer, View());
    }

    method CompleteHeld(r: string, ghost a: Assignment, result: RunResult) returns (answer: Answer, ghost t1: Time, ghost t2: Time)
      requires Shape() && r in runs && Counted(nodes, entries) && Holds(entries[r], a.attemptId, a.lease)
      modifies this`runs, this`events, this`entries, this`nodes, this`clock
      ensures Shape() && Counted(nodes, entries) && Registrations(nodes) == old(Registrations(nodes)) && r in old(entries)
      ensures old(clock) <= t1 <= t2 <= clock
      ensures ApplyComplete(old(entries)[r], a.attemptId, a.lease, t1, t2, result).1 == answer
      ensures entries == old(entries)[r := ApplyComplete(old(entries)[r], a.attemptId, a.lease, t1, t2, result).0]
    {
      hide Tables, Sound, Terminals, Started, LogShape, PastOf, Registrations, Counted, LiveOn, Expire, FinalizeCancel, HasEvent, Begin, Succeed, Break;
      RowAt(entries, runs, requests, events, attemptHistory, r);
      SameAt(entries, r);
      var run := runs[r];
      t1, t2 := clock, clock;
      if run.status == RunSucceeded && run.attempt.status == AttemptSucceeded {
        return if run.result == Some(result) then Done else Refused(ErrInvalidTransition), t1, t2;
      }
      var now := Now();
      t1, t2 := now, now;
      if LeaseOver(run.attempt, now) {
        return Refused(ErrInvalidLease), t1, t2;
      }
      if run.attempt.status != AttemptRunning {
        return Refused(ErrInvalidTransition), t1, t2;
      }
      if run.status == RunCancelling {
        return Refused(ErrRunCancelled), t1, t2;
      }
      var later := Now();
      t2 := later;
      CommitSuccess(r, result, later);
      return Done, t1, t2;
    }

    method Complete(a: Assignment, result: RunResult) returns (answer: Answer, ghost call: Call)
      requires Valid()
      modifies this
      ensures Valid() && call.Complete? && call.result == result
      ensures Next(old(View()), OpCall(a.runId, a.attemptId, a.lease, call, answer), View())
    {
      hide Tables, Inv, PastOf, Registrations, Counted, ApplyComplete, CallStep;
      ghost var s := View();
      call := Call.Complete(clock, clock, result);
      if a.runId !in runs {
        AbsentRun(a.runId);
        answer := Refused(ErrNotFound);
      } else {
        RowAt(entries, runs, requests, events, attemptHistory, a.runId);
        SameAt(entries, a.runId);
        var attempt := runs[a.runId].attempt;
        if attempt.id != a.attemptId || a.lease == "" || attempt.lease != a.lease {
          answer := Refused(ErrInvalidLease);
          ReportsNeedTheLease(entries[a.runId], a.attemptId, a.lease);
        } else {
          ghost var t1, t2;
          answer, t1, t2 := CompleteHeld(a.runId, a, result);
          call := Call.Complete(t1, t2, result);
        }
      }
      CallTaken(s, a.runId, a.attemptId, a.lease, call, answer, View());
    }

    method FailHeld(r: string, ghost a: Assignment, cause: string) returns (answer: Answer, ghost t1: Time, ghost t2: Time)
      requires Shape() && r in runs && Counted(nodes, entries) && Holds(entries[r], a.attemptId, a.lease)
      modifies this`runs, this`events, this`entries, this`nodes, this`clock
      ensures Shape() && Counted(nodes, entries) && Registrations(nodes) == old(Registrations(nodes)) && r in old(entries)
      ensures old(clock) <= t1 <= t2 <= clock
      ensures ApplyFail(old(entries)[r], a.attemptId, a.lease, t1, t2, cause).1 == answer
      ensures entries == old(entries)[r := ApplyFail(old(entries)[r], a.attemptId, a.lease, t1, t2, cause).0]
    {
      hide Tables, Sound, Terminals, Started, LogShape, PastOf, Registrations, Counted, LiveOn, Expire, FinalizeCancel, HasEvent, Begin, Succeed, Break;
      RowAt(entries, runs, requests, events, attemptHistory, r);
      SameAt(entries, r);
      var run := runs[r];
      t1, t2 := clock, clock;
      if run.status == RunFailed && run.attempt.status == AttemptFailed {
        return if run.error == cause then Done else Refused(ErrInvalidTransition), t1, t2;
      }
      var now := Now();
      t1, t2 := now, now;
      if LeaseOver(run.attempt, now) {
        return Refused(ErrInvalidLease), t1, t2;
      }
      if run.attempt.status != AttemptRunning && run.attempt.status != AttemptLeased {
        return Refused(ErrInvalidTransition), t1, t2;
      }
      if run.status == RunCancelling {
        var later := Now();
        t2 := later;
        FinalizeCancellation(r, later);
        return Refused(ErrRunCancelled), t1, t2;
      }
      var later := Now();
      t2 := later;
      CommitFailure(r, cause, later);
      return Done, t1, t2;
    }

    method Fail(a: Assignment, cause: string) returns (answer: Answer, ghost call: Call)
      requires Valid()
      modifies this
      ensures Valid() && call.Fail? && call.cause == cause
      ensures Next(old(View()), OpCall(a.runId, a.attemptId, a.lease, call, answer), View())
    {
      hide Tables, Inv, PastOf, Registrations, Counted, ApplyFail, CallStep;
      ghost var s := View();
      call := Call.Fail(clock, clock, cause);
      if a.runId !in runs {
        AbsentRun(a.runId);
        answer := Refused(ErrNotFound);
      } else {
        RowAt(entries, runs, requests, events, attemptHistory, a.runId);
        SameAt(entries, a.runId);
        var attempt := runs[a.runId].attempt;
        if attempt.id != a.attemptId || a.lease == "" || attempt.lease != a.lease {
          answer := Refused(ErrInvalidLease);
          ReportsNeedTheLease(entries[a.runId], a.attemptId, a.lease);
        } else {
          ghost var t1, t2;
          answer, t1, t2 := FailHeld(a.runId, a, cause);
          call := Call.Fail(t1, t2, cause);
        }
      }
      CallTaken(s, a.runId, a.attemptId, a.lease, call, answer, View());
    }

    // ---------------------------------------------------------------- nodes, submissions, claims

    method RegisterNode(registration: Registration)
      requires Valid() && registration.id != ""
      modifies this
      ensures Valid() && Next(old(View()), OpRegister(registration), View())
      ensures registration.id in nodes && entries == old(entries)
      ensures nodes[registration.id].active == if registration.id in old(nodes) then old(nodes)[registration.id].active else 0
    {
      hide Tables, Inv, Counted, Registrations;
      ghost var s := View();
      var now := Now();
      RegisterCounts(nodes, s, registration, now);
      var active := if registration.id in nodes then nodes[registration.id].active else 0;
      nodes := nodes[registration.id := Node(registration, active, now)];
      RegisterTaken(s, registration, View());
    }

    method Heartbeat(nodeId: string) returns (reply: Reply<Node>)
      requires Valid()
      modifies this
      ensures Valid() && Next(old(View()), OpRead, View())
      ensures if nodeId in old(nodes) then nodeId in nodes && reply == Accepted(nodes[nodeId]) && nodes[nodeId].lastSeen == clock
              else reply == Rejected(ErrNotFound)
    {
      hide Tables, Inv;
      if nodeId !in nodes {
        ReadTaken(old(View()), View());
        return Rejected(ErrNotFound);
      }
      var now := Now();
      nodes := nodes[nodeId := nodes[nodeId].(lastSeen := now)];
      assert Registrations(nodes) == old(Registrations(nodes));
      ReadTaken(old(View()), View());
      return Accepted(nodes[nodeId]);
    }

    method Submit(request: Request) returns (run: Run, ghost attemptId: string, ghost t: Time)
      requires Valid()
      modifies this
      ensures Valid() && Next(old(View()), OpSubmit(request, run.id, attemptId, t), View())
      ensures run.id in runs && run == runs[run.id]
    {
      hide Tables, Inv, PastOf, Registrations, Counted, SubmitScope, NewEntry;
      var scope := SubmitScope(request);
      t, attemptId := clock, "";
      if scope in byIdempotency && byIdempotency[scope] != "" {
        var known := byIdempotency[scope];
        IndexedRun(View(), scope);
        RowAt(entries, runs, requests, events, attemptHistory, known);
        SubmitTaken(old(View()), request, known, attemptId, t, View());
        return runs[known], attemptId, t;
      }
      assert scope !in byIdempotency by { if scope in byIdempotency { IndexedRun(View(), scope); } }
      EntriesIssued(View());
      var now := Now();
      t := now;
      var runId := NewId();
      var id := NewId();
      attemptId := id;
      run := InsertRun(request, runId, id, now);
      byIdempotency := byIdempotency[scope := runId];
      assert issued == old(issued) + {runId, id};
      SubmitTaken(old(View()), request, runId, attemptId, t, View());
    }

    method InsertRun(request: Request, runId: string, attemptId: string, now: Time) returns (run: Run)
      requires Shape() && Counted(nodes, entries) && runId !in entries
      modifies this`runs, this`requests, this`events, this`attemptHistory, this`entries
      ensures Shape() && Counted(nodes, entries)
      ensures entries == old(entries)[runId := NewEntry(request, runId, attemptId, now)]
      ensures run.id == runId && runId in runs && run == runs[runId]
    {
      hide Tables, Terminals, Started, LogShape, Counted, HasEvent, NewRun, Appendable, Live, PastOf;
      var attempt := NewAttempt(attemptId, 1, now);
      run := InsertRow(request, runId, attempt, now);
      AppendTo(runId, EvCreated(RunQueued));
      AppendTo(runId, EvQueued(1, None));
      assert entries == old(entries)[runId := NewEntry(request, runId, attemptId, now)];
      NewEntryFacts(request, runId, attemptId, now);
      KeepCounts(nodes, old(entries), runId, NewEntry(request, runId, attemptId, now));
    }

    method InsertRow(request: Request, runId: string, attempt: Attempt, now: Time) returns (run: Run)
      requires Shape()
      modifies this`runs, this`requests, this`events, this`attemptHistory, this`entries
      ensures Shape() && entries == old(entries)[runId := Entry(NewRun(request, runId, attempt, now), request, [], [])]
      ensures run.id == runId && runId in runs && run == runs[runId]
    {
      hide Tables, NewRun;
      NewRunFacts(request, runId, attempt, now);
      run := NewRun(request, runId, attempt, now);
      runs := runs[runId := run];
      attemptHistory := attemptHistory[runId := [attempt]];
      requests := requests[runId := request];
      events := events[runId := []];
      entries := entries[runId := Entry(run, request, [], [])];
      PutRow(old(entries), old(runs), old(requests), old(events), old(attemptHistory), runId, run, request, [], [attempt]);
    }

    method SweepRun(r: string, now: Time)
      requires Shape() && r in runs && Counted(nodes, entries) && Sound(entries[r])
      modifies this`runs, this`events, this`entries, this`nodes
      ensures Shape() && Counted(nodes, entries) && Registrations(nodes) == old(Registrations(nodes)) && r in old(entries)
      ensures entries == old(entries)[r := Sweep(old(entries)[r], now)]
    {
      hide Tables, Terminals, Started, LogShape, PastOf, Registrations, Counted, LiveOn, HasEvent, Expire, FinalizeCancel, Cancel, LogSound, HistorySound;
      RowAt(entries, runs, requests, events, attemptHistory, r);
      SameAt(entries, r);
      if runs[r].deadlineAt.Some? && runs[r].deadlineAt.value <= now && runs[r].cancelRequestedAt.None? {
        CancelRunLocked(r, "run timeout exceeded", "relay", now);
      }
      RowAt(entries, runs, requests, events, attemptHistory, r);
      ghost var e1 := entries[r];
      if runs[r].status == RunCancelling
         && (runs[r].attempt.status == AttemptLeased || runs[r].attempt.status == AttemptRunning)
         && LeasePassed(runs[r].attempt, now) {
        FinalizeCancellation(r, now);
      } else {
        RequeueExpired(r, now);
      }
      assert entries == old(entries)[r := entries[r]];
    }

    method SweepRuns(now: Time)
      requires Shape() && Counted(nodes, entries) && forall r :: r in entries ==> Sound(entries[r])
      modifies this`runs, this`events, this`entries, this`nodes
      ensures Shape() && Counted(nodes, entries) && Registrations(nodes) == old(Registrations(nodes))
      ensures entries == SweepAll(old(entries), now)
    {
      hide Tables, Registrations, Counted, Sweep, Sound;
      ghost var before := entries;
      var todo := runs.Keys;
      KeysAgree(entries, runs, requests, events, attemptHistory);
      while todo != {}
        invariant Shape() && Counted(nodes, entries) && Registrations(nodes) == old(Registrations(nodes))
        invariant todo <= entries.Keys == before.Keys
        invariant forall r :: r in entries ==> entries[r] == if r in todo then before[r] else Sweep(before[r], now)
        decreases todo
      {
        var r :| r in todo;
        RowAt(entries, runs, requests, events, attemptHistory, r);
        SweepRun(r, now);
        todo := todo - {r};
      }
    }

    /** The first matching run in the map's iteration order gets the lease. */
    method GrantFirst(nodeId: string, leaseTTL: Time, now: Time) returns (reply: Reply<Assignment>)
      requires Shape() && Counted(nodes, entries) && nodeId in nodes
      modifies this`runs, this`events, this`entries, this`nodes, this`issued
      ensures Shape() && Counted(nodes, entries) && Registrations(nodes) == old(Registrations(nodes))
      ensures reply.Rejected? ==> reply.error == ErrNoAssignment && entries == old(entries) && issued == old(issued)
      ensures reply.Rejected? ==> forall r :: r in entries ==> !Claimable(entries[r], old(nodes)[nodeId].registration, now)
      ensures reply.Accepted? ==> var a := reply.value;
        && a.runId in old(entries) && Claimable(old(entries)[a.runId], old(nodes)[nodeId].registration, now)
        && Fresh(old(issued), a.lease) && issued == old(issued) + {a.lease}
        && a == Assignment(a.runId, old(entries)[a.runId].run.attempt.id, a.lease, now + leaseTTL, old(entries)[a.runId].request)
        && entries == old(entries)[a.runId := Grant(old(entries)[a.runId], nodeId, a.lease, now + leaseTTL)]
    {
      hide Tables, Terminals, Started, LogShape, PastOf, Registrations, Counted, LiveOn, HasEvent, Grant, Fresh;
      ghost var before := entries;
      var node := nodes[nodeId].registration;
      var todo := runs.Keys;
      KeysAgree(entries, runs, requests, events, attemptHistory);
      while todo != {}
        invariant Shape() && entries == before && todo <= entries.Keys && nodes == old(nodes) && issued == old(issued)
        invariant Counted(nodes, entries)
        invariant forall r :: r in entries && r !in todo ==> !Claimable(entries[r], node, now)
        decreases todo
      {
        var r :| r in todo;
        todo := todo - {r};
        RowAt(entries, runs, requests, events, attemptHistory, r);
        var attempt := runs[r].attempt;
        if runs[r].status != RunQueued || attempt.status != AttemptQueued
           || (attempt.availableAt.Some? && now < attempt.availableAt.value) {
          continue;
        }
        if !(requests[r].needs <= node.offers) {
          continue;
        }
        var lease := NewId();
        CommitGrant(r, nodeId, lease, now + leaseTTL);
        return Accepted(Assignment(r, attempt.id, lease, now + leaseTTL, requests[r]));
      }
      return Rejected(ErrNoAssignment);
    }

    method CommitGrant(r: string, nodeId: string, lease: string, expires: Time)
      requires Shape() && r in runs && Counted(nodes, entries) && nodeId in nodes && !Live(entries[r])
      modifies this`runs, this`events, this`entries, this`nodes
      ensures Shape() && Counted(nodes, entries) && Registrations(nodes) == old(Registrations(nodes)) && r in old(entries)
      ensures entries == old(entries)[r := Grant(old(entries)[r], nodeId, lease, expires)]
    {
      hide Tables, Terminals, Started, LogShape, PastOf, Counted, LiveOn;
      RowAt(entries, runs, requests, events, attemptHistory, r);
      var run := runs[r];
      SetRun(r, run.(attempt := run.attempt.(status := AttemptLeased, nodeId := nodeId, lease := lease, leaseExpiresAt := Some(expires))));
      nodes := nodes[nodeId := nodes[nodeId].(active := nodes[nodeId].active + 1)];
      AppendTo(r, EvLeased(nodeId, expires));
      GrantCounts(old(nodes), old(entries), r, Grant(old(entries)[r], nodeId, lease, expires), nodeId);
      assert entries == old(entries)[r := Grant(old(entries)[r], nodeId, lease, expires)];
      assert Registrations(nodes) == old(Registrations(nodes));
    }

    method Claim(nodeId: string, leaseTTL: Time) returns (reply: Reply<Assignment>, ghost t: Time)
      requires Valid()
      modifies this
      ensures Valid() && Next(old(View()), OpClaim(nodeId, leaseTTL, t, reply), View())
    {
      hide Tables, Inv, Counted, Grant, Fresh, SweepAll, Claimable, LiveOn, Registrations, Sound;
      ghost var s := View();
      t := clock;
      NodeCounted(nodes, entries, nodeId);
      RegistrationAt(nodes, nodeId);
      if nodeId !in nodes {
        reply := Rejected(ErrNotFound);
      } else if nodes[nodeId].active >= nodes[nodeId].registration.capacity {
        reply := Rejected(ErrNoAssignment);
      } else {
        AllSound(s);
        var now := Now();
        t := now;
        SweepRuns(now);
        RegistrationAt(nodes, nodeId);
        reply := GrantFirst(nodeId, leaseTTL, now);
      }
      ClaimTaken(s, nodeId, leaseTTL, t, reply, View());
    }

    method CancelRun(runId: string, reason: string, requester: string) returns (reply: Reply<Run>, ghost t: Time)
      requires Valid()
      modifies this
      ensures Valid() && Next(old(View()), OpCancel(runId, reason, requester, t), View())
      ensures if runId in runs then reply == Accepted(runs[runId]) else reply == Rejected(ErrNotFound)
    {
      hide Tables, Inv, Registrations, Counted, Cancel, PastOf;
      ghost var s := View();
      t := clock;
      if runId !in runs {
        AbsentRun(runId);
        reply := Rejected(ErrNotFound);
      } else {
        RowAt(entries, runs, requests, events, attemptHistory, runId);
        SoundAt(s, runId);
        var now := Now();
        t := now;
        CancelRunLocked(runId, reason, requester, now);
        RowAt(entries, runs, requests, events, attemptHistory, runId);
        reply := Accepted(runs[runId]);
      }
      CancelTaken(s, runId, reason, requester, t, View());
    }

    // ---------------------------------------------------------------- reconciliation

    method CancelIfOverdue(r: string, now: Time) returns (done: bool)
      requires Shape() && r in runs && Counted(nodes, entries) && Sound(entries[r])
      modifies this`runs, this`events, this`entries, this`nodes
      ensures Shape() && Counted(nodes, entries) && Registrations(nodes) == old(Registrations(nodes)) && r in old(entries)
      ensures done == Overdue(old(entries)[r], now)
      ensures entries == if done then old(entries)[r := CancelOverdue(old(entries)[r], now)] else old(entries)
    {
      hide Tables, Registrations, Counted, Cancel, Sound, PastOf;
      RowAt(entries, runs, requests, events, attemptHistory, r);
      var run := runs[r];
      done := run.deadlineAt.Some? && run.deadlineAt.value <= now && !Terminal(run.status) && run.cancelRequestedAt.None?;
      if done {
        CancelRunLocked(r, "run timeout exceeded", "relay", now);
      }
    }

    method CancelOverdueRuns(now: Time, limit: int) returns (recovered: int, ghost overdue: set<string>)
      requires Shape() && Counted(nodes, entries) && forall r :: r in entries ==> Sound(entries[r])
      modifies this`runs, this`events, this`entries, this`nodes
      ensures Shape() && Counted(nodes, entries) && Registrations(nodes) == old(Registrations(nodes))
      ensures overdue <= OverdueRuns(old(entries), now) && entries == CancelAll(old(entries), overdue, now)
      ensures recovered == |overdue| == Min(Room(limit), |OverdueRuns(old(entries), now)|)
    {
      hide Tables, Registrations, Counted, Sound, CancelOverdue, Overdue, Cancelled, CancelAll;
      ghost var before := entries;
      recovered, overdue := 0, {};
      var todo := runs.Keys;
      KeysAgree(entries, runs, requests, events, attemptHistory);
      CancelledStart(before, now);
      while todo != {}
        invariant Shape() && Counted(nodes, entries) && Registrations(nodes) == old(Registrations(nodes))
        invariant Cancelled(before, entries, overdue, todo, now)
        invariant 0 <= recovered == |overdue| <= Room(limit)
        decreases todo
      {
        if recovered >= limit {
          break;
        }
        var r :| r in todo;
        CancelledAt(before, entries, overdue, todo, now, r);
        KeysAgree(entries, runs, requests, events, attemptHistory);
        CancelledStep(before, entries, overdue, todo, now, r);
        var done := CancelIfOverdue(r, now);
        todo := todo - {r};
        if done {
          overdue := overdue + {r};
          recovered := recovered + 1;
        }
      }
      CancelledEnd(before, entries, overdue, todo, now);
      SubsetSize(overdue, OverdueRuns(before, now));
    }

    /** Replaces the lost attempt of a run by the next one. */
    method QueueNextAttempt(r: string, now: Time) returns (ghost id: string)
      requires Shape() && r in runs
      modifies this`runs, this`events, this`entries, this`attemptHistory, this`issued
      ensures Shape() && r in old(entries) && entries == old(entries)[r := Requeue(old(entries)[r], now, id)]
      ensures Fresh(old(issued), id) && issued == old(issued) + {id}
    {
      hide Tables, Terminals, Started, LogShape, HasEvent, Appendable, Fresh;
      RowAt(entries, runs, requests, events, attemptHistory, r);
      var run, history := runs[r], attemptHistory[r];
      var nextId := NewId();
      id := nextId;
      var next := NewAttempt(nextId, run.attempt.number + 1, now + requests[r].backoff);
      var history' := history[|history| - 1 := run.attempt] + [next];
      var run' := run.(attempt := next, status := RunQueued, error := "", startedAt := None, completedAt := None);
      runs := runs[r := run'];
      attemptHistory := attemptHistory[r := history'];
      entries := entries[r := Entry(run', requests[r], events[r], old(entries)[r].past + [run.attempt])];
      assert PastOf(history') == PastOf(history) + [run.attempt];
      PutRow(old(entries), old(runs), requests, events, old(attemptHistory), r, run', requests[r], events[r], history');
      SameAt(requests, r); SameAt(events, r);
      AppendTo(r, EvQueued(next.number, next.availableAt));
      assert entries == old(entries)[r := Requeue(old(entries)[r], now, id)];
    }

    method LoseAttempt(r: string, now: Time)
      requires Shape() && r in runs && Counted(nodes, entries) && Live(entries[r])
      modifies this`runs, this`events, this`entries, this`nodes
      ensures Shape() && Counted(nodes, entries) && Registrations(nodes) == old(Registrations(nodes)) && r in old(entries)
      ensures entries == old(entries)[r := Lose(old(entries)[r], now)]
    {
      hide Tables, Terminals, Started, LogShape, PastOf, Registrations, Counted, LiveOn, HasEvent, Appendable;
      RowAt(entries, runs, requests, events, attemptHistory, r);
      var run := runs[r];
      ReleaseNode(run.attempt.nodeId);
      SetRun(r, run.(attempt := run.attempt.(status := AttemptLost, completedAt := Some(now))));
      AppendTo(r, EvLost(run.attempt.nodeId));
      ReleaseCounts(old(nodes), old(entries), r, Lose(old(entries)[r], now));
      assert entries == old(entries)[r := Lose(old(entries)[r], now)];
    }

    method RecoverIfAbandoned(r: string, now: Time) returns (done: bool, ghost id: string)
      requires Shape() && r in runs && Counted(nodes, entries)
      modifies this`runs, this`events, this`entries, this`nodes, this`attemptHistory, this`issued
      ensures Shape() && Counted(nodes, entries) && Registrations(nodes) == old(Registrations(nodes)) && r in old(entries)
      ensures done == Abandoned(old(entries)[r], now)
      ensures entries == if done then old(entries)[r := Recover(old(entries)[r], now, id)] else old(entries)
      ensures if done && Retries(old(entries)[r]) then Fresh(old(issued), id) && issued == old(issued) + {id} else issued == old(issued)
    {
      hide Tables, Registrations, Counted, PastOf, Recover, Fresh, Retries;
      RowAt(entries, runs, requests, events, attemptHistory, r);
      id := "";
      var run := runs[r];
      var active := run.attempt.status == AttemptRunning || (run.status == RunCancelling && run.attempt.status == AttemptLeased);
      if (run.status != RunRunning && run.status != RunCancelling) || !active
         || run.attempt.leaseExpiresAt.None? || now < run.attempt.leaseExpiresAt.value {
        return false, id;
      }
      if run.status == RunCancelling {
        FinalizeCancellation(r, now);
        RecoverCancelling(old(entries)[r], now, id);
      } else {
        id := RecoverRunning(r, now);
      }
      return true, id;
    }

    /** A running attempt whose lease ran out is lost; the run fails or gets another attempt. */
    method RecoverRunning(r: string, now: Time) returns (ghost id: string)
      requires Shape() && r in runs && Counted(nodes, entries) && entries[r].run.status == RunRunning && Live(entries[r])
      modifies this`runs, this`events, this`entries, this`nodes, this`attemptHistory, this`issued
      ensures Shape() && Counted(nodes, entries) && Registrations(nodes) == old(Registrations(nodes)) && r in old(entries)
      ensures entries == old(entries)[r := Recover(old(entries)[r], now, id)]
      ensures if Retries(old(entries)[r]) then Fresh(old(issued), id) && issued == old(issued) + {id} else issued == old(issued)
    {
      hide Tables, PastOf, Registrations, Counted, Append, Fresh, FinalizeCancel, Lose, Requeue;
      id := "";
      RowAt(entries, runs, requests, events, attemptHistory, r);
      var number := runs[r].attempt.number;
      LoseAttempt(r, now);
      ghost var lost := entries[r];
      LoseFacts(old(entries)[r], now);
      RowAt(entries, runs, requests, events, attemptHistory, r);
      if number >= requests[r].maxAttempts {
        SetRun(r, runs[r].(status := RunFailed, error := "attempt lease expired", completedAt := Some(now)));
        AppendTo(r, EvRunFailed("attempt lease expired"));
        AppendKeepsRun(lost.(run := runs[r]), EvRunFailed("attempt lease expired"));
      } else {
        id := QueueNextAttempt(r, now);
        RequeueFacts(lost, now, id);
      }
      assert entries == old(entries)[r := Recover(old(entries)[r], now, id)];
      KeepCounts(nodes, old(entries)[r := lost], r, entries[r]);
      assert old(entries)[r := lost][r := entries[r]] == entries;
    }

    method RecoverRuns(now: Time, limit: int, already: int) returns (recovered: int, ghost abandoned: set<string>, ghost ids: map<string, string>)
      requires Shape() && Counted(nodes, entries) && 0 <= already <= Room(limit)
      modifies this`runs, this`events, this`entries, this`nodes, this`attemptHistory, this`issued
      ensures Shape() && Counted(nodes, entries) && Registrations(nodes) == old(Registrations(nodes))
      ensures abandoned <= AbandonedRuns(old(entries), now) && entries == RecoverAll(old(entries), abandoned, ids, now)
      ensures |abandoned| == Min(Room(limit) - already, |AbandonedRuns(old(entries), now)|) && recovered == already + |abandoned|
      ensures NextIds(old(entries), old(issued), abandoned, ids, issued)
    {
      hide Tables, Registrations, Counted, Recover, Abandoned, Recovered, RecoverAll, NextIds, Fresh, Retries;
      ghost var before, drawn := entries, issued;
      recovered, abandoned, ids := already, {}, map[];
      var todo := runs.Keys;
      KeysAgree(entries, runs, requests, events, attemptHistory);
      RecoveredStart(before, now, issued);
      while todo != {}
        invariant Shape() && Counted(nodes, entries) && Registrations(nodes) == old(Registrations(nodes))
        invariant Recovered(before, entries, abandoned, ids, todo, now)
        invariant recovered >= limit || AbandonedRuns(before, now) <= abandoned + todo
        invariant recovered == already + |abandoned| <= Room(limit)
        invariant NextIds(before, drawn, abandoned, ids, issued)
        decreases todo
      {
        var r :| r in todo;
        RecoveredAt(before, entries, abandoned, ids, todo, now, r);
        KeysAgree(entries, runs, requests, events, attemptHistory);
        ghost var seen, was := issued, entries;
        if recovered >= limit {
          todo := todo - {r};
          continue;
        }
        ghost var id: string;
        var done;
        done, id := RecoverIfAbandoned(r, now);
        if done {
          if !Retries(before[r]) { RecoverWithoutId(before[r], now, id); }
          RecoveredStep(before, was, abandoned, ids, todo, now, r, id);
          NextIdsStep(before, drawn, abandoned, ids, seen, r, id, issued);
          ids := if Retries(before[r]) then ids[r := id] else ids;
          abandoned := abandoned + {r};
          recovered := recovered + 1;
        }
        todo := todo - {r};
      }
      RecoveredEnd(before, entries, abandoned, ids, todo, now);
      assert recovered < limit ==> abandoned == AbandonedRuns(before, now);
      SubsetSize(abandoned, AbandonedRuns(before, now));
    }

    method Reconcile(now: Time, limit: int)
      returns (count: int, ghost overdue: set<string>, ghost abandoned: set<string>, ghost ids: map<string, string>)
      requires Valid() && now <= clock
      modifies this
      ensures Valid() && Next(old(View()), OpReconcile(now, limit, overdue, abandoned, ids, count), View())
    {
      hide Tables, Inv, Counted, Registrations, CancelAll, RecoverAll, OverdueRuns, AbandonedRuns, Fresh, Retries, Sound;
      ghost var s := View();
      AllSound(s);
      count, overdue := CancelOverdueRuns(now, limit);
      count, abandoned, ids := RecoverRuns(now, limit, count);
      ReconcileTaken(s, now, limit, overdue, abandoned, ids, count, View());
    }

    // ---------------------------------------------------------------- events and history

    /** An event whose identity is already in the log is compared with what is there, and never added again. */
    method AppendEvent(runId: string, attemptId: string, lease: string, kind: string, payload: Payload, eventIds: seq<string>)
      returns (answer: Answer, ghost call: Call)
      requires Valid()
      modifies this
      ensures Valid() && call.AppendEvent? && call.kind == kind && call.payload == payload && call.ids == eventIds
      ensures Next(old(View()), OpCall(runId, attemptId, lease, call, answer), View())
    {
      hide Tables, Inv, PastOf, Registrations, Counted, Expire, Apply, Authorize, CallStep, Sound, AppendOnce;
      ghost var s := View();
      var error, t1 := CheckLease(runId, attemptId, lease);
      call := Call.AppendEvent(t1, kind, payload, eventIds);
      if error.Some? {
        answer := Refused(error.value);
      } else {
        RowAt(entries, runs, requests, events, attemptHistory, runId);
        SameAt(entries, runId);
        if runs[runId].attempt.status != AttemptRunning {
          answer := Refused(ErrInvalidTransition);
        } else {
          answer := AppendHeld(runId, attemptId, lease, kind, payload, eventIds);
        }
      }
      Routed(s, Assignment(runId, attemptId, lease, 0, Request("", "", "", {}, 0, 0, 0)), call);
      CallTaken(s, runId, attemptId, lease, call, answer, View());
    }

    method AppendHeld(r: string, attemptId: string, lease: string, kind: string, payload: Payload, eventIds: seq<string>)
      returns (answer: Answer)
      requires Shape() && r in runs && Counted(nodes, entries)
      modifies this`events, this`entries
      ensures Shape() && Counted(nodes, entries) && r in old(entries)
      ensures entries == old(entries)[r := AppendOnce(old(entries)[r], attemptId, lease, kind, payload, eventIds).0]
      ensures answer == AppendOnce(old(entries)[r], attemptId, lease, kind, payload, eventIds).1
    {
      hide Tables, Terminals, Started, LogShape, PastOf, Counted, Appendable;
      RowAt(entries, runs, requests, events, attemptHistory, r);
      SameAt(entries, r);
      var id := EventIdentity(attemptId, lease, eventIds);
      if id != Assigned {
        var log := events[r];
        for i := 0 to |log|
          invariant forall j :: 0 <= j < i ==> log[j].id != id
        {
          if log[i].id == id {
            FirstFound(log, id, i);
            return SameEvent(log[i].body, kind, payload);
          }
        }
      }
      if payload.Unencodable? {
        return Refused(ErrEncoding);
      }
      var body := EvFromNode(kind, payload.text);
      events := events[r := events[r] + [Event(id, r, runs[r].attempt.id, |events[r]| + 1, body)]];
      entries := entries[r := AppendAs(entries[r], id, body)];
      PutRow(old(entries), runs, requests, old(events), attemptHistory, r, runs[r], requests[r], events[r], attemptHistory[r]);
      SameAt(runs, r); SameAt(requests, r); SameAt(attemptHistory, r);
      KeepCounts(nodes, old(entries), r, entries[r]);
      return Done;
    }

    /** The log without the events up to `after`. */
    method EventsAfter(runId: string, after: int) returns (reply: Reply<seq<Event>>)
      requires Valid()
      ensures reply == if runId in entries then Accepted(DropTo(entries[runId].log, after)) else Rejected(ErrNotFound)
    {
      hide Tables, Inv, Counted, PastOf, Sound, LogShape;
      KeysAgree(entries, runs, requests, events, attemptHistory);
      if runId !in runs {
        return Rejected(ErrNotFound);
      }
      RowAt(entries, runs, requests, events, attemptHistory, runId);
      NumberedLog(View(), runId);
      var values := events[runId];
      var index := 0;
      while index < |values| && values[index].sequence <= after
        invariant 0 <= index <= |values| && (index == 0 || index <= after)
      {
        index := index + 1;
      }
      assert values[0..] == values && values[|values|..] == [];
      return Accepted(values[index..]);
    }

    /** Every attempt of a run, the current one as it stands. */
    method ListAttempts(runId: string) returns (reply: Reply<seq<Attempt>>)
      requires Valid()
      ensures reply == if runId in entries then Accepted(Attempts(entries[runId])) else Rejected(ErrNotFound)
    {
      hide Tables, Inv, Counted;
      KeysAgree(entries, runs, requests, events, attemptHistory);
      if runId !in runs {
        return Rejected(ErrNotFound);
      }
      RowAt(entries, runs, requests, events, attemptHistory, runId);
      var values := attemptHistory[runId];
      values := values[|values| - 1 := runs[runId].attempt];
      assert values == Attempts(entries[runId]);
      return Accepted(values);
    }

    method GetRun(runId: string) returns (reply: Reply<Run>)
      requires Valid()
      ensures reply == if runId in entries then Accepted(entries[runId].run) else Rejected(ErrNotFound)
    {
      hide Tables, Inv, Counted, PastOf;
      KeysAgree(entries, runs, requests, events, attemptHistory);
      if runId in runs {
        RowAt(entries, runs, requests, events, attemptHistory, runId);
        return Accepted(runs[runId]);
      }
      return Rejected(ErrNotFound);
    }

    lemma AbsentRun(r: string)
      requires Shape() && r !in runs
      ensures r !in entries
    {
      hide PastOf;
    }
  }

  lemma Routed(s: State, a: Assignment, call: Call)
    requires !call.Complete? && !call.Fail?
    ensures a.runId in s.entries ==>
              var (e, ok) := Authorize(s.entries[a.runId], a.attemptId, a.lease, call.t1);
              Apply(s.entries[a.runId], a.attemptId, a.lease, call) ==
              if ok then ApplyAuthorized(e, a.attemptId, a.lease, call) else (e, Refused(ErrInvalidLease))
    ensures a.runId in s.entries && Authorize(s.entries[a.runId], a.attemptId, a.lease, call.t1).1 ==>
              Authorize(s.entries[a.runId], a.attemptId, a.lease, call.t1).0 == s.entries[a.runId]
  {
    hide Expire, ApplyAuthorized;
  }

  lemma ReportsNeedTheLease(e: Entry, attemptId: string, lease: string)
    requires !Holds(e, attemptId, lease)
    ensures forall t1, t2, result :: ApplyComplete(e, attemptId, lease, t1, t2, result) == (e, Refused(ErrInvalidLease))
    ensures forall t1, t2, cause :: ApplyFail(e, attemptId, lease, t1, t2, cause) == (e, Refused(ErrInvalidLease))
  {
  }

  lemma CallTaken(s: State, r: string, attemptId: string, lease: string, call: Call, answer: Answer, s': State)
    requires Inv(s) && Ordered(s.clock, call, s'.clock)
    requires s' == s.(clock := s'.clock, entries := s'.entries)
    requires r !in s.entries ==> answer == Refused(ErrNotFound) && s'.entries == s.entries
    requires r in s.entries ==> s'.entries == s.entries[r := Apply(s.entries[r], attemptId, lease, call).0]
                                && answer == Apply(s.entries[r], attemptId, lease, call).1
    ensures Next(s, OpCall(r, attemptId, lease, call, answer), s') && Inv(s')
  {
    hide Inv, Advances, Apply;
    CallKeeps(s, r, attemptId, lease, call, answer, s');
  }

  lemma NewRunFacts(request: Request, runId: string, attempt: Attempt, now: Time)
    ensures var run := NewRun(request, runId, attempt, now);
      run.id == runId && run.attempt == attempt
  {
  }

  lemma EntriesIssued(s: State)
    requires Inv(s)
    ensures forall r :: r in s.entries ==> r in s.issued
  {
    forall r | r in s.entries ensures r in s.issued { assert EntryInv(s, r, s.entries[r]); }
  }

  lemma RegisterTaken(s: State, registration: Registration, s': State)
    requires Inv(s) && registration.id != "" && s.clock <= s'.clock
    requires s' == s.(clock := s'.clock, nodes := s.nodes[registration.id := registration])
    ensures Next(s, OpRegister(registration), s') && Inv(s')
  {
    hide Inv, Advances;
    RegisterKeeps(s, registration, s');
  }

  lemma ClaimTaken(s: State, nodeId: string, ttl: Time, t: Time, reply: Reply<Assignment>, s': State)
    requires Inv(s) && ClaimStep(s, nodeId, ttl, t, reply, s')
    ensures Next(s, OpClaim(nodeId, ttl, t, reply), s') && Inv(s')
  {
    hide Inv, Advances, ClaimStep;
    ClaimKeeps(s, nodeId, ttl, t, reply, s');
  }

  lemma CancelTaken(s: State, runId: string, reason: string, requester: string, t: Time, s': State)
    requires Inv(s) && CancelStep(s, runId, reason, requester, t, s')
    ensures Next(s, OpCancel(runId, reason, requester, t), s') && Inv(s')
  {
    hide Inv, Advances, CancelStep;
    CancelStepKeeps(s, runId, reason, requester, t, s');
  }

  lemma SubmitTaken(s: State, request: Request, runId: string, attemptId: string, t: Time, s': State)
    requires Inv(s) && SubmitStep(s, request, runId, attemptId, t, s')
    ensures Next(s, OpSubmit(request, runId, attemptId, t), s') && Inv(s')
  {
    hide Inv, Advances, SubmitStep;
    SubmitKeeps(s, request, runId, attemptId, t, s');
  }

  lemma ReadTaken(s: State, s': State)
    requires Inv(s) && s.clock <= s'.clock && s' == s.(clock := s'.clock)
    ensures Next(s, OpRead, s') && Inv(s')
  {
    hide Inv, Advances;
    StillStep(s, s');
  }

  /** Registering keeps a known node's counter and starts a new node at 0. */
  lemma RegisterCounts(nodes: map<string, Node>, s: State, registration: Registration, now: Time)
    requires Inv(s) && Counted(nodes, s.entries) && s.nodes == Registrations(nodes) && registration.id != ""
    ensures var active := if registration.id in nodes then nodes[registration.id].active else 0;
      var nodes' := nodes[registration.id := Node(registration, active, now)];
      Counted(nodes', s.entries) && Registrations(nodes') == Registrations(nodes)[registration.id := registration]
  {
    hide LiveOn, Inv;
    if registration.id !in nodes {
      NothingLiveElsewhere(s, registration.id);
    }
  }

  function Room(limit: int): int { if limit > 0 then limit else 0 }

  function DropTo(log: seq<Event>, after: int): seq<Event> {
    if after <= 0 then log else if after >= |log| then [] else log[after..]
  }

  lemma NumberedLog(s: State, r: string)
    requires Inv(s) && r in s.entries
    ensures forall i :: 0 <= i < |s.entries[r].log| ==> s.entries[r].log[i].sequence == i + 1
  {
    hide Inv, HistorySound, RunSound;
    SoundAt(s, r);
    LogAt(s.entries[r].run.id, s.entries[r].log);
  }

  // ------------------------------------------------------------------ loops of a reconciliation

  /** Progress of the first pass: `todo` is untouched, the rest is cancelled where overdue. */
  ghost predicate Cancelled(before: map<string, Entry>, entries: map<string, Entry>, overdue: set<string>, todo: set<string>, now: Time) {
    && todo <= before.Keys && overdue !! todo && overdue <= OverdueRuns(before, now) <= overdue + todo
    && entries == CancelAll(before, overdue, now)
  }

  lemma CancelledStart(before: map<string, Entry>, now: Time)
    ensures Cancelled(before, before, {}, before.Keys, now)
  {
    hide CancelOverdue, Overdue;
  }

  lemma CancelledAt(before: map<string, Entry>, entries: map<string, Entry>, overdue: set<string>, todo: set<string>, now: Time, r: string)
    requires Cancelled(before, entries, overdue, todo, now) && r in todo && forall q :: q in before ==> Sound(before[q])
    ensures r in entries && r in before && entries[r] == before[r] && Sound(entries[r])
  {
    hide CancelOverdue, Overdue, Sound;
  }

  lemma CancelledStep(before: map<string, Entry>, entries: map<string, Entry>, overdue: set<string>, todo: set<string>, now: Time, r: string)
    requires Cancelled(before, entries, overdue, todo, now) && r in todo
    ensures r in before && r !in overdue
    ensures Overdue(before[r], now) ==>
              Cancelled(before, entries[r := CancelOverdue(before[r], now)], overdue + {r}, todo - {r}, now)
    ensures !Overdue(before[r], now) ==> Cancelled(before, entries, overdue, todo - {r}, now)
  {
    hide CancelOverdue, Overdue;
    if Overdue(before[r], now) {
      assert entries[r := CancelOverdue(before[r], now)] == CancelAll(before, overdue + {r}, now);
    }
  }

  lemma CancelledEnd(before: map<string, Entry>, entries: map<string, Entry>, overdue: set<string>, todo: set<string>, now: Time)
    requires Cancelled(before, entries, overdue, todo, now)
    ensures overdue <= OverdueRuns(before, now) && entries == CancelAll(before, overdue, now)
    ensures todo == {} ==> overdue == OverdueRuns(before, now)
  {
    hide CancelAll, OverdueRuns;
  }

  /** Progress of the second pass. */
  ghost predicate Recovered(before: map<string, Entry>, entries: map<string, Entry>, abandoned: set<string>, ids: map<string, string>,
                            todo: set<string>, now: Time) {
    && todo <= before.Keys && abandoned !! todo && abandoned <= AbandonedRuns(before, now) && ids.Keys <= abandoned
    && entries == RecoverAll(before, abandoned, ids, now)
  }

  /** Exactly the runs that retry got a new attempt, each with its own fresh identifier. */
  ghost predicate NextIds(before: map<string, Entry>, drawn: set<string>, abandoned: set<string>, ids: map<string, string>, issued: set<string>) {
    && abandoned <= before.Keys
    && ids.Keys == (set r | r in abandoned && Retries(before[r])) && issued == drawn + ids.Values
    && (forall r :: r in ids ==> Fresh(drawn, ids[r]))
    && (forall r, q :: r in ids && q in ids && r != q ==> ids[r] != ids[q])
  }

  lemma RecoveredStart(before: map<string, Entry>, now: Time, issued: set<string>)
    ensures Recovered(before, before, {}, map[], before.Keys, now) && NextIds(before, issued, {}, map[], issued)
    ensures AbandonedRuns(before, now) <= before.Keys
  {
    hide Recover, Abandoned, Fresh, Retries;
  }

  lemma RecoveredAt(before: map<string, Entry>, entries: map<string, Entry>, abandoned: set<string>, ids: map<string, string>,
                    todo: set<string>, now: Time, r: string)
    requires Recovered(before, entries, abandoned, ids, todo, now) && r in todo
    ensures r in entries && r in before && entries[r] == before[r] && r !in abandoned
    ensures Recovered(before, entries, abandoned, ids, todo - {r}, now)
    ensures r in AbandonedRuns(before, now) <==> Abandoned(before[r], now)
  {
    hide Recover, Abandoned;
  }

  lemma RecoveredStep(before: map<string, Entry>, entries: map<string, Entry>, abandoned: set<string>, ids: map<string, string>,
                      todo: set<string>, now: Time, r: string, id: string)
    requires Recovered(before, entries, abandoned, ids, todo, now) && r in todo && Abandoned(before[r], now)
    ensures var ids' := if Retries(before[r]) then ids[r := id] else ids;
      Recovered(before, entries[r := Recover(before[r], now, if Retries(before[r]) then id else "")], abandoned + {r}, ids', todo - {r}, now)
  {
    hide Recover, Abandoned, Retries;
    var ids' := if Retries(before[r]) then ids[r := id] else ids;
    var e' := Recover(before[r], now, if Retries(before[r]) then id else "");
    assert entries[r := e'] == RecoverAll(before, abandoned + {r}, ids', now);
  }

  lemma NextIdsStep(before: map<string, Entry>, drawn: set<string>, abandoned: set<string>, ids: map<string, string>, issued: set<string>,
                    r: string, id: string, issued': set<string>)
    requires NextIds(before, drawn, abandoned, ids, issued) && r in before && r !in abandoned
    requires if Retries(before[r]) then Fresh(issued, id) && issued' == issued + {id} else issued' == issued
    ensures NextIds(before, drawn, abandoned + {r}, if Retries(before[r]) then ids[r := id] else ids, issued')
  {
    hide Retries;
    if Retries(before[r]) {
      AddedValue(ids, r, id);
      assert forall q :: q in ids ==> ids[q] in ids.Values;
    }
  }

  lemma AddedValue(ids: map<string, string>, r: string, id: string)
    requires r !in ids
    ensures ids[r := id].Values == ids.Values + {id}
  {
    var ids' := ids[r := id];
    assert r in ids' && ids'[r] == id;
    forall v | v in ids.Values ensures v in ids'.Values {
      var q :| q in ids && ids[q] == v;
      assert q in ids' && ids'[q] == v;
    }
  }

  lemma RecoveredEnd(before: map<string, Entry>, entries: map<string, Entry>, abandoned: set<string>, ids: map<string, string>,
                     todo: set<string>, now: Time)
    requires Recovered(before, entries, abandoned, ids, todo, now)
    ensures abandoned <= AbandonedRuns(before, now) && entries == RecoverAll(before, abandoned, ids, now)
  {
    hide RecoverAll, AbandonedRuns;
  }

  /** Where no new attempt is queued the identifier offered plays no part. */
  lemma RecoverWithoutId(e: Entry, now: Time, id: string)
    requires !Retries(e)
    ensures Recover(e, now, id) == Recover(e, now, "")
  {
    hide FinalizeCancel, Lose, Exhaust;
  }

  lemma RecoverCancelling(e: Entry, now: Time, id: string)
    requires e.run.status == RunCancelling
    ensures Recover(e, now, id) == FinalizeCancel(e, now) && !Retries(e)
  {
    hide FinalizeCancel;
  }

  lemma LoseFacts(e: Entry, now: Time)
    ensures var lost := Lose(e, now);
      !Live(lost) && lost.run.status == e.run.status && lost.request == e.request && lost.run.attempt.number == e.run.attempt.number
  {
    hide Terminals, Started, LogShape, HasEvent, Appendable;
  }

  lemma RequeueFacts(e: Entry, now: Time, id: string)
    ensures !Live(Requeue(e, now, id))
  {
    hide Terminals, Started, LogShape, HasEvent, Appendable;
  }

  lemma AppendKeepsRun(e: Entry, body: EventBody)
    ensures Append(e, body).run == e.run
  {
    hide Terminals, Started, LogShape, HasEvent, Appendable;
  }

  lemma ReconcileTaken(s: State, now: Time, limit: int, overdue: set<string>, abandoned: set<string>,
                       ids: map<string, string>, count: int, s': State)
    requires Inv(s) && ReconcileStep(s, now, limit, overdue, abandoned, ids, count, s')
    ensures Next(s, OpReconcile(now, limit, overdue, abandoned, ids, count), s') && Inv(s')
  {
    hide Inv, Advances, ReconcileStep;
    ReconcileKeeps(s, now, limit, overdue, abandoned, ids, count, s');
  }

  lemma {:induction false} FirstFound(log: seq<Event>, id: EventId, i: nat)
    requires i < |log| && log[i].id == id && forall j :: 0 <= j < i ==> log[j].id != id
    ensures HasEvent(log, id) && FindEvent(log, id) == log[i]
  {
    if i > 0 {
      FirstFound(log[1..], id, i - 1);
    }
  }

  lemma KeysAgree(entries: map<string, Entry>, runs: map<string, Run>, requests: map<string, Request>,
                  events: map<string, seq<Event>>, history: map<string, seq<Attempt>>)
    requires Tables(entries, runs, requests, events, history)
    ensures entries.Keys == runs.Keys
  {
  }

  lemma AllSound(s: State)
    requires Inv(s)
    ensures forall r :: r in s.entries ==> Sound(s.entries[r])
  {
    forall r | r in s.entries ensures Sound(s.entries[r]) { SoundAt(s, r); }
  }

  lemma RegistrationAt(nodes: map<string, Node>, n: string)
    ensures n in Registrations(nodes) <==> n in nodes
    ensures n in nodes ==> Registrations(nodes)[n] == nodes[n].registration
  {
  }

  lemma NodeCounted(nodes: map<string, Node>, entries: map<string, Entry>, n: string)
    requires Counted(nodes, entries)
    ensures n in nodes ==> nodes[n].active == |LiveOn(entries, n)|
  {
  }

  lemma IndexedRun(s: State, scope: string)
    requires Inv(s) && scope in s.index
    ensures s.index[scope] in s.entries && s.index[scope] != ""
  {
    assert EntryInv(s, s.index[scope], s.entries[s.index[scope]]);
  }

  /** A node that was never registered has no live attempt. */
  lemma NothingLiveElsewhere(s: State, n: string)
    requires Inv(s) && n !in s.nodes
    ensures LiveOn(s.entries, n) == {}
  {
    forall r | r in s.entries
      ensures !(Live(s.entries[r]) && s.entries[r].run.attempt.nodeId == n)
    {
      assert EntryInv(s, r, s.entries[r]);
    }
  }

  /** A second clock reading cannot change whether the lease had run out. */
  lemma ExpireLater(e: Entry, now: Time, later: Time)
    requires LeaseOver(e.run.attempt, now) && now <= later
    ensures Expire(e, later) == Expire(e, now)
  {
    hide Terminals, Started, LogShape;
  }
}

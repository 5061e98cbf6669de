/** The relational storage: every transaction as one atomic, guarded step on the rows it locks. */
module PostgresStore {
  import opened Types
  import opened Identity
  import opened RunProtocol
  import opened RunInvariants
  import opened Protocol
  import opened Behaviours
  import opened Reconciliation

  /** Unlike in memory, a cancelling run never has a queued attempt. */
  predicate RowPair(run: RunStatus, attempt: AttemptStatus) {
    match run
    case RunQueued => attempt == AttemptQueued || attempt == AttemptLeased
    case RunRunning => attempt == AttemptRunning
    case RunCancelling => attempt == AttemptLeased || attempt == AttemptRunning
    case RunCancelled => attempt == AttemptCancelled
    case RunSucceeded => attempt == AttemptSucceeded
    case RunFailed => attempt == AttemptFailed || attempt == AttemptLost
  }

  ghost predicate RowSound(e: Entry) {
    Sound(e) && RowPair(e.run.status, e.run.attempt.status)
  }

  // ------------------------------------------------------------------ transactions under a lease

  /** A finished run skips the expiry check; nothing is ever put back in the queue here. */
  function Gate(e: Entry, attemptId: string, lease: string, now: Time): Option<Error> {
    if !Holds(e, attemptId, lease) then Some(ErrInvalidLease)
    else if Terminal(e.run.status) then None
    else if LeaseOver(e.run.attempt, now) then Some(ErrInvalidLease)
    else None
  }

  function Change(e: Entry, attemptId: string, lease: string, call: Call): (Entry, Answer)
    requires !call.Renew? && !call.Inspect?
  {
    match call
    case Start(_, t2, t3) =>
      if e.run.status == RunCancelling then (e, Refused(ErrRunCancelled))
      else if e.run.attempt.status != AttemptLeased then (e, Refused(ErrInvalidTransition))
      else if LeasePassed(e.run.attempt, t2) then (e, Refused(ErrInvalidLease))
      else (Begin(e, t3), Done)
    case AppendEvent(_, kind, payload, ids) =>
      if e.run.attempt.status != AttemptRunning then (e, Refused(ErrInvalidTransition))
      else AppendOnce(e, attemptId, lease, kind, payload, ids)
    case Complete(_, t2, result) =>
      if e.run.status == RunSucceeded && e.run.attempt.status == AttemptSucceeded then
        (e, if e.run.result == Some(result) then Done else Refused(ErrInvalidTransition))
      else if e.run.status == RunCancelling then (e, Refused(ErrRunCancelled))
      else if e.run.attempt.status != AttemptRunning then (e, Refused(ErrInvalidTransition))
      else (Succeed(e, result, t2), Done)
    case Fail(_, t2, cause) =>
      if e.run.status == RunFailed && e.run.attempt.status == AttemptFailed then
        (e, if e.run.error == cause then Done else Refused(ErrInvalidTransition))
      else if e.run.status == RunCancelling then (e, Refused(ErrRunCancelled))
      else if !Live(e) then (e, Refused(ErrInvalidTransition))
      else (Break(e, cause, t2), Done)
    case Acknowledge(_, t2) =>
      if e.run.status == RunCancelled then (e, Done)
      else if e.run.status != RunCancelling then (e, Refused(ErrInvalidTransition))
      else (FinalizeCancel(e, t2), Done)
    case Record(_, subject, id) =>
      if !subject.CapabilityRecorded? && e.run.attempt.status != AttemptRunning then (e, Refused(ErrInvalidTransition))
      else (Append(e, EvRecorded(subject, id)), Done)
  }

  function RenewRow(e: Entry, attemptId: string, lease: string, now: Time, ttl: Time): (Entry, Answer) {
    if !Holds(e, attemptId, lease) || LeaseOver(e.run.attempt, now) then (e, Refused(ErrInvalidLease))
    else if !Live(e) then (e, Refused(ErrInvalidTransition))
    else (e.(run := e.run.(attempt := e.run.attempt.(leaseExpiresAt := Some(now + ttl)))),
          Renewed(now + ttl, e.run.cancelRequestedAt.Some?, e.run.cancelReason))
  }

  function Transact(e: Entry, attemptId: string, lease: string, call: Call): (Entry, Answer)
    requires !call.Inspect?
  {
    if call.Renew? then RenewRow(e, attemptId, lease, call.t1, call.ttl)
    else
      var refusal := Gate(e, attemptId, lease, call.t1);
      if refusal.Some? then (e, Refused(refusal.value)) else Change(e, attemptId, lease, call)
  }

  lemma ChangeKeeps(e: Entry, attemptId: string, lease: string, call: Call)
    requires RowSound(e) && !call.Renew? && !call.Inspect?
    ensures Keeps(e, Change(e, attemptId, lease, call).0)
  {
    hide Keeps, Terminals, Started, LogShape, LogSound, HistorySound;
    StayKeeps(e);
    match call {
      case Start(_, t2, t3) => if e.run.status == RunQueued && e.run.attempt.status == AttemptLeased { BeginKeeps(e, t3); }
      case AppendEvent(_, kind, payload, ids) =>
        if e.run.attempt.status == AttemptRunning { AppendOnceKeeps(e, attemptId, lease, kind, payload, ids); }
      case Complete(_, t2, result) => if e.run.status == RunRunning { SucceedKeeps(e, result, t2); }
      case Fail(_, t2, cause) => if Live(e) && e.run.status != RunCancelling { BreakKeeps(e, cause, t2); }
      case Acknowledge(_, t2) => if e.run.status == RunCancelling { FinalizeKeeps(e, t2); }
      case Record(_, subject, id) => NoteKeeps(e, subject, id);
    }
  }

  lemma ChangePair(e: Entry, attemptId: string, lease: string, call: Call)
    requires RowSound(e) && !call.Renew? && !call.Inspect?
    ensures var e' := Change(e, attemptId, lease, call).0; RowPair(e'.run.status, e'.run.attempt.status)
  {
    hide Terminals, Started, LogShape, LogSound, HistorySound;
  }

  /** No transaction of a lease holder breaks a row or rewrites what was settled. */
  lemma TransactKeeps(e: Entry, attemptId: string, lease: string, call: Call)
    requires RowSound(e) && !call.Inspect?
    ensures RowSound(Transact(e, attemptId, lease, call).0) && Evolves(e, Transact(e, attemptId, lease, call).0)
  {
    hide Sound, Evolves, Change;
    StayKeeps(e);
    if call.Renew? {
      if Live(e) { RenewKeeps(e, call.t1 + call.ttl); }
    } else {
      ChangeKeeps(e, attemptId, lease, call);
      ChangePair(e, attemptId, lease, call);
    }
  }

  // ------------------------------------------------------------------ claiming

  predicate Candidate(e: Entry, now: Time) {
    && e.run.status == RunQueued && !DeadlinePassed(e, now)
    && ((e.run.attempt.status == AttemptQueued && (e.run.attempt.availableAt.None? || e.run.attempt.availableAt.value <= now))
        || (e.run.attempt.status == AttemptLeased && LeasePassed(e.run.attempt, now)))
  }

  /** Hands an unclaimed attempt, or one whose lease ran out before it began, to a node. */
  function GrantRow(e: Entry, nodeId: string, lease: string, expires: Time): Entry {
    var noted := if e.run.attempt.status == AttemptLeased then Append(e, EvLeaseExpired(e.run.attempt.nodeId)) else e;
    Grant(noted, nodeId, lease, expires)
  }

  /** Taking an expired lease over is giving it back to the queue and claiming it in one step. */
  lemma GrantIsExpireThenGrant(e: Entry, nodeId: string, lease: string, expires: Time, now: Time)
    requires Candidate(e, now)
    ensures GrantRow(e, nodeId, lease, expires) == Grant(Expire(e, now), nodeId, lease, expires)
  {
    hide Terminals, Started, LogShape, Appendable;
  }

  lemma GrantRowKeeps(e: Entry, nodeId: string, lease: string, expires: Time, now: Time)
    requires RowSound(e) && Candidate(e, now) && nodeId != "" && lease != "" && NulFree(lease)
    ensures RowSound(GrantRow(e, nodeId, lease, expires)) && Evolves(e, GrantRow(e, nodeId, lease, expires))
  {
    hide Sound, Evolves, Grant, GrantRow, Terminals, Started, LogShape, Appendable;
    GrantIsExpireThenGrant(e, nodeId, lease, expires, now);
    ExpireKeeps(e, now);
    var free := Expire(e, now);
    ExpiredFree(e, now);
    GrantKeeps(free, nodeId, lease, expires);
    EvolvesTransitive(e, free, Grant(free, nodeId, lease, expires));
    GrantFacts(free, nodeId, lease, expires);
  }

  lemma ExpiredFree(e: Entry, now: Time)
    requires Candidate(e, now)
    ensures Expire(e, now).run.status == RunQueued && Expire(e, now).run.attempt.status == AttemptQueued
  {
    hide Terminals, Started, LogShape, Appendable;
  }

  // ------------------------------------------------------------------ cancelling and recovering rows

  lemma CancelRowKeeps(e: Entry, reason: string, requester: string, now: Time)
    requires RowSound(e)
    ensures RowSound(Cancel(e, reason, requester, now)) && Evolves(e, Cancel(e, reason, requester, now))
  {
    CancelKeeps(e, reason, requester, now);
    CancelRowPair(e, reason, requester, now);
    hide Sound, Evolves, Cancel;
  }

  lemma CancelRowPair(e: Entry, reason: string, requester: string, now: Time)
    requires RowSound(e)
    ensures var e' := Cancel(e, reason, requester, now); RowPair(e'.run.status, e'.run.attempt.status)
  {
    hide Terminals, Started, LogShape, LogSound, HistorySound;
  }

  lemma RecoverRowKeeps(e: Entry, now: Time, id: string)
    requires RowSound(e) && Abandoned(e, now) && FreshAttempt(e, id)
    ensures RowSound(Recover(e, now, id)) && Evolves(e, Recover(e, now, id))
  {
    hide Sound, Evolves, FreshAttempt, Terminals, Started, LogShape, Appendable;
    RecoverKeeps(e, now, id);
  }

  lemma CancelKeepsFresh(e: Entry, now: Time, id: string)
    requires FreshAttempt(e, id)
    ensures FreshAttempt(CancelOverdue(e, now), id)
  {
    CancelSameHolder(e, "run timeout exceeded", "relay", now);
    hide Cancel;
  }

  // ------------------------------------------------------------------ what reconciliation achieves

  /** A cancelling run whose lease ran out is exactly what the second pass looks for. */
  lemma CancellingIsAbandoned(e: Entry, now: Time)
    requires RowSound(e) && e.run.status == RunCancelling
    ensures e.run.attempt.leaseExpiresAt.Some?
    ensures Abandoned(e, now) <==> e.run.attempt.leaseExpiresAt.value <= now
  {
    hide Terminals, Started, LogShape, LogSound, HistorySound;
  }

  lemma RecoverFinishes(e: Entry, now: Time, id: string)
    requires RowSound(e) && e.run.status == RunCancelling
    ensures Recover(e, now, id).run.status == RunCancelled
  {
    hide Terminals, Started, LogShape, LogSound, HistorySound;
  }

  function DeadlineOf(e: Entry): Time {
    if e.run.deadlineAt.Some? then e.run.deadlineAt.value else 0
  }

  function ExpiryOf(e: Entry): Time {
    if e.run.attempt.leaseExpiresAt.Some? then e.run.attempt.leaseExpiresAt.value else 0
  }

  function Deadlines(rows: map<string, Entry>): map<string, Time> { map r | r in rows :: DeadlineOf(rows[r]) }

  function Expiries(rows: map<string, Entry>): map<string, Time> { map r | r in rows :: ExpiryOf(rows[r]) }

  function Creations(rows: map<string, Entry>): map<string, Time> { map r | r in rows :: rows[r].run.createdAt }

  /** None of the others comes before one of these. */
  ghost predicate Earliest(part: set<string>, whole: set<string>, at: map<string, Time>) {
    whole <= at.Keys && part <= whole && forall p, q :: p in part && q in whole && q !in part ==> at[p] <= at[q]
  }

  /** The rows after both passes; each takes the earliest rows that nobody holds locked. */
  ghost predicate Reconciled(rows: map<string, Entry>, now: Time, limit: nat, locked: set<string>,
                             overdue: set<string>, abandoned: set<string>, ids: map<string, string>,
                             processed: nat, rows': map<string, Entry>) {
    var mid := CancelAll(rows, overdue, now);
    && overdue <= OverdueRuns(rows, now) - locked && |overdue| == Min(limit, |OverdueRuns(rows, now) - locked|)
    && Earliest(overdue, OverdueRuns(rows, now) - locked, Deadlines(rows))
    && abandoned <= AbandonedRuns(mid, now) - locked && |abandoned| == Min(limit - |overdue|, |AbandonedRuns(mid, now) - locked|)
    && Earliest(abandoned, AbandonedRuns(mid, now) - locked, Expiries(mid))
    && processed == |overdue| + |abandoned|
    && rows' == RecoverAll(mid, abandoned, ids, now)
  }

  ghost predicate AllRows(rows: map<string, Entry>) {
    forall r :: r in rows ==> RowSound(rows[r])
  }

  ghost predicate AllEvolve(rows: map<string, Entry>, rows': map<string, Entry>) {
    forall r :: r in rows ==> r in rows' && Evolves(rows[r], rows'[r])
  }

  /** One reconciliation with room to spare finishes a cancelling run that nobody holds locked exactly when its lease has run out. */
  lemma CancellationFinishes(rows: map<string, Entry>, now: Time, limit: nat, locked: set<string>, overdue: set<string>,
                             abandoned: set<string>, ids: map<string, string>, processed: nat, rows': map<string, Entry>, r: string)
    requires AllRows(rows) && Reconciled(rows, now, limit, locked, overdue, abandoned, ids, processed, rows') && processed < limit
    requires r in rows && r !in locked && rows[r].run.status == RunCancelling
    ensures r in rows' && rows[r].run.attempt.leaseExpiresAt.Some?
    ensures rows'[r].run.status == RunCancelled <==> rows[r].run.attempt.leaseExpiresAt.value <= now
  {
    hide Sound, Recover, Cancel, CancelOverdue, Overdue, Abandoned, Retries, Earliest;
    var mid := CancelAll(rows, overdue, now);
    WholeSet(abandoned, AbandonedRuns(mid, now) - locked, limit - |overdue|);
    CancelIdle(rows[r], now);
    assert mid[r] == rows[r];
    CancellingIsAbandoned(mid[r], now);
    assert r in abandoned <==> Abandoned(mid[r], now);
    RecoverFinishes(mid[r], now, if r in ids then ids[r] else "");
  }

  lemma CancelIdle(e: Entry, now: Time)
    requires RowSound(e) && e.run.status == RunCancelling
    ensures CancelOverdue(e, now) == e
  {
    hide Terminals, Started, LogShape, LogSound, HistorySound;
  }

  // ------------------------------------------------------------------ maps of rows

  lemma EvolveNone(rows: map<string, Entry>)
    requires AllRows(rows)
    ensures AllEvolve(rows, rows)
  {
    hide Sound, Evolves;
    forall r | r in rows
      ensures Evolves(rows[r], rows[r])
    {
      StayKeeps(rows[r]);
    }
  }

  lemma EvolveChain(a: map<string, Entry>, b: map<string, Entry>, c: map<string, Entry>)
    requires AllEvolve(a, b) && AllEvolve(b, c)
    ensures AllEvolve(a, c)
  {
    hide Evolves;
    forall r | r in a
      ensures r in c && Evolves(a[r], c[r])
    {
      EvolvesTransitive(a[r], b[r], c[r]);
    }
  }

  lemma NewRowSound(request: Request, runId: string, attemptId: string, now: Time)
    requires attemptId != "" && NulFree(attemptId)
    ensures RowSound(NewEntry(request, runId, attemptId, now)) && NewEntry(request, runId, attemptId, now).request == request
  {
    NewEntryKeeps(request, runId, attemptId, now);
    hide Sound, Terminals, Started, LogShape;
  }

  /** Identifiers drawn for the attempts that may be queued: none of them was used in its run. */
  ghost predicate NewIds(rows: map<string, Entry>, ids: map<string, string>) {
    forall r :: r in rows ==> r in ids && FreshAttempt(rows[r], ids[r])
  }

  lemma IdsThere(rows: map<string, Entry>, ids: map<string, string>)
    requires NewIds(rows, ids)
    ensures rows.Keys <= ids.Keys
  {
    hide FreshAttempt;
  }

  lemma CancelAllFacts(rows: map<string, Entry>, overdue: set<string>, now: Time, ids: map<string, string>)
    requires AllRows(rows) && NewIds(rows, ids)
    ensures var mid := CancelAll(rows, overdue, now);
      && AllRows(mid) && AllEvolve(rows, mid) && NewIds(mid, ids)
  {
    hide RowSound, Evolves, FreshAttempt, Cancel, CancelOverdue;
    EvolveNone(rows);
    forall r | r in rows
      ensures RowSound(CancelOverdue(rows[r], now)) && Evolves(rows[r], CancelOverdue(rows[r], now))
      ensures FreshAttempt(CancelOverdue(rows[r], now), ids[r])
    {
      CancelOverdueKeeps(rows[r], now);
      CancelKeepsFresh(rows[r], now, ids[r]);
    }
  }

  lemma CancelOverdueKeeps(e: Entry, now: Time)
    requires RowSound(e)
    ensures RowSound(CancelOverdue(e, now)) && Evolves(e, CancelOverdue(e, now))
  {
    hide RowSound, Evolves, Cancel;
    CancelRowKeeps(e, "run timeout exceeded", "relay", now);
  }

  lemma RecoverAllFacts(rows: map<string, Entry>, abandoned: set<string>, ids: map<string, string>, now: Time)
    requires AllRows(rows) && abandoned <= AbandonedRuns(rows, now)
    requires NewIds(rows, ids)
    ensures AllRows(RecoverAll(rows, abandoned, ids, now)) && AllEvolve(rows, RecoverAll(rows, abandoned, ids, now))
  {
    hide RowSound, Evolves, FreshAttempt, Recover, Abandoned;
    EvolveNone(rows);
    forall r | r in abandoned
      ensures RowSound(Recover(rows[r], now, ids[r])) && Evolves(rows[r], Recover(rows[r], now, ids[r]))
    {
      RecoverRowKeeps(rows[r], now, ids[r]);
    }
  }

  lemma CancelOne(rows: map<string, Entry>, overdue: set<string>, r: string, now: Time)
    requires r in rows && r !in overdue
    ensures CancelAll(rows, overdue, now)[r] == rows[r]
    ensures CancelAll(rows, overdue + {r}, now) == CancelAll(rows, overdue, now)[r := CancelOverdue(rows[r], now)]
  {
    hide CancelOverdue;
  }

  lemma RecoverOne(rows: map<string, Entry>, abandoned: set<string>, ids: map<string, string>, r: string, now: Time)
    requires r in rows && r !in abandoned && r in ids
    ensures RecoverAll(rows, abandoned, ids, now)[r] == rows[r]
    ensures RecoverAll(rows, abandoned + {r}, ids, now) == RecoverAll(rows, abandoned, ids, now)[r := Recover(rows[r], now, ids[r])]
  {
    hide Recover;
  }

  lemma NothingDone(rows: map<string, Entry>, ids: map<string, string>, now: Time)
    ensures CancelAll(rows, {}, now) == rows && RecoverAll(rows, {}, ids, now) == rows
  {
    hide Recover, CancelOverdue;
  }

  function Firsts(s: seq<string>, n: nat): set<string>
    requires n <= |s|
  {
    set i | 0 <= i < n :: s[i]
  }

  lemma FirstsNext(s: seq<string>, n: nat)
    requires n < |s| && forall i, j :: 0 <= i < j < |s| ==> s[i] != s[j]
    ensures Firsts(s, n + 1) == Firsts(s, n) + {s[n]} && s[n] !in Firsts(s, n)
  {
  }

  method Soonest(left: set<string>, at: map<string, Time>) returns (r: string)
    requires left != {} && left <= at.Keys
    ensures r in left && forall q :: q in left ==> at[r] <= at[q]
  {
    r :| r in left;
    var rest := left - {r};
    while rest != {}
      invariant r in left && rest <= left && forall q :: q in left && q !in rest ==> at[r] <= at[q]
      decreases |rest|
    {
      var q :| q in rest;
      if at[q] < at[r] { r := q; }
      rest := rest - {q};
    }
  }

  /** The earliest candidates, as many as the limit allows; ties go either way. */
  method Choose(candidates: set<string>, at: map<string, Time>, limit: nat) returns (chosen: seq<string>)
    requires candidates <= at.Keys
    ensures |chosen| == Min(limit, |candidates|)
    ensures forall i :: 0 <= i < |chosen| ==> chosen[i] in candidates
    ensures forall i, j :: 0 <= i < j < |chosen| ==> chosen[i] != chosen[j] && at[chosen[i]] <= at[chosen[j]]
    ensures forall i, q :: 0 <= i < |chosen| && q in candidates && q !in chosen ==> at[chosen[i]] <= at[q]
  {
    chosen := [];
    var left := candidates;
    while left != {} && |chosen| < limit
      invariant left <= candidates && |left| + |chosen| == |candidates| && |chosen| <= limit
      invariant forall q :: q in candidates ==> (q in left <==> q !in chosen)
      invariant forall i :: 0 <= i < |chosen| ==> chosen[i] in candidates
      invariant forall i, j :: 0 <= i < j < |chosen| ==> chosen[i] != chosen[j] && at[chosen[i]] <= at[chosen[j]]
      invariant forall i, q :: 0 <= i < |chosen| && q in left ==> at[chosen[i]] <= at[q]
      decreases |left|
    {
      var r := Soonest(left, at);
      left := left - {r};
      chosen := chosen + [r];
    }
  }

  lemma InRows(rows: map<string, Entry>, now: Time)
    ensures OverdueRuns(rows, now) <= rows.Keys && AbandonedRuns(rows, now) <= rows.Keys && CandidateRuns(rows, now) <= rows.Keys
    ensures Deadlines(rows).Keys == rows.Keys && Expiries(rows).Keys == rows.Keys && Creations(rows).Keys == rows.Keys
  {
    hide Overdue, Abandoned, Candidate, DeadlineOf, ExpiryOf;
  }

  lemma ChosenEarliest(chosen: seq<string>, candidates: set<string>, at: map<string, Time>)
    requires candidates <= at.Keys
    requires forall i :: 0 <= i < |chosen| ==> chosen[i] in candidates
    requires forall i, q :: 0 <= i < |chosen| && q in candidates && q !in chosen ==> at[chosen[i]] <= at[q]
    ensures Earliest(Firsts(chosen, |chosen|), candidates, at)
  {
  }

  // ------------------------------------------------------------------ what a transaction does to all rows

  /** One transaction, labelled like a step of the protocol. */
  ghost predicate RowsStep(rows: map<string, Entry>, issued: set<string>, op: Op, rows': map<string, Entry>, issued': set<string>) {
    match op
    case OpSubmit(request, runId, attemptId, t) =>
      issued' == issued &&
      (rows' == rows || (runId !in rows && attemptId != "" && NulFree(attemptId)
                         && rows' == rows[runId := NewEntry(request, runId, attemptId, t)]))
    case OpClaim(nodeId, ttl, t, Accepted(a)) =>
      && a.runId in rows && Candidate(rows[a.runId], t) && nodeId != "" && Fresh(issued, a.lease)
      && a.leaseExpiresAt == t + ttl && issued' == issued + {a.lease}
      && rows' == rows[a.runId := GrantRow(rows[a.runId], nodeId, a.lease, t + ttl)]
    case OpCall(runId, attemptId, lease, call, answer) =>
      && issued' == issued && !call.Inspect?
      && if runId !in rows then answer == Refused(ErrNotFound) && rows' == rows
         else answer == Transact(rows[runId], attemptId, lease, call).1
              && rows' == rows[runId := Transact(rows[runId], attemptId, lease, call).0]
    case OpCancel(runId, reason, requester, t) =>
      && issued' == issued
      && rows' == if runId in rows then rows[runId := Cancel(rows[runId], reason, requester, t)] else rows
    case OpReconcile(now, _, overdue, abandoned, ids, _) =>
      && issued' == issued && NewIds(rows, ids) && abandoned <= AbandonedRuns(CancelAll(rows, overdue, now), now)
      && rows' == RecoverAll(CancelAll(rows, overdue, now), abandoned, ids, now)
    case _ => issued' == issued && rows' == rows
  }

  function ActiveOn(rows: map<string, Entry>, nodeId: string, now: Time): set<string> {
    set r | r in rows && Live(rows[r]) && rows[r].run.attempt.nodeId == nodeId && ExpiryOf(rows[r]) > now
  }

  // ------------------------------------------------------------------ who waits for a node, by the fields of the rows

  /** Queued before its deadline, and not too early or left by a node whose lease is over. */
  predicate Eligible(e: Entry, now: Time) {
    && e.run.status == RunQueued && (e.run.deadlineAt.None? || now < e.run.deadlineAt.value)
    && match e.run.attempt.status
       case AttemptQueued => e.run.attempt.availableAt.None? || e.run.attempt.availableAt.value <= now
       case AttemptLeased => e.run.attempt.leaseExpiresAt.Some? && e.run.attempt.leaseExpiresAt.value <= now
       case _ => false
  }

  function EligibleRows(rows: map<string, Entry>, now: Time): set<string> {
    set r | r in rows && Eligible(rows[r], now)
  }

  /** The node could be given this run. */
  predicate Fits(rows: map<string, Entry>, r: string, locked: set<string>, node: Registration, now: Time) {
    r in rows && r !in locked && Eligible(rows[r], now) && rows[r].request.needs <= node.offers
  }

  /** The other eligible rows that are no younger. */
  function Ahead(rows: map<string, Entry>, q: string, now: Time): set<string>
    requires q in rows
  {
    set r | r in rows && r != q && Eligible(rows[r], now) && rows[r].run.createdAt <= rows[q].run.createdAt
  }

  function Older(rows: map<string, Entry>, q: string, now: Time): set<string>
    requires q in rows
  {
    set r | r in rows && Eligible(rows[r], now) && rows[r].run.createdAt < rows[q].run.createdAt
  }

  /** The runs whose attempt occupies a node under a lease that is not over. */
  function Occupied(rows: map<string, Entry>, nodeId: string, now: Time): set<string> {
    set r | r in rows && rows[r].run.attempt.nodeId == nodeId
            && (rows[r].run.attempt.status == AttemptLeased || rows[r].run.attempt.status == AttemptRunning)
            && rows[r].run.attempt.leaseExpiresAt.Some? && now < rows[r].run.attempt.leaseExpiresAt.value
  }

  function CandidateRuns(rows: map<string, Entry>, now: Time): set<string> {
    set r | r in rows && Candidate(rows[r], now)
  }

  lemma GrantActive(rows: map<string, Entry>, r: string, nodeId: string, lease: string, expires: Time, now: Time)
    requires r in rows
    ensures |ActiveOn(rows[r := GrantRow(rows[r], nodeId, lease, expires)], nodeId, now)| <= |ActiveOn(rows, nodeId, now)| + 1
  {
    hide Live, GrantRow;
    var active' := ActiveOn(rows[r := GrantRow(rows[r], nodeId, lease, expires)], nodeId, now);
    SubsetSize(active', ActiveOn(rows, nodeId, now) + {r});
  }

  // ------------------------------------------------------------------ the store

  class Store {
    var rows: map<string, Entry>
    var nodes: map<string, Registration>
    /** The lease tokens drawn so far. */
    var issued: set<string>

    ghost predicate Valid()
      reads this
    {
      AllRows(rows) && "" !in nodes
    }

    constructor ()
      ensures Valid() && rows == map[] && nodes == map[] && issued == {}
    {
      rows, nodes, issued := map[], map[], {};
    }

    predicate SameScope(request: Request, other: Request) {
      request.tenant == other.tenant && request.project == other.project && request.key == other.key
    }

    method RegisterNode(registration: Registration)
      requires Valid() && registration.id != ""
      modifies `nodes
      ensures Valid() && nodes == old(nodes)[registration.id := registration]
    {
      nodes := nodes[registration.id := registration];
    }

    /** The unique constraint on tenant, project and key decides whether a run is inserted. */
    method Submit(request: Request, runId: string, attemptId: string, now: Time) returns (id: string)
      requires Valid() && runId !in rows && attemptId != "" && NulFree(attemptId)
      modifies `rows
      ensures Valid() && id in rows && SameScope(request, rows[id].request) && AllEvolve(old(rows), rows)
      ensures (exists r :: r in old(rows) && SameScope(request, old(rows)[r].request)) ==> rows == old(rows)
      ensures !(exists r :: r in old(rows) && SameScope(request, old(rows)[r].request)) ==>
                id == runId && rows == old(rows)[runId := NewEntry(request, runId, attemptId, now)]
      ensures RowsStep(old(rows), issued, OpSubmit(request, runId, attemptId, now), rows, issued)
    {
      hide RowSound, Sound, Evolves, NewEntry;
      EvolveNone(rows);
      if r :| r in rows && rows[r].request.tenant == request.tenant && rows[r].request.project == request.project
              && rows[r].request.key == request.key {
        assert SameScope(request, rows[r].request);
        return r;
      }
      NewRowSound(request, runId, attemptId, now);
      rows := rows[runId := NewEntry(request, runId, attemptId, now)];
      id := runId;
    }

    /** Lock the row, check the lease, change it or leave it. */
    method Transition(runId: string, attemptId: string, lease: string, call: Call) returns (answer: Answer)
      requires Valid() && !call.Inspect?
      modifies `rows
      ensures Valid() && AllEvolve(old(rows), rows)
      ensures runId !in old(rows) ==> answer == Refused(ErrNotFound) && rows == old(rows)
      ensures RowsStep(old(rows), issued, OpCall(runId, attemptId, lease, call, answer), rows, issued)
    {
      hide RowSound, Sound, Evolves, Transact;
      EvolveNone(rows);
      if runId !in rows { return Refused(ErrNotFound); }
      TransactKeeps(rows[runId], attemptId, lease, call);
      var (e, a) := Transact(rows[runId], attemptId, lease, call);
      rows := rows[runId := e];
      answer := a;
    }

    method CancelRun(runId: string, reason: string, requester: string, now: Time) returns (found: bool)
      requires Valid()
      modifies `rows
      ensures Valid() && AllEvolve(old(rows), rows) && (found <==> runId in old(rows))
      ensures RowsStep(old(rows), issued, OpCancel(runId, reason, requester, now), rows, issued)
    {
      hide RowSound, Sound, Evolves, Cancel;
      EvolveNone(rows);
      found := runId in rows;
      if found {
        CancelRowKeeps(rows[runId], reason, requester, now);
        rows := rows[runId := Cancel(rows[runId], reason, requester, now)];
      }
    }

    method NewLease() returns (lease: string)
      modifies `issued
      ensures Fresh(old(issued), lease) && issued == old(issued) + {lease}
    {
      FreshExists(issued);
      lease :| Fresh(issued, lease);
      issued := issued + {lease};
    }

    /** Looks through the hundred oldest candidates and takes the first that is not locked and that the node matches. */
    method Claim(nodeId: string, locked: set<string>, ttl: Time, now: Time) returns (reply: Reply<Assignment>)
      requires Valid()
      modifies `rows, `issued
      ensures Valid() && AllEvolve(old(rows), rows)
      ensures RowsStep(old(rows), old(issued), OpClaim(nodeId, ttl, now, reply), rows, issued)
      ensures reply.Rejected? ==> reply.error == if nodeId in nodes then ErrNoAssignment else ErrNotFound
      // refused: the node is full, or whatever fits it has a hundred older ones before it
      ensures reply.Rejected? && nodeId in nodes ==>
                |Occupied(old(rows), nodeId, now)| >= nodes[nodeId].capacity
                || forall q :: Fits(old(rows), q, locked, nodes[nodeId], now) ==> |Ahead(old(rows), q, now)| >= 100
      ensures reply.Rejected? && nodeId in nodes && |EligibleRows(old(rows), now)| <= 100 ==>
                |Occupied(old(rows), nodeId, now)| >= nodes[nodeId].capacity
                || forall q :: !Fits(old(rows), q, locked, nodes[nodeId], now)
      // granted: the node has room, and nothing that fits it waits longer
      ensures reply.Accepted? ==>
                var a := reply.value;
                && nodeId in nodes && |Occupied(old(rows), nodeId, now)| < nodes[nodeId].capacity
                && |Occupied(rows, nodeId, now)| <= nodes[nodeId].capacity
                && Fits(old(rows), a.runId, locked, nodes[nodeId], now)
                && (forall q :: Fits(old(rows), q, locked, nodes[nodeId], now) ==>
                      old(rows)[a.runId].run.createdAt <= old(rows)[q].run.createdAt)
                && |Older(old(rows), a.runId, now)| < 100
                && a == Assignment(a.runId, old(rows)[a.runId].run.attempt.id, a.lease, now + ttl, old(rows)[a.runId].request)
    {
      hide RowSound, Sound, Evolves, GrantRow, Candidate, ActiveOn, Fresh, CandidateRuns, Creations, IsWindow, RowsStep, NewIds,
           Fits, Ahead, Older, Occupied, EligibleRows, Takes;
      EvolveNone(rows);
      InRows(rows, now);
      reply := Rejected(ErrNoAssignment);
      NoStep(rows, issued, nodeId, ttl, now);
      OccupiedIsActive(rows, nodeId, now);
      if nodeId !in nodes { return Rejected(ErrNotFound); }
      var node := nodes[nodeId];
      if |ActiveOn(rows, nodeId, now)| >= node.capacity { return; }
      var candidates := Choose(CandidateRuns(rows, now), Creations(rows), 100);
      WindowOf(rows, now, candidates);
      for i := 0 to |candidates|
        invariant rows == old(rows) && issued == old(issued)
        invariant forall j :: 0 <= j < i ==> !Takes(rows, candidates[j], locked, node, now)
      {
        var runId := candidates[i];
        if Takes(rows, runId, locked, node, now) {
          OldestTaken(rows, candidates, i, locked, node, now);
          TakenNames(rows, runId, locked, node, now);
          var e := rows[runId];
          var lease := NewLease();
          FreshLease(old(issued), lease);
          GrantRowKeeps(e, nodeId, lease, now + ttl, now);
          GrantActive(rows, runId, nodeId, lease, now + ttl, now);
          reply := Accepted(Assignment(runId, e.run.attempt.id, lease, now + ttl, e.request));
          GrantStep(rows, old(issued), nodeId, ttl, now, reply.value);
          rows := rows[runId := GrantRow(e, nodeId, lease, now + ttl)];
          OccupiedIsActive(rows, nodeId, now);
          return;
        }
      }
      NothingFits(rows, candidates, locked, node, now);
    }

    method CancelEach(now: Time, late: seq<string>) returns (processed: nat, ghost overdue: set<string>)
      requires forall i :: 0 <= i < |late| ==> late[i] in rows
      requires forall i, j :: 0 <= i < j < |late| ==> late[i] != late[j]
      modifies `rows
      ensures |overdue| == processed == |late| && overdue == Firsts(late, |late|)
      ensures rows == CancelAll(old(rows), overdue, now)
    {
      hide CancelOverdue;
      overdue, processed := {}, 0;
      NothingDone(rows, map[], now);
      for i := 0 to |late|
        invariant overdue == Firsts(late, i) && |overdue| == i == processed && rows == CancelAll(old(rows), overdue, now)
      {
        FirstsNext(late, i);
        CancelOne(old(rows), overdue, late[i], now);
        rows := rows[late[i] := CancelOverdue(rows[late[i]], now)];
        overdue := overdue + {late[i]};
        processed := processed + 1;
      }
    }

    method RecoverEach(now: Time, lost: seq<string>, ids: map<string, string>) returns (processed: nat, ghost abandoned: set<string>)
      requires forall i :: 0 <= i < |lost| ==> lost[i] in rows && lost[i] in ids
      requires forall i, j :: 0 <= i < j < |lost| ==> lost[i] != lost[j]
      modifies `rows
      ensures |abandoned| == processed == |lost| && abandoned == Firsts(lost, |lost|)
      ensures rows == RecoverAll(old(rows), abandoned, ids, now)
    {
      hide Recover;
      abandoned, processed := {}, 0;
      NothingDone(rows, ids, now);
      for i := 0 to |lost|
        invariant abandoned == Firsts(lost, i) && |abandoned| == i == processed && rows == RecoverAll(old(rows), abandoned, ids, now)
      {
        FirstsNext(lost, i);
        RecoverOne(old(rows), abandoned, ids, lost[i], now);
        rows := rows[lost[i] := Recover(rows[lost[i]], now, ids[lost[i]])];
        abandoned := abandoned + {lost[i]};
        processed := processed + 1;
      }
    }

    method CancelPass(now: Time, limit: nat, locked: set<string>, ids: map<string, string>)
      returns (processed: nat, ghost overdue: set<string>)
      requires Valid() && NewIds(rows, ids)
      modifies `rows
      ensures Valid() && NewIds(rows, ids) && AllEvolve(old(rows), rows)
      ensures |overdue| == processed == Min(limit, |OverdueRuns(old(rows), now) - locked|)
      ensures Earliest(overdue, OverdueRuns(old(rows), now) - locked, Deadlines(old(rows)))
      ensures overdue <= OverdueRuns(old(rows), now) - locked && rows == CancelAll(old(rows), overdue, now)
    {
      hide CancelOverdue, RowSound, Evolves, FreshAttempt, AllRows, AllEvolve, NewIds, CancelAll, Earliest, OverdueRuns, Deadlines;
      InRows(rows, now);
      ghost var whole := OverdueRuns(rows, now) - locked;
      var late := Choose(OverdueRuns(rows, now) - locked, Deadlines(rows), limit);
      ChosenEarliest(late, whole, Deadlines(rows));
      processed, overdue := CancelEach(now, late);
      CancelAllFacts(old(rows), overdue, now, ids);
    }

    method RecoverPass(now: Time, limit: nat, locked: set<string>, ids: map<string, string>)
      returns (processed: nat, ghost abandoned: set<string>)
      requires Valid() && NewIds(rows, ids)
      modifies `rows
      ensures Valid() && AllEvolve(old(rows), rows)
      ensures |abandoned| == processed == Min(limit, |AbandonedRuns(old(rows), now) - locked|)
      ensures Earliest(abandoned, AbandonedRuns(old(rows), now) - locked, Expiries(old(rows)))
      ensures abandoned <= AbandonedRuns(old(rows), now) - locked && rows == RecoverAll(old(rows), abandoned, ids, now)
    {
      hide Recover, RowSound, Evolves, FreshAttempt, AllRows, AllEvolve, RecoverAll, NewIds, Earliest, AbandonedRuns, Expiries;
      InRows(rows, now);
      IdsThere(rows, ids);
      ghost var whole := AbandonedRuns(rows, now) - locked;
      var lost := Choose(AbandonedRuns(rows, now) - locked, Expiries(rows), limit);
      ChosenEarliest(lost, whole, Expiries(rows));
      processed, abandoned := RecoverEach(now, lost, ids);
      RecoverAllFacts(old(rows), abandoned, ids, now);
    }

    /** Two passes in one transaction: cancel what is overdue, recover what is abandoned. */
    method Reconcile(now: Time, limit: nat, locked: set<string>, ids: map<string, string>)
      returns (processed: nat, ghost overdue: set<string>, ghost abandoned: set<string>)
      requires Valid() && NewIds(rows, ids)
      modifies `rows
      ensures Valid() && AllEvolve(old(rows), rows) && processed <= limit
      ensures Reconciled(old(rows), now, limit, locked, overdue, abandoned, ids, processed, rows)
      ensures RowsStep(old(rows), issued, OpReconcile(now, limit, overdue, abandoned, ids, processed), rows, issued)
    {
      hide AllRows, AllEvolve, NewIds, OverdueRuns, AbandonedRuns, CancelAll, RecoverAll, Deadlines, Expiries;
      processed, overdue := CancelPass(now, limit, locked, ids);
      ghost var mid := rows;
      abandoned := {};
      if limit - processed <= 0 {
        NothingDone(rows, ids, now);
        NoneEarliest(rows, now, locked);
        return;
      }
      var recovered;
      recovered, abandoned := RecoverPass(now, limit - processed, locked, ids);
      processed := processed + recovered;
      EvolveChain(old(rows), mid, rows);
    }
  }

  lemma SameRows(rows: map<string, Entry>, abandoned: set<string>, ids: map<string, string>, now: Time)
    ensures RecoverAll(rows, abandoned, ids, now).Keys == rows.Keys
  {
    hide Recover;
  }

  lemma SameKeys(rows: map<string, Entry>, overdue: set<string>, now: Time)
    ensures CancelAll(rows, overdue, now).Keys == rows.Keys
  {
    hide CancelOverdue;
  }

  lemma NoneEarliest(rows: map<string, Entry>, now: Time, locked: set<string>)
    ensures Earliest({}, AbandonedRuns(rows, now) - locked, Expiries(rows))
  {
    hide Abandoned, ExpiryOf;
  }

  lemma FreshLease(issued: set<string>, lease: string)
    requires Fresh(issued, lease)
    ensures lease != "" && NulFree(lease)
  {
  }

  /** The hundred oldest candidates, oldest first. */
  ghost predicate IsWindow(window: seq<string>, rows: map<string, Entry>, now: Time) {
    && |window| == Min(100, |CandidateRuns(rows, now)|)
    && (forall i :: 0 <= i < |window| ==> window[i] in CandidateRuns(rows, now))
    && (forall i, j :: 0 <= i < j < |window| ==>
          window[i] != window[j] && window[i] in rows && window[j] in rows
          && rows[window[i]].run.createdAt <= rows[window[j]].run.createdAt)
    && (forall i, q :: 0 <= i < |window| && q in CandidateRuns(rows, now) && q !in window ==>
          window[i] in rows && rows[window[i]].run.createdAt <= rows[q].run.createdAt)
  }

  lemma WindowOf(rows: map<string, Entry>, now: Time, chosen: seq<string>)
    requires |chosen| == Min(100, |CandidateRuns(rows, now)|)
    requires forall i :: 0 <= i < |chosen| ==> chosen[i] in CandidateRuns(rows, now)
    requires Creations(rows).Keys == rows.Keys && CandidateRuns(rows, now) <= rows.Keys
    requires forall i, j :: 0 <= i < j < |chosen| ==> chosen[i] != chosen[j] && Creations(rows)[chosen[i]] <= Creations(rows)[chosen[j]]
    requires forall i, q :: 0 <= i < |chosen| && q in CandidateRuns(rows, now) && q !in chosen ==>
               Creations(rows)[chosen[i]] <= Creations(rows)[q]
    ensures IsWindow(chosen, rows, now)
  {
    hide Candidate;
  }

  lemma NoStep(rows: map<string, Entry>, issued: set<string>, nodeId: string, ttl: Time, now: Time)
    ensures forall error :: RowsStep(rows, issued, OpClaim(nodeId, ttl, now, Rejected(error)), rows, issued)
  {
  }

  lemma GrantStep(rows: map<string, Entry>, issued: set<string>, nodeId: string, ttl: Time, now: Time, a: Assignment)
    requires a.runId in rows && Candidate(rows[a.runId], now) && nodeId != "" && Fresh(issued, a.lease) && a.leaseExpiresAt == now + ttl
    ensures RowsStep(rows, issued, OpClaim(nodeId, ttl, now, Accepted(a)),
                     rows[a.runId := GrantRow(rows[a.runId], nodeId, a.lease, now + ttl)], issued + {a.lease})
  {
    hide Candidate, Fresh, GrantRow;
  }

  lemma EligibleIs(e: Entry, now: Time)
    ensures Candidate(e, now) <==> Eligible(e, now)
  {
  }

  lemma EligibleAre(rows: map<string, Entry>, now: Time)
    ensures EligibleRows(rows, now) == CandidateRuns(rows, now)
  {
    hide Eligible, Candidate;
    forall r | r in rows
      ensures Eligible(rows[r], now) <==> Candidate(rows[r], now)
    {
      EligibleIs(rows[r], now);
    }
  }

  lemma OccupiedIsActive(rows: map<string, Entry>, nodeId: string, now: Time)
    ensures Occupied(rows, nodeId, now) <= ActiveOn(rows, nodeId, now)
    ensures AllRows(rows) ==> Occupied(rows, nodeId, now) == ActiveOn(rows, nodeId, now)
  {
    hide LogSound, HistorySound;
    forall r | r in rows && RowSound(rows[r]) && Live(rows[r])
      ensures rows[r].run.attempt.leaseExpiresAt.Some?
    {
    }
  }

  lemma FitsIsTaken(rows: map<string, Entry>, q: string, locked: set<string>, node: Registration, now: Time)
    ensures Fits(rows, q, locked, node, now) <==> Takes(rows, q, locked, node, now)
  {
    hide Eligible, Candidate;
    if q in rows { EligibleIs(rows[q], now); }
  }

  lemma TakenNames(rows: map<string, Entry>, q: string, locked: set<string>, node: Registration, now: Time)
    requires Takes(rows, q, locked, node, now)
    ensures q in rows && Candidate(rows[q], now)
  {
    hide Candidate;
  }

  lemma OldestTaken(rows: map<string, Entry>, window: seq<string>, i: nat, locked: set<string>, node: Registration, now: Time)
    requires i < |window| && IsWindow(window, rows, now) && Takes(rows, window[i], locked, node, now)
    requires forall j :: 0 <= j < i ==> !Takes(rows, window[j], locked, node, now)
    ensures Fits(rows, window[i], locked, node, now)
    ensures forall q :: Fits(rows, q, locked, node, now) ==> rows[window[i]].run.createdAt <= rows[q].run.createdAt
    ensures |Older(rows, window[i], now)| < 100
  {
    hide Candidate, Eligible, Fits, Takes;
    FitsIsTaken(rows, window[i], locked, node, now);
    TakenNames(rows, window[i], locked, node, now);
    forall q | Fits(rows, q, locked, node, now)
      ensures q in rows && rows[window[i]].run.createdAt <= rows[q].run.createdAt
    {
      FitsIsTaken(rows, q, locked, node, now);
      TakenNames(rows, q, locked, node, now);
      assert q in CandidateRuns(rows, now);
      if q in window {
        var j :| 0 <= j < |window| && window[j] == q;
      }
    }
    FewOlder(rows, window, i, now);
  }

  /** What is older than a row of the window stands before it. */
  lemma FewOlder(rows: map<string, Entry>, window: seq<string>, i: nat, now: Time)
    requires i < |window| && IsWindow(window, rows, now)
    ensures |Older(rows, window[i], now)| < 100
  {
    hide Candidate, Eligible;
    EligibleAre(rows, now);
    var before := Firsts(window, i);
    forall x | x in Older(rows, window[i], now)
      ensures x in before
    {
      assert x in EligibleRows(rows, now);
      if x in window {
        var j :| 0 <= j < |window| && window[j] == x;
        assert j < i;
      }
    }
    FirstsSize(window, i);
    SubsetSize(Older(rows, window[i], now), before);
  }

  lemma {:induction false} FirstsSize(s: seq<string>, n: nat)
    requires n <= |s| && forall i, j :: 0 <= i < j < |s| ==> s[i] != s[j]
    ensures |Firsts(s, n)| == n
  {
    if n > 0 {
      FirstsSize(s, n - 1);
      FirstsNext(s, n - 1);
    }
  }

  /** What fits the node but was not in the window has a hundred older rows before it. */
  lemma NothingFits(rows: map<string, Entry>, window: seq<string>, locked: set<string>, node: Registration, now: Time)
    requires IsWindow(window, rows, now)
    requires forall j :: 0 <= j < |window| ==> !Takes(rows, window[j], locked, node, now)
    ensures forall q :: Fits(rows, q, locked, node, now) ==> |Ahead(rows, q, now)| >= 100
    ensures |EligibleRows(rows, now)| <= 100 ==> forall q :: !Fits(rows, q, locked, node, now)
  {
    hide Candidate, Eligible, Fits, Takes, Ahead;
    forall q | Fits(rows, q, locked, node, now)
      ensures q in rows && |Ahead(rows, q, now)| >= 100 && |EligibleRows(rows, now)| > 100
    {
      FitsIsTaken(rows, q, locked, node, now);
      TakenNames(rows, q, locked, node, now);
      assert q !in window;
      HundredAhead(rows, window, q, now);
    }
  }

  lemma HundredAhead(rows: map<string, Entry>, window: seq<string>, q: string, now: Time)
    requires IsWindow(window, rows, now) && q in rows && Candidate(rows[q], now) && q !in window
    ensures |Ahead(rows, q, now)| >= 100 && |EligibleRows(rows, now)| > 100
  {
    hide Candidate, Eligible;
    EligibleAre(rows, now);
    var all := Firsts(window, |window|);
    FirstsSize(window, |window|);
    forall x | x in all
      ensures x in Ahead(rows, q, now)
    {
      var j :| 0 <= j < |window| && window[j] == x;
      assert window[j] in EligibleRows(rows, now);
    }
    assert all + {q} <= EligibleRows(rows, now);
    SubsetSize(all + {q}, EligibleRows(rows, now));
    SubsetSize(all, Ahead(rows, q, now));
  }

  predicate Takes(rows: map<string, Entry>, r: string, locked: set<string>, node: Registration, now: Time) {
    r in rows && r !in locked && Candidate(rows[r], now) && rows[r].request.needs <= node.offers
  }
}

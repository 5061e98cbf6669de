/** What holds over whole histories of transactions on the relational storage. */
module PostgresHistory {
  import opened Types
  import opened Identity
  import opened RunProtocol
  import opened RunInvariants
  import opened Protocol
  import opened Behaviours
  import opened Leases
  import opened Dispatch
  import opened PostgresStore

  datatype Table = Table(clock: Time, rows: map<string, Entry>, issued: set<string>)

  /** `tables[i]` is the state before `ops[i]`. */
  datatype History = History(tables: seq<Table>, ops: seq<Op>)

  /** The clock readings of one transaction. */
  predicate Timely(op: Op, from: Time, to: Time) {
    && from <= to
    && match op
       case OpSubmit(_, _, _, t) => from <= t <= to
       case OpClaim(_, _, t, _) => from <= t <= to
       case OpCall(_, _, _, call, _) => Ordered(from, call, to)
       case OpCancel(_, _, _, t) => from <= t <= to
       case OpReconcile(now, _, _, _, _, _) => now <= to
       case _ => true
  }

  ghost predicate Transacts(t: Table, op: Op, t': Table) {
    RowsStep(t.rows, t.issued, op, t'.rows, t'.issued) && Timely(op, t.clock, t'.clock)
  }

  ghost predicate IsHistory(h: History) {
    && |h.tables| == |h.ops| + 1 && h.tables[0].rows == map[] && h.tables[0].issued == {}
    && forall i :: 0 <= i < |h.ops| ==> Transacts(h.tables[i], h.ops[i], h.tables[i + 1])
  }

  ghost predicate TableInv(t: Table) {
    AllRows(t.rows) && forall r :: r in t.rows ==> LeaseIssued(t.rows[r], t.issued)
  }

  predicate LeaseIssued(e: Entry, issued: set<string>) {
    e.run.attempt.lease != "" ==> e.run.attempt.lease in issued
  }

  /** What every transaction does to a row that was there. */
  ghost predicate RowStep(e: Entry, e': Entry, issued: set<string>) {
    && Evolves(e, e')
    && (e'.run.attempt.lease == e.run.attempt.lease || e'.run.attempt.lease == "" || e'.run.attempt.lease !in issued)
  }

  lemma RowStepTransitive(a: Entry, b: Entry, c: Entry, issued: set<string>, issued': set<string>)
    requires RowStep(a, b, issued) && RowStep(b, c, issued') && issued <= issued'
    ensures RowStep(a, c, issued)
  {
    hide Evolves;
    EvolvesTransitive(a, b, c);
  }

  // ------------------------------------------------------------------ one transaction on one row

  lemma TransactHolder(e: Entry, attemptId: string, lease: string, call: Call)
    requires !call.Inspect?
    ensures Transact(e, attemptId, lease, call).0.run.attempt.lease == e.run.attempt.lease
  {
    hide Terminals, Started, LogShape, Appendable, HasEvent;
  }

  lemma RecoverLease(e: Entry, now: Time, id: string)
    ensures Recover(e, now, id).run.attempt.lease == e.run.attempt.lease || Recover(e, now, id).run.attempt.lease == ""
  {
    hide Terminals, Started, LogShape, Appendable, HasEvent;
  }

  lemma GrantRowFacts(e: Entry, nodeId: string, lease: string, expires: Time)
    ensures var e' := GrantRow(e, nodeId, lease, expires);
      && e'.run.attempt.lease == lease && e'.run.attempt.status == AttemptLeased && e'.run.attempt.leaseExpiresAt == Some(expires)
      && e'.run.attempt.id == e.run.attempt.id && e'.run.deadlineAt == e.run.deadlineAt
  {
    hide Terminals, Started, LogShape, Appendable, HasEvent;
  }

  lemma ReconciledRow(rows: map<string, Entry>, now: Time, overdue: set<string>, abandoned: set<string>, ids: map<string, string>, r: string)
    requires AllRows(rows) && r in rows && NewIds(rows, ids) && abandoned <= AbandonedRuns(CancelAll(rows, overdue, now), now)
    ensures var e' := RecoverAll(CancelAll(rows, overdue, now), abandoned, ids, now)[r];
      && RowSound(e') && Evolves(rows[r], e') && Quiet(rows[r], e', now)
      && (e'.run.attempt.lease == rows[r].run.attempt.lease || e'.run.attempt.lease == "")
  {
    hide RowSound, Evolves, Cancel, CancelOverdue, Recover, Overdue, Abandoned, FreshAttempt, Quiet;
    var e := rows[r];
    var mid := CancelAll(rows, overdue, now);
    CancelAllFacts(rows, overdue, now, ids);
    OverdueQuiet(e, now);
    RowIsSound(e);
    StayQuiet(e, now);
    StayQuiet(mid[r], now);
    assert r in abandoned ==> Abandoned(mid[r], now);
    if r in abandoned {
      RecoverRowKeeps(mid[r], now, ids[r]);
      RowIsSound(mid[r]);
      RecoverQuiet(mid[r], now, ids[r]);
      RecoverLease(mid[r], now, ids[r]);
      EvolvesTransitive(e, mid[r], Recover(mid[r], now, ids[r]));
    }
    QuietTransitive(e, mid[r], RecoverAll(mid, abandoned, ids, now)[r], now);
  }

  lemma RowIsSound(e: Entry)
    requires RowSound(e)
    ensures Sound(e)
  {
    hide Sound;
  }

  lemma OverdueQuiet(e: Entry, now: Time)
    requires RowSound(e)
    ensures Quiet(e, CancelOverdue(e, now), now)
    ensures CancelOverdue(e, now).run.attempt.lease == e.run.attempt.lease || CancelOverdue(e, now).run.attempt.lease == ""
  {
    hide Sound, Cancel, Quiet;
    CancelQuiet(e, "run timeout exceeded", "relay", now);
    CancelSameHolder(e, "run timeout exceeded", "relay", now);
  }

  lemma TransactQuiet(e: Entry, attemptId: string, lease: string, call: Call, now: Time)
    requires RowSound(e) && !call.Inspect? && !Transact(e, attemptId, lease, call).1.Renewed?
    ensures Quiet(e, Transact(e, attemptId, lease, call).0, now)
  {
    hide Terminals, Started, LogShape, LogSound, HistorySound;
  }

  lemma TransactRenews(e: Entry, attemptId: string, lease: string, call: Call, from: Time, to: Time)
    requires RowSound(e) && !call.Inspect? && Ordered(from, call, to) && Transact(e, attemptId, lease, call).1.Renewed?
    ensures var (e', answer) := Transact(e, attemptId, lease, call);
      && call.Renew? && Live(e) && Live(e') && e.run.attempt.lease == lease && e'.run.attempt.lease == lease
      && e'.run.attempt.leaseExpiresAt == Some(answer.expiresAt)
      && e.run.attempt.leaseExpiresAt.Some? && from <= call.t1 < e.run.attempt.leaseExpiresAt.value
  {
    hide Terminals, Started, LogShape, LogSound, HistorySound;
  }

  // ------------------------------------------------------------------ one transaction on all rows

  /** One transaction on one row: what it keeps, and where a running lease can come from. */
  lemma StepRow(t: Table, op: Op, t': Table, r: string)
    requires TableInv(t) && Transacts(t, op, t') && r in t.rows
    ensures r in t'.rows && RowSound(t'.rows[r]) && RowStep(t.rows[r], t'.rows[r], t.issued) && LeaseIssued(t'.rows[r], t'.issued)
    ensures !Grants(op, r) && !Renews(op, r) ==> Quiet(t.rows[r], t'.rows[r], t'.clock)
  {
    hide RowSound, Evolves, Cancel, Recover, Transact, GrantRow, Candidate, FreshAttempt, Quiet, NewIds, RecoverAll, CancelAll,
         AbandonedRuns, NewEntry;
    var e := t.rows[r];
    RowIsSound(e);
    SoundStays(e, t'.clock);
    match op {
      case OpClaim(nodeId, ttl, now, Accepted(a)) =>
        if a.runId == r {
          GrantRowKeeps(e, nodeId, a.lease, now + ttl, now);
          GrantRowFacts(e, nodeId, a.lease, now + ttl);
        }
      case OpCall(runId, attemptId, lease, call, answer) =>
        if runId == r {
          TransactKeeps(e, attemptId, lease, call);
          TransactHolder(e, attemptId, lease, call);
          RenewedIsRenew(e, attemptId, lease, call);
          if !answer.Renewed? { TransactQuiet(e, attemptId, lease, call, t'.clock); }
        }
      case OpCancel(runId, reason, requester, now) =>
        if runId == r {
          CancelRowKeeps(e, reason, requester, now);
          CancelSameHolder(e, reason, requester, now);
          CancelQuiet(e, reason, requester, now);
          QuietLater(e, Cancel(e, reason, requester, now), now, t'.clock);
        }
      case OpReconcile(now, _, overdue, abandoned, ids, _) =>
        ReconciledRow(t.rows, now, overdue, abandoned, ids, r);
        SameKeys(t.rows, overdue, now);
        SameRows(CancelAll(t.rows, overdue, now), abandoned, ids, now);
        QuietLater(e, t'.rows[r], now, t'.clock);
      case _ =>
    }
  }

  lemma RenewedIsRenew(e: Entry, attemptId: string, lease: string, call: Call)
    requires !call.Inspect?
    ensures Transact(e, attemptId, lease, call).1.Renewed? ==> call.Renew?
  {
    hide Terminals, Started, LogShape, LogSound, HistorySound;
  }

  lemma SoundStays(e: Entry, now: Time)
    requires Sound(e)
    ensures Evolves(e, e) && Quiet(e, e, now)
  {
    hide Sound;
    StayKeeps(e);
  }

  lemma NewRow(t: Table, op: Op, t': Table, r: string)
    requires Transacts(t, op, t') && r !in t.rows && r in t'.rows
    ensures RowSound(t'.rows[r]) && t'.rows[r].run.attempt.lease == "" && t'.rows[r].run.attempt.status == AttemptQueued
    ensures !Grants(op, r)
  {
    hide RowSound, Sound, Cancel, Recover, Transact, GrantRow, Candidate, Overdue, Abandoned, NewIds, Terminals, Started, LogShape, NewEntry;
    match op {
      case OpSubmit(request, runId, attemptId, now) =>
        NewRowSound(request, runId, attemptId, now);
        NewEntryQueued(request, runId, attemptId, now);
      case OpReconcile(now, _, overdue, abandoned, ids, _) =>
        SameKeys(t.rows, overdue, now);
        SameRows(CancelAll(t.rows, overdue, now), abandoned, ids, now);
      case _ =>
    }
  }

  lemma NewEntryQueued(request: Request, runId: string, attemptId: string, now: Time)
    ensures NewEntry(request, runId, attemptId, now).run.attempt.lease == ""
    ensures NewEntry(request, runId, attemptId, now).run.attempt.status == AttemptQueued
  {
    hide Terminals, Started, LogShape;
  }

  lemma StepTables(t: Table, op: Op, t': Table)
    requires TableInv(t) && Transacts(t, op, t')
    ensures TableInv(t') && t.rows.Keys <= t'.rows.Keys && t.issued <= t'.issued && t.clock <= t'.clock
  {
    hide RowSound, RowsStep, RowStep, Quiet;
    IssuedGrows(t, op, t');
    forall r | r in t.rows
      ensures r in t'.rows
    {
      StepRow(t, op, t', r);
    }
    forall r | r in t'.rows
      ensures RowSound(t'.rows[r]) && LeaseIssued(t'.rows[r], t'.issued)
    {
      if r in t.rows { StepRow(t, op, t', r); } else { NewRow(t, op, t', r); }
    }
  }

  lemma IssuedGrows(t: Table, op: Op, t': Table)
    requires Transacts(t, op, t')
    ensures t.issued <= t'.issued
  {
    hide Transact, GrantRow, Candidate, NewIds, RecoverAll, CancelAll, AbandonedRuns, NewEntry, Cancel, Fresh;
  }

  // ------------------------------------------------------------------ histories

  /** In every history, every row is sound, its status pair is one of the listed ones, and its token was issued. */
  lemma {:induction false} TablesSound(h: History, i: nat)
    requires IsHistory(h) && i < |h.tables|
    ensures TableInv(h.tables[i])
  {
    hide Transacts, TableInv;
    if i == 0 {
      EmptyTable(h.tables[0]);
    } else {
      TablesSound(h, i - 1);
      StepTables(h.tables[i - 1], h.ops[i - 1], h.tables[i]);
    }
  }

  lemma EmptyTable(t: Table)
    requires t.rows == map[]
    ensures TableInv(t)
  {
  }

  /** Between any two moments a run keeps what was settled, and its token is kept, given up or new. */
  lemma {:induction false} RowBetween(h: History, i: nat, j: nat, r: string)
    requires IsHistory(h) && i <= j < |h.tables| && r in h.tables[i].rows
    ensures r in h.tables[j].rows && RowSound(h.tables[i].rows[r]) && RowSound(h.tables[j].rows[r])
    ensures RowStep(h.tables[i].rows[r], h.tables[j].rows[r], h.tables[i].issued) && h.tables[i].issued <= h.tables[j].issued
    decreases j - i
  {
    hide Transacts, TableInv, RowSound, RowStep, Quiet;
    TablesSound(h, i);
    RowOf(h.tables[i], r);
    if i == j {
      SameRow(h.tables[i].rows[r], h.tables[i].issued);
    } else {
      RowBetween(h, i, j - 1, r);
      TablesSound(h, j - 1);
      StepRow(h.tables[j - 1], h.ops[j - 1], h.tables[j], r);
      StepTables(h.tables[j - 1], h.ops[j - 1], h.tables[j]);
      RowStepTransitive(h.tables[i].rows[r], h.tables[j - 1].rows[r], h.tables[j].rows[r], h.tables[i].issued, h.tables[j - 1].issued);
    }
  }

  lemma RowOf(t: Table, r: string)
    requires TableInv(t) && r in t.rows
    ensures RowSound(t.rows[r]) && LeaseIssued(t.rows[r], t.issued)
  {
    hide RowSound;
  }

  lemma SameRow(e: Entry, issued: set<string>)
    requires RowSound(e)
    ensures RowStep(e, e, issued)
  {
    hide Sound, Evolves;
    StayKeeps(e);
  }

  /** A superseded token never becomes current again, and no transaction accepts it. */
  lemma SupersededForEver(h: History, i: nat, j: nat, k: nat, r: string, lease: string)
    requires IsHistory(h) && i <= j <= k < |h.tables| && r in h.tables[i].rows && lease != ""
    requires h.tables[i].rows[r].run.attempt.lease == lease
    requires r in h.tables[j].rows && h.tables[j].rows[r].run.attempt.lease != lease
    ensures r in h.tables[k].rows && h.tables[k].rows[r].run.attempt.lease != lease
    ensures forall attemptId, call: Call :: !call.Inspect? ==>
              Transact(h.tables[k].rows[r], attemptId, lease, call) == (h.tables[k].rows[r], Refused(ErrInvalidLease))
  {
    hide IsHistory, RowSound, Evolves, TableInv, Transact;
    TablesSound(h, i);
    RowOf(h.tables[i], r);
    RowBetween(h, i, j, r);
    RowBetween(h, j, k, r);
    forall attemptId, call: Call | !call.Inspect?
      ensures Transact(h.tables[k].rows[r], attemptId, lease, call) == (h.tables[k].rows[r], Refused(ErrInvalidLease))
    {
      NotTheHolder(h.tables[k].rows[r], attemptId, lease, call);
    }
  }

  lemma NotTheHolder(e: Entry, attemptId: string, lease: string, call: Call)
    requires e.run.attempt.lease != lease && !call.Inspect?
    ensures Transact(e, attemptId, lease, call) == (e, Refused(ErrInvalidLease))
  {
    hide Change;
  }

  /** A finished run never changes again, and a recorded cancellation is never undone. */
  lemma SettledForEver(h: History, i: nat, j: nat, r: string)
    requires IsHistory(h) && i <= j < |h.tables| && r in h.tables[i].rows
    ensures r in h.tables[j].rows
    ensures Terminal(h.tables[i].rows[r].run.status) ==> h.tables[j].rows[r].run == h.tables[i].rows[r].run
    ensures h.tables[i].rows[r].run.cancelRequestedAt.Some? ==>
              h.tables[j].rows[r].run.status == RunCancelling || h.tables[j].rows[r].run.status == RunCancelled
  {
    hide IsHistory, LogSound, HistorySound;
    RowBetween(h, i, j, r);
  }

  // ------------------------------------------------------------------ retries

  /** The run failed and no node said so. */
  predicate LostFailed(e: Entry) {
    e.run.status == RunFailed && e.run.attempt.status != AttemptFailed
  }

  lemma TransactLoses(e: Entry, attemptId: string, lease: string, call: Call)
    requires RowSound(e) && !call.Inspect? && LostFailed(Transact(e, attemptId, lease, call).0)
    ensures Transact(e, attemptId, lease, call).0.run == e.run
  {
    hide Terminals, Started, LogShape, LogSound, HistorySound;
  }

  lemma CancelLoses(e: Entry, reason: string, requester: string, now: Time)
    requires Sound(e)
    ensures var e' := Cancel(e, reason, requester, now);
      e' == e || e'.run.status == RunCancelling || e'.run.status == RunCancelled
  {
    hide Cancel, LogSound, HistorySound;
    CancelEffect(e, reason, requester, now);
  }

  lemma GrantLoses(e: Entry, nodeId: string, lease: string, expires: Time)
    ensures GrantRow(e, nodeId, lease, expires).run.status == e.run.status
  {
    hide Terminals, Started, LogShape, Appendable, HasEvent;
  }

  lemma CandidateQueued(e: Entry, now: Time)
    requires Candidate(e, now)
    ensures e.run.status == RunQueued
  {
  }

  lemma MidSound(e: Entry, now: Time)
    requires RowSound(e)
    ensures Sound(CancelOverdue(e, now))
  {
    hide Sound, Evolves, CancelOverdue;
    CancelOverdueKeeps(e, now);
  }

  lemma CancelOverdueLoses(e: Entry, now: Time)
    requires Sound(e)
    ensures var mid := CancelOverdue(e, now); mid == e || mid.run.status == RunCancelling || mid.run.status == RunCancelled
  {
    hide Cancel, Sound;
    CancelLoses(e, "run timeout exceeded", "relay", now);
  }

  lemma RecoverLoses(mid: Entry, now: Time, id: string)
    requires Sound(mid) && Abandoned(mid, now)
    ensures var e' := Recover(mid, now, id);
      (mid.run.status == RunRunning && LostAttempt(mid, e', now)) || e'.run.status == RunCancelled
  {
    hide Sound, Recover, Abandoned;
    RecoverEffect(mid, now, id);
  }

  /** A run comes to fail without a report only by reconciliation, with its attempts used up. */
  lemma StepLoses(t: Table, op: Op, t': Table, r: string)
    requires TableInv(t) && Transacts(t, op, t') && r in t.rows && r in t'.rows && LostFailed(t'.rows[r])
    ensures t'.rows[r].run == t.rows[r].run || (op.OpReconcile? && LostAttempt(t.rows[r], t'.rows[r], op.now))
  {
    hide RowSound, Cancel, CancelOverdue, Recover, Transact, GrantRow, Candidate, FreshAttempt, NewIds, NewEntry, Abandoned,
         LostAttempt, Sound;
    var e := t.rows[r];
    RowIsSound(e);
    match op {
      case OpClaim(nodeId, ttl, now, Accepted(a)) =>
        if a.runId == r {
          GrantLoses(e, nodeId, a.lease, now + ttl);
          CandidateQueued(e, now);
        }
      case OpCall(runId, attemptId, lease, call, answer) =>
        if runId == r { TransactLoses(e, attemptId, lease, call); }
      case OpCancel(runId, reason, requester, now) => CancelLoses(e, reason, requester, now);
      case OpReconcile(now, _, overdue, abandoned, ids, _) =>
        var mid := CancelAll(t.rows, overdue, now);
        CancelOverdueLoses(e, now);
        MidSound(e, now);
        if r in abandoned {
          assert r in AbandonedRuns(mid, now);
          RecoverLoses(mid[r], now, if r in ids then ids[r] else "");
        }
      case _ =>
    }
  }

  /** In every history, a run that failed without a report had used up its attempts, and lost the last one. */
  lemma {:induction false} LostBecauseExhausted(h: History, n: nat, r: string)
    requires IsHistory(h) && n < |h.tables| && r in h.tables[n].rows && LostFailed(h.tables[n].rows[r])
    ensures var e := h.tables[n].rows[r];
      && e.run.attempt.status == AttemptLost && e.run.error == "attempt lease expired"
      && e.run.attempt.number == if e.request.maxAttempts > 1 then e.request.maxAttempts else 1
  {
    hide Transacts, TableInv, LostFailed, LostAttempt;
    if n > 0 {
      var m := n - 1;
      TablesSound(h, m);
      if r in h.tables[m].rows {
        StepLoses(h.tables[m], h.ops[m], h.tables[n], r);
        RowBetween(h, m, n, r);
        if h.tables[n].rows[r].run == h.tables[m].rows[r].run {
          SameRunLost(h.tables[m].rows[r], h.tables[n].rows[r]);
          LostBecauseExhausted(h, m, r);
        } else {
          LastRow(h.tables[m].rows[r], h.tables[n].rows[r], h.ops[m].now);
        }
      } else {
        NewRow(h.tables[m], h.ops[m], h.tables[n], r);
        NewNotLost(h.tables[n].rows[r]);
      }
    }
  }

  lemma SameRunLost(e: Entry, e': Entry)
    requires LostFailed(e') && e'.run == e.run
    ensures LostFailed(e)
  {
  }

  lemma NewNotLost(e: Entry)
    requires RowSound(e) && e.run.attempt.status == AttemptQueued
    ensures !LostFailed(e)
  {
    hide LogSound, HistorySound;
  }

  lemma LastRow(e: Entry, e': Entry, now: Time)
    requires RowSound(e) && LostAttempt(e, e', now) && LostFailed(e') && Evolves(e, e')
    ensures e'.run.attempt.status == AttemptLost && e'.run.error == "attempt lease expired"
    ensures e'.run.attempt.number == if e'.request.maxAttempts > 1 then e'.request.maxAttempts else 1
  {
    hide RunSound, LogSound;
  }

  // ------------------------------------------------------------------ leases

  ghost predicate RowWindows(t: Table, windows: seq<Window>, r: string) {
    && Exclusive(windows)
    && (forall i :: 0 <= i < |windows| ==> windows[i].lease in t.issued && windows[i].from <= t.clock)
    && (if r in t.rows then Tracks(windows, t.rows[r], t.clock) else windows == [])
  }

  lemma GrantedWindow(t: Table, op: Op, t': Table, windows: seq<Window>, r: string)
    requires TableInv(t) && Transacts(t, op, t') && RowWindows(t, windows, r) && Grants(op, r)
    ensures RowWindows(t', Observe(windows, op, r), r)
  {
    hide RowSound, GrantRow, Fresh, TableInv, Evolves;
    GrantTaken(t, op, t', r);
    var a := op.reply.value;
    GrantRowFacts(t.rows[r], op.nodeId, a.lease, op.t + op.ttl);
    AllOver(windows, t.rows[r], t.clock, op.t);
  }

  lemma GrantTaken(t: Table, op: Op, t': Table, r: string)
    requires Transacts(t, op, t') && Grants(op, r)
    ensures r in t.rows && Candidate(t.rows[r], op.t) && t.clock <= op.t <= t'.clock && op.reply.value.lease !in t.issued
    ensures t'.issued == t.issued + {op.reply.value.lease} && op.reply.value.leaseExpiresAt == op.t + op.ttl
    ensures t'.rows == t.rows[r := GrantRow(t.rows[r], op.nodeId, op.reply.value.lease, op.t + op.ttl)]
  {
    hide Candidate, GrantRow;
  }

  /** A candidate has outlived all of its windows. */
  lemma AllOver(windows: seq<Window>, e: Entry, clock: Time, now: Time)
    requires Exclusive(windows) && Tracks(windows, e, clock) && Candidate(e, now) && clock <= now
    requires forall i :: 0 <= i < |windows| ==> windows[i].from <= clock
    ensures forall i :: 0 <= i < |windows| ==> windows[i].until <= now
  {
    if e.run.attempt.status == AttemptLeased {
      var last := |windows| - 1;
      assert windows[last].until <= now;
      assert forall i :: 0 <= i < last ==> windows[i].until <= windows[last].from;
    }
  }

  lemma RenewedWindow(t: Table, op: Op, t': Table, windows: seq<Window>, r: string)
    requires TableInv(t) && Transacts(t, op, t') && RowWindows(t, windows, r) && Renews(op, r)
    ensures RowWindows(t', Observe(windows, op, r), r)
  {
    hide RowSound, Transact, TableInv;
    if r in t.rows {
      RowOf(t, r);
      TransactRenews(t.rows[r], op.attemptId, op.lease, op.call, t.clock, t'.clock);
      var n := |windows| - 1;
      var windows' := Observe(windows, op, r);
      assert windows' == windows[..n] + [windows[n].(until := op.answer.expiresAt)];
    }
  }

  lemma QuietWindows(t: Table, op: Op, t': Table, windows: seq<Window>, r: string)
    requires TableInv(t) && Transacts(t, op, t') && RowWindows(t, windows, r) && !Grants(op, r) && !Renews(op, r)
    ensures RowWindows(t', Observe(windows, op, r), r)
  {
    hide RowSound, RowsStep, TableInv, Quiet, RowStep, Observe, Tracks, Exclusive, Renews;
    StepTables(t, op, t');
    ObservesNothing(windows, op, r);
    if r in t.rows {
      StepRow(t, op, t', r);
      QuietTracks(windows, t.rows[r], t'.rows[r], t'.clock, t.clock, t'.clock);
    } else if r in t'.rows {
      NewRow(t, op, t', r);
      NewTracks(t'.rows[r], t'.clock);
    }
  }

  lemma {:induction false} RowWindowsTrack(h: History, n: nat, r: string)
    requires IsHistory(h) && n <= |h.ops|
    ensures RowWindows(h.tables[n], Windows(h.ops[..n], r), r)
  {
    hide Transacts, TableInv, RowWindows, Observe, Grants, Renews;
    if n == 0 {
      NoWindowsYet(h.tables[0], r);
    } else {
      var m := n - 1;
      RowWindowsTrack(h, m, r);
      TablesSound(h, m);
      assert h.ops[..n][..m] == h.ops[..m];
      var windows := Windows(h.ops[..m], r);
      if Grants(h.ops[m], r) {
        GrantedWindow(h.tables[m], h.ops[m], h.tables[n], windows, r);
      } else if Renews(h.ops[m], r) {
        RenewedWindow(h.tables[m], h.ops[m], h.tables[n], windows, r);
      } else {
        QuietWindows(h.tables[m], h.ops[m], h.tables[n], windows, r);
      }
    }
  }

  lemma NoWindowsYet(t: Table, r: string)
    requires t.rows == map[]
    ensures RowWindows(t, [], r)
  {
  }

  /** In every history of transactions, two leases of one run never overlap and never share a token. */
  lemma LeasesNeverOverlap(h: History, r: string)
    requires IsHistory(h)
    ensures Exclusive(Windows(h.ops, r))
  {
    hide IsHistory, Exclusive, Windows;
    RowWindowsTrack(h, |h.ops|, r);
    assert h.ops[..|h.ops|] == h.ops;
  }
}

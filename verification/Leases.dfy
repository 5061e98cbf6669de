/** Lease exclusivity: the leases granted on one run never overlap in time. */
module Leases {
  import opened Types
  import opened Identity
  import opened RunProtocol
  import opened RunInvariants
  import opened Protocol
  import opened Behaviours
  import opened Producers

  /** A lease as its holders saw it: from the claim to the last expiry they were told. */
  datatype Window = Window(lease: string, from: Time, until: Time)

  function Extend(windows: seq<Window>, lease: string, until: Time): (extended: seq<Window>)
    ensures |extended| == |windows|
    ensures forall i :: 0 <= i < |windows| ==>
      extended[i] == if windows[i].lease == lease then windows[i].(until := until) else windows[i]
  {
    seq(|windows|, i requires 0 <= i < |windows| =>
      if windows[i].lease == lease then windows[i].(until := until) else windows[i])
  }

  function Observe(windows: seq<Window>, op: Op, r: string): seq<Window> {
    match op
    case OpClaim(_, _, t, Accepted(a)) => if a.runId == r then windows + [Window(a.lease, t, a.leaseExpiresAt)] else windows
    case OpCall(runId, _, lease, Renew(_, _, _), Renewed(expiresAt, _, _)) =>
      if runId == r then Extend(windows, lease, expiresAt) else windows
    case _ => windows
  }

  /** The leases of a run, read off the answers alone. */
  function Windows(ops: seq<Op>, r: string): seq<Window> {
    if ops == [] then [] else Observe(Windows(ops[..|ops| - 1], r), ops[|ops| - 1], r)
  }

  ghost predicate Exclusive(windows: seq<Window>) {
    && (forall i, j :: 0 <= i < j < |windows| ==> windows[i].until <= windows[j].from)
    && (forall i, j :: 0 <= i < j < |windows| ==> windows[i].lease != windows[j].lease)
  }

  /** The attempt has no lease that could still run. */
  predicate Idle(e: Entry) {
    e.run.attempt.status == AttemptQueued || e.run.attempt.status == AttemptLost
  }

  /** The last window is the lease the run is under; a queued or lost attempt has outlived every window. */
  ghost predicate Tracks(windows: seq<Window>, e: Entry, clock: Time) {
    && (Live(e) ==> |windows| > 0 && var last := windows[|windows| - 1];
                    last.lease == e.run.attempt.lease && e.run.attempt.leaseExpiresAt == Some(last.until))
    && (Idle(e) ==> forall i :: 0 <= i < |windows| ==> windows[i].until <= clock)
  }

  ghost predicate WindowInv(s: State, windows: seq<Window>, r: string) {
    && Exclusive(windows)
    && (forall i :: 0 <= i < |windows| ==> windows[i].lease in s.issued && windows[i].from <= s.clock)
    && (if r in s.entries then Tracks(windows, s.entries[r], s.clock) else windows == [])
  }

  /** A step that neither grants nor renews: a live attempt keeps its lease, an idle one was idle or ran out. */
  ghost predicate Quiet(e: Entry, e': Entry, now: Time) {
    && (Live(e') ==> Live(e) && e'.run.attempt.lease == e.run.attempt.lease
                     && e'.run.attempt.leaseExpiresAt == e.run.attempt.leaseExpiresAt)
    && (Idle(e') ==> Idle(e) || (Live(e) && LeasePassed(e.run.attempt, now)))
  }

  lemma QuietTracks(windows: seq<Window>, e: Entry, e': Entry, now: Time, clock: Time, clock': Time)
    requires Exclusive(windows) && Tracks(windows, e, clock) && Quiet(e, e', now)
    requires clock <= clock' && now <= clock'
    requires forall i :: 0 <= i < |windows| ==> windows[i].from <= clock
    ensures Tracks(windows, e', clock')
  {
  }

  lemma SweepQuiet(e: Entry, now: Time)
    requires Sound(e)
    ensures Quiet(e, Sweep(e, now), now)
  {
    hide Terminals, Started, LogShape, LogSound, HistorySound;
  }

  lemma CancelQuiet(e: Entry, reason: string, requester: string, now: Time)
    requires Sound(e)
    ensures Quiet(e, Cancel(e, reason, requester, now), now)
  {
    hide Terminals, Started, LogShape, LogSound, HistorySound;
  }

  lemma RecoverQuiet(e: Entry, now: Time, id: string)
    requires Sound(e) && Abandoned(e, now)
    ensures Quiet(e, Recover(e, now, id), now)
  {
    hide Terminals, Started, LogShape, LogSound, HistorySound;
  }

  lemma AuthorizedQuiet(e: Entry, attemptId: string, lease: string, call: Call, to: Time)
    requires Sound(e) && !call.Renew? && !call.Complete? && !call.Fail?
    requires call.Start? ==> call.t2 <= to && call.t3 <= to
    ensures Quiet(e, ApplyAuthorized(e, attemptId, lease, call).0, to)
    ensures !ApplyAuthorized(e, attemptId, lease, call).1.Renewed?
  {
    hide Terminals, Started, LogShape, LogSound, HistorySound;
  }

  lemma ExpireQuiet(e: Entry, now: Time)
    requires Sound(e)
    ensures Quiet(e, Expire(e, now), now)
  {
    hide Terminals, Started, LogShape, LogSound, HistorySound;
  }

  lemma ReportQuiet(e: Entry, attemptId: string, lease: string, t1: Time, t2: Time, result: RunResult, cause: string, to: Time)
    requires Sound(e)
    ensures Quiet(e, ApplyComplete(e, attemptId, lease, t1, t2, result).0, to)
    ensures Quiet(e, ApplyFail(e, attemptId, lease, t1, t2, cause).0, to)
  {
    hide Terminals, Started, LogShape, LogSound, HistorySound;
  }

  lemma QuietLater(e: Entry, e': Entry, now: Time, later: Time)
    requires Quiet(e, e', now) && now <= later
    ensures Quiet(e, e', later)
  {
  }

  lemma ApplyQuiet(e: Entry, attemptId: string, lease: string, call: Call, from: Time, to: Time)
    requires Sound(e) && Ordered(from, call, to) && !Apply(e, attemptId, lease, call).1.Renewed?
    ensures Quiet(e, Apply(e, attemptId, lease, call).0, to)
  {
    hide Sound, Expire, ApplyAuthorized, ApplyComplete, ApplyFail, Quiet;
    StayQuiet(e, to);
    match call {
      case Complete(t1, t2, result) => ReportQuiet(e, attemptId, lease, t1, t2, result, "", to);
      case Fail(t1, t2, cause) => ReportQuiet(e, attemptId, lease, t1, t2, RunResult("", ""), cause, to);
      case Renew(t1, t2, ttl) =>
        ExpireQuiet(e, t1);
        QuietLater(e, Expire(e, t1), t1, to);
        RefusedRenewal(e, attemptId, lease, call);
      case _ =>
        ExpireQuiet(e, call.t1);
        QuietLater(e, Expire(e, call.t1), call.t1, to);
        AuthorizedQuiet(e, attemptId, lease, call, to);
    }
  }

  lemma StayQuiet(e: Entry, now: Time)
    ensures Quiet(e, e, now)
  {
  }

  lemma RefusedRenewal(e: Entry, attemptId: string, lease: string, call: Call)
    requires call.Renew?
    ensures ApplyAuthorized(e, attemptId, lease, call).1.Renewed? || ApplyAuthorized(e, attemptId, lease, call).0 == e
  {
  }

  lemma RenewalMoves(e: Entry, attemptId: string, lease: string, call: Call, from: Time, to: Time)
    requires Ordered(from, call, to) && Apply(e, attemptId, lease, call).1.Renewed?
    ensures var (e', answer) := Apply(e, attemptId, lease, call);
      && call.Renew? && Live(e) && Live(e') && e.run.attempt.lease == lease && e'.run.attempt.lease == lease
      && e'.run.attempt.leaseExpiresAt == Some(answer.expiresAt) && answer.expiresAt == call.t2 + call.ttl
      && e.run.attempt.leaseExpiresAt.Some? && from <= call.t2 < e.run.attempt.leaseExpiresAt.value
  {
    hide Terminals, Started, LogShape, LogSound, HistorySound, Expire, FinalizeCancel;
  }

  // ------------------------------------------------------------------ one step

  predicate Renews(op: Op, r: string) {
    op.OpCall? && op.runId == r && op.call.Renew? && op.answer.Renewed?
  }

  /** Only a grant or a renewal gives a run a lease that is still running. */
  lemma NextQuiet(s: State, op: Op, s': State, r: string)
    requires Inv(s) && Next(s, op, s') && r in s.entries && !Grants(op, r) && !Renews(op, r)
    ensures r in s'.entries && Quiet(s.entries[r], s'.entries[r], s'.clock)
  {
    hide Inv, Sound, Quiet, Sweep, Cancel, Recover, Apply, Grant, Fresh, Retries, Abandoned, Overdue, Claimable, LiveOn;
    var e := s.entries[r];
    SoundAt(s, r);
    StayQuiet(e, s'.clock);
    match op {
      case OpSubmit(_, runId, _, _) => SubmitLeaves(s, op, s', r);
      case OpClaim(_, _, t, _) =>
        SweepQuiet(e, t);
        QuietLater(e, Sweep(e, t), t, s'.clock);
      case OpCall(runId, attemptId, lease, call, answer) =>
        if runId == r {
          OnlyRenewRenews(e, attemptId, lease, call);
          ApplyQuiet(e, attemptId, lease, call, s.clock, s'.clock);
        }
      case OpCancel(runId, reason, requester, t) =>
        CancelQuiet(e, reason, requester, t);
        QuietLater(e, Cancel(e, reason, requester, t), t, s'.clock);
      case OpNote(runId, subject, id) => NoteQuiet(e, subject, id, s'.clock);
      case OpReconcile(now, _, overdue, abandoned, ids, _) =>
        ReconcileQuiet(s, op, s', r);
      case _ =>
    }
  }

  lemma NoteQuiet(e: Entry, subject: Subject, id: string, now: Time)
    ensures Quiet(e, Append(e, EvRecorded(subject, id)), now)
  {
    hide Terminals, Started, LogShape;
  }

  lemma OnlyRenewRenews(e: Entry, attemptId: string, lease: string, call: Call)
    ensures Apply(e, attemptId, lease, call).1.Renewed? ==> call.Renew?
  {
    hide Terminals, Started, LogShape, LogSound, HistorySound, Expire, FinalizeCancel;
  }

  lemma ReconcileQuiet(s: State, op: Op, s': State, r: string)
    requires Inv(s) && op.OpReconcile? && Next(s, op, s') && r in s.entries
    ensures r in s'.entries && Quiet(s.entries[r], s'.entries[r], s'.clock)
  {
    hide Inv, Sound, Cancel, Recover, Fresh, Retries, Abandoned, Overdue, Quiet;
    var e := s.entries[r];
    SoundAt(s, r);
    var mid := CancelAll(s.entries, op.overdue, op.now)[r];
    CancelKeeps(e, "run timeout exceeded", "relay", op.now);
    CancelQuiet(e, "run timeout exceeded", "relay", op.now);
    StayQuiet(e, op.now);
    StayQuiet(mid, op.now);
    StayKeeps(e);
    assert Sound(mid);
    if r in op.abandoned {
      assert Abandoned(mid, op.now);
      RecoverQuiet(mid, op.now, if r in op.ids then op.ids[r] else "");
    }
    QuietTransitive(e, mid, s'.entries[r], op.now);
    QuietLater(e, s'.entries[r], op.now, s'.clock);
  }

  lemma QuietTransitive(a: Entry, b: Entry, c: Entry, now: Time)
    requires Quiet(a, b, now) && Quiet(b, c, now)
    ensures Quiet(a, c, now)
  {
  }

  // ------------------------------------------------------------------ windows

  lemma GrantWindow(s: State, op: Op, s': State, windows: seq<Window>, r: string)
    requires Inv(s) && Next(s, op, s') && WindowInv(s, windows, r) && Grants(op, r)
    ensures WindowInv(s', Observe(windows, op, r), r)
  {
    hide Inv, Sound, Sweep, Grant, Fresh, Claimable, LiveOn, Next;
    GrantSwept(s, op, s', r);
    SoundAt(s, r);
    GrantedRun(s, op, s', r);
    SweepQuiet(s.entries[r], op.t);
    QuietTracks(windows, s.entries[r], Sweep(s.entries[r], op.t), op.t, s.clock, op.t);
    assert op.reply.value.leaseExpiresAt == op.t + op.ttl;
  }

  lemma GrantSwept(s: State, op: Op, s': State, r: string)
    requires Next(s, op, s') && Grants(op, r)
    ensures r in s.entries && Sweep(s.entries[r], op.t).run.attempt.status == AttemptQueued
    ensures s.clock <= op.t <= s'.clock && s'.issued == s.issued + {op.reply.value.lease}
  {
    hide Sweep, Grant, Fresh, LiveOn;
  }

  lemma RenewWindow(s: State, op: Op, s': State, windows: seq<Window>, r: string)
    requires Inv(s) && Next(s, op, s') && WindowInv(s, windows, r) && Renews(op, r)
    ensures WindowInv(s', Observe(windows, op, r), r)
  {
    hide Inv, Sound, Apply;
    RenewalMoves(s.entries[r], op.attemptId, op.lease, op.call, s.clock, s'.clock);
    OrderedTimes(s.clock, op.call, s'.clock);
    var n := |windows| - 1;
    assert windows[n].lease == op.lease;
    var windows' := Observe(windows, op, r);
    assert windows' == windows[..n] + [windows[n].(until := op.answer.expiresAt)];
  }

  lemma QuietWindow(s: State, op: Op, s': State, windows: seq<Window>, r: string)
    requires Inv(s) && Next(s, op, s') && WindowInv(s, windows, r) && !Grants(op, r) && !Renews(op, r)
    requires s.clock <= s'.clock && s.issued <= s'.issued
    ensures WindowInv(s', Observe(windows, op, r), r)
  {
    hide Inv, Next, Quiet, Observe, Tracks, Exclusive, Grants, Renews;
    ObservesNothing(windows, op, r);
    if r in s.entries {
      NextQuiet(s, op, s', r);
      QuietTracks(windows, s.entries[r], s'.entries[r], s'.clock, s.clock, s'.clock);
    } else if r in s'.entries {
      NewRunQueued(s, op, s', r);
      NewTracks(s'.entries[r], s'.clock);
    }
  }

  lemma NewTracks(e: Entry, clock: Time)
    requires e.run.attempt.status == AttemptQueued
    ensures Tracks([], e, clock)
  {
  }

  lemma ObservesNothing(windows: seq<Window>, op: Op, r: string)
    requires !Grants(op, r) && !Renews(op, r)
    ensures Observe(windows, op, r) == windows
  {
  }

  lemma NewRunQueued(s: State, op: Op, s': State, r: string)
    requires Next(s, op, s') && r !in s.entries && r in s'.entries
    ensures s'.entries[r].run.attempt.status == AttemptQueued
  {
    hide Sweep, Cancel, Recover, Apply, Grant, Fresh, Retries, Abandoned, Overdue, Claimable, LiveOn, Terminals, Started, LogShape;
  }

  lemma {:induction false} WindowsTrack(tr: Trace, n: nat, r: string)
    requires IsTrace(tr) && n <= |tr.ops|
    ensures WindowInv(tr.states[n], Windows(tr.ops[..n], r), r)
  {
    hide Inv, Next, WindowInv, Observe, Advances;
    if n == 0 {
      NoWindows(tr.states[0], r);
    } else {
      var m := n - 1;
      WindowsTrack(tr, m, r);
      Reachable(tr, m);
      NextKeeps(tr.states[m], tr.ops[m], tr.states[n]);
      ClockAdvances(tr.states[m], tr.states[n]);
      assert tr.ops[..n][..m] == tr.ops[..m];
      var windows := Windows(tr.ops[..m], r);
      if Grants(tr.ops[m], r) {
        GrantWindow(tr.states[m], tr.ops[m], tr.states[n], windows, r);
      } else if Renews(tr.ops[m], r) {
        RenewWindow(tr.states[m], tr.ops[m], tr.states[n], windows, r);
      } else {
        QuietWindow(tr.states[m], tr.ops[m], tr.states[n], windows, r);
      }
    }
  }

  lemma NoWindows(s: State, r: string)
    requires Init(s)
    ensures WindowInv(s, [], r)
  {
  }

  lemma ClockAdvances(s: State, s': State)
    requires Advances(s, s')
    ensures s.clock <= s'.clock && s.issued <= s'.issued
  {
    hide EntryStep;
  }

  /** In every run of the control plane, two leases of one run never overlap and never share a token. */
  lemma LeasesNeverOverlap(tr: Trace, r: string)
    requires IsTrace(tr)
    ensures Exclusive(Windows(tr.ops, r))
  {
    WindowsTrack(tr, |tr.ops|, r);
    assert tr.ops[..|tr.ops|] == tr.ops;
    hide Exclusive, IsTrace, Windows;
  }

  /** A call that moves a run is made inside the window of the run's last lease. */
  lemma ActsInsideWindow(tr: Trace, i: nat, r: string)
    requires IsTrace(tr) && i < |tr.ops|
    requires tr.ops[i].OpCall? && tr.ops[i].runId == r && r in tr.states[i].entries
    requires tr.ops[i].answer.Done? || tr.ops[i].answer.Renewed?
    requires Live(tr.states[i].entries[r])
    ensures var windows := Windows(tr.ops[..i], r);
      |windows| > 0 && tr.ops[i].lease == windows[|windows| - 1].lease && tr.ops[i].call.t1 < windows[|windows| - 1].until
  {
    WindowsTrack(tr, i, r);
    var e := tr.states[i].entries[r];
    assert Next(tr.states[i], tr.ops[i], tr.states[i + 1]);
    hide IsTrace, Windows, Exclusive, Inv;
    AcceptedInTime(e, tr.ops[i].attemptId, tr.ops[i].lease, tr.ops[i].call);
  }

  lemma AcceptedInTime(e: Entry, attemptId: string, lease: string, call: Call)
    requires Live(e) && !Apply(e, attemptId, lease, call).1.Refused?
    ensures e.run.attempt.lease == lease && !LeaseOver(e.run.attempt, call.t1)
  {
    hide Expire, ApplyAuthorized, FinalizeCancel, Succeed, Break;
  }
}

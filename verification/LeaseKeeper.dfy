/** The renewal loop of a node: what it believes about its lease is never more than the control plane granted. */
module LeaseKeeper {
  import opened Types
  import opened RunProtocol
  import opened RunInvariants
  import opened Protocol
  import opened Behaviours
  import opened Leases
  import opened EmitOrder
  import opened World
  import opened Outbox
  import opened Cancellation

  datatype KeeperEnd = Stopped | LeaseLost | CancelledBy(reason: string)

  /** Go divides a positive duration by truncating. Two thirds of what remains are left after the wait, except where
      less than thirty milliseconds remain; and the wait is no shorter than that, or five seconds, requires. */
  function Wait(remaining: Time): (wait: Time)
    requires remaining > 0
    ensures 10 * MILLISECOND <= wait <= 5 * SECOND
    ensures 30 * MILLISECOND <= remaining ==> 3 * wait <= remaining
    ensures remaining < 30 * MILLISECOND ==> wait == 10 * MILLISECOND
    ensures wait == 5 * SECOND || remaining < 3 * (wait + 1)
  {
    var third := remaining / 3;
    var capped := if third > 5 * SECOND then 5 * SECOND else third;
    if capped < 10 * MILLISECOND then 10 * MILLISECOND else capped
  }

  /** In the history `ops`, the lease was granted and its window reaches `deadline` at least. */
  ghost predicate Believes(ops: seq<Op>, r: string, lease: string, deadline: Time) {
    exists i :: WindowReaches(Windows(ops, r), i, lease, deadline)
  }

  predicate WindowReaches(windows: seq<Window>, i: int, lease: string, deadline: Time) {
    0 <= i < |windows| && windows[i].lease == lease && deadline <= windows[i].until
  }

  // ------------------------------------------------------------------ windows only grow

  /** Every window ends at most one lease duration after the present. */
  ghost predicate WithinTTL(windows: seq<Window>, clock: Time, ttl: Time) {
    forall i :: 0 <= i < |windows| ==> windows[i].until <= clock + ttl
  }

  ghost predicate Grew(windows: seq<Window>, windows': seq<Window>) {
    && |windows| <= |windows'|
    && forall i :: 0 <= i < |windows| ==>
         windows'[i].lease == windows[i].lease && windows'[i].from == windows[i].from && windows[i].until <= windows'[i].until
  }

  lemma ObserveGrows(s: State, op: Op, s': State, windows: seq<Window>, r: string, ttl: Time)
    requires Inv(s) && Next(s, op, s') && s.clock <= s'.clock && UsesTTL(op, ttl) && WithinTTL(windows, s.clock, ttl)
    ensures Grew(windows, Observe(windows, op, r)) && WithinTTL(Observe(windows, op, r), s'.clock, ttl)
  {
    hide Inv, Apply, Sweep, Fresh, Claimable, LiveOn, Grant;
    if Renews(op, r) {
      RenewedTime(s, op, s');
    }
  }

  lemma RenewedTime(s: State, op: Op, s': State)
    requires Next(s, op, s') && op.OpCall? && op.call.Renew? && op.answer.Renewed?
    ensures s.clock <= op.call.t1 <= op.call.t2 <= s'.clock && op.answer.expiresAt == op.call.t2 + op.call.ttl
  {
    hide Apply;
    RenewalMoves(s.entries[op.runId], op.attemptId, op.lease, op.call, s.clock, s'.clock);
  }

  lemma {:induction false} WindowsWithinTTL(tr: Trace, ttl: Time, n: nat, r: string)
    requires IsTrace(tr) && n <= |tr.ops| && forall k :: 0 <= k < |tr.ops| ==> UsesTTL(tr.ops[k], ttl)
    ensures WithinTTL(Windows(tr.ops[..n], r), tr.states[n].clock, ttl)
    ensures n > 0 ==> Grew(Windows(tr.ops[..n - 1], r), Windows(tr.ops[..n], r))
  {
    hide Inv, Next, WithinTTL, Grew, Observe, Advances, UsesTTL;
    if n == 0 {
      NoWindow(tr.states[0].clock, ttl);
    } else {
      var m := n - 1;
      WindowsWithinTTL(tr, ttl, m, r);
      Reachable(tr, m);
      NextKeeps(tr.states[m], tr.ops[m], tr.states[n]);
      ClockAdvances(tr.states[m], tr.states[n]);
      assert tr.ops[..n][..m] == tr.ops[..m];
      ObserveGrows(tr.states[m], tr.ops[m], tr.states[n], Windows(tr.ops[..m], r), r, ttl);
    }
  }

  lemma NoWindow(clock: Time, ttl: Time)
    ensures WithinTTL([], clock, ttl)
  {
  }

  lemma {:induction false} WindowsGrow(tr: Trace, ttl: Time, m: nat, n: nat, r: string)
    requires IsTrace(tr) && m <= n <= |tr.ops| && forall k :: 0 <= k < |tr.ops| ==> UsesTTL(tr.ops[k], ttl)
    ensures Grew(Windows(tr.ops[..m], r), Windows(tr.ops[..n], r))
    decreases n - m
  {
    hide IsTrace, UsesTTL, Windows;
    if m < n {
      WindowsGrow(tr, ttl, m, n - 1, r);
      WindowsWithinTTL(tr, ttl, n, r);
    }
  }

  /** A belief that was true stays true. */
  lemma BelievesStays(tr: Trace, tr': Trace, ttl: Time, r: string, lease: string, deadline: Time)
    requires Extends(tr, tr') && Running(tr', ttl) && Believes(tr.ops, r, lease, deadline)
    ensures Believes(tr'.ops, r, lease, deadline)
  {
    hide IsTrace, UsesTTL, Windows;
    var i :| WindowReaches(Windows(tr.ops, r), i, lease, deadline);
    assert tr'.ops[..|tr.ops|] == tr.ops && tr'.ops[..|tr'.ops|] == tr'.ops;
    WindowsGrow(tr', ttl, |tr.ops|, |tr'.ops|, r);
    assert WindowReaches(Windows(tr'.ops, r), i, lease, deadline);
  }

  /** The answer to a claim or a renewal is a true belief from then on. */
  lemma ToldExpiry(tr: Trace, ttl: Time, k: int, r: string, lease: string, deadline: Time)
    requires Running(tr, ttl) && 0 <= k < |tr.ops|
    requires (Grants(tr.ops[k], r) && tr.ops[k].reply.value.lease == lease && tr.ops[k].reply.value.leaseExpiresAt == deadline)
             || (Renews(tr.ops[k], r) && tr.ops[k].lease == lease && tr.ops[k].answer.expiresAt == deadline)
    ensures Believes(tr.ops, r, lease, deadline)
  {
    hide IsTrace, UsesTTL, Next, Inv, WindowInv;
    RunningTrace(tr, ttl);
    StepOf(tr, k);
    var windows := Windows(tr.ops[..k], r);
    var upto := Trace(tr.states[..k + 2], tr.ops[..k + 1]);
    assert tr.ops[..k + 1][..k] == tr.ops[..k];
    if Grants(tr.ops[k], r) {
      assert WindowReaches(Windows(upto.ops, r), |windows|, lease, deadline);
    } else {
      WindowsTrack(tr, k, r);
      Reachable(tr, k);
      RenewedWindow(tr.states[k], tr.ops[k], tr.states[k + 1], windows, r);
      assert WindowReaches(Windows(upto.ops, r), |windows| - 1, lease, deadline);
    }
    BelievesStays(upto, tr, ttl, r, lease, deadline);
  }

  lemma RenewedWindow(s: State, op: Op, s': State, windows: seq<Window>, r: string)
    requires Inv(s) && Next(s, op, s') && WindowInv(s, windows, r) && Renews(op, r)
    ensures |windows| > 0 && windows[|windows| - 1].lease == op.lease
  {
    hide Inv, Apply;
    RenewalMoves(s.entries[r], op.attemptId, op.lease, op.call, s.clock, s'.clock);
  }

  lemma {:induction false} GrantHasWindow(tr: Trace, ttl: Time, k: nat, n: nat, r: string)
    requires Running(tr, ttl) && k < n <= |tr.ops| && Grants(tr.ops[k], r)
    ensures var i := |Windows(tr.ops[..k], r)|; var windows := Windows(tr.ops[..n], r);
      i < |windows| && windows[i].lease == tr.ops[k].reply.value.lease && windows[i].from == tr.ops[k].t
  {
    hide IsTrace, UsesTTL;
    assert tr.ops[..k + 1][..k] == tr.ops[..k];
    WindowsGrow(tr, ttl, k + 1, n, r);
  }

  /** While a node believes in its lease, the run is not handed to anybody else: any other claim of it
      came before the lease, or comes after the deadline the node goes by. */
  lemma NoRivalBeforeDeadline(tr: Trace, ttl: Time, claim: nat, k: nat, r: string, lease: string, deadline: Time)
    requires Running(tr, ttl) && claim < k < |tr.ops| && Grants(tr.ops[claim], r) && Grants(tr.ops[k], r)
    requires tr.ops[claim].reply.value.lease == lease && Believes(tr.ops, r, lease, deadline)
    ensures tr.ops[k].reply.value.lease != lease && deadline <= tr.ops[k].t
  {
    hide Running, Windows, IsTrace, Exclusive;
    RunningTrace(tr, ttl);
    LeasesNeverOverlap(tr, r);
    var n := |tr.ops|;
    assert tr.ops[..n] == tr.ops;
    GrantHasWindow(tr, ttl, claim, n, r);
    GrantHasWindow(tr, ttl, k, n, r);
    ClaimBefore(tr, ttl, claim, k, r);
    RivalAfter(Windows(tr.ops, r), |Windows(tr.ops[..claim], r)|, |Windows(tr.ops[..k], r)|, lease, deadline);
  }

  lemma ClaimBefore(tr: Trace, ttl: Time, claim: nat, k: nat, r: string)
    requires Running(tr, ttl) && claim < k < |tr.ops| && Grants(tr.ops[claim], r)
    ensures |Windows(tr.ops[..claim], r)| < |Windows(tr.ops[..k], r)|
  {
    hide Running, Windows;
    GrantHasWindow(tr, ttl, claim, k, r);
  }

  lemma RivalAfter(windows: seq<Window>, i: nat, j: nat, lease: string, deadline: Time)
    requires Exclusive(windows) && i < j < |windows| && windows[i].lease == lease
    requires exists h :: WindowReaches(windows, h, lease, deadline)
    ensures windows[j].lease != lease && deadline <= windows[j].from
  {
    var h :| WindowReaches(windows, h, lease, deadline);
  }

  // ------------------------------------------------------------------ the loop

  predicate FinalRefusal(reply: NetReply) {
    reply == Answered(Refused(ErrInvalidLease)) || reply == Answered(Refused(ErrInvalidTransition)) || reply == Answered(Refused(ErrNotFound))
  }

  ghost predicate RenewalRefused(tr: Trace, from: int, a: Assignment, ttl: Time) {
    exists k :: from <= k < |tr.ops| && 0 <= k && tr.ops[k].OpCall? && PacketOf(tr.ops[k]) == RenewalOf(a, ttl)
                && FinalRefusal(Answered(tr.ops[k].answer))
  }

  function RenewalOf(a: Assignment, ttl: Time): Packet {
    Packet(a.runId, a.attemptId, a.lease, AskRenew(ttl))
  }

  lemma RefusedRenewalAt(tr: Trace, from: int, a: Assignment, ttl: Time, k: int, answer: Answer)
    requires from <= k < |tr.ops| && 0 <= k && Answers(tr.ops[k], RenewalOf(a, ttl), answer) && FinalRefusal(Answered(answer))
    ensures RenewalRefused(tr, from, a, ttl)
  {
  }

  /** The expiry a node goes by: the last one it was told. */
  function Told(claimed: Time, news: seq<Talk>): Time {
    if news == [] then claimed
    else
      var reply := news[|news| - 1].reply;
      if reply.Answered? && reply.answer.Renewed? then reply.answer.expiresAt else Told(claimed, news[..|news| - 1])
  }

  /** When the last renewal was over. */
  function Since(start: Time, news: seq<Talk>): Time {
    if news == [] then start else news[|news| - 1].to
  }

  /** Nothing heard so far ends the loop. */
  predicate Carefree(news: seq<Talk>) {
    news != [] ==>
      var reply := news[|news| - 1].reply;
      && reply != Answered(Refused(ErrInvalidLease)) && reply != Answered(Refused(ErrInvalidTransition))
      && reply != Answered(Refused(ErrNotFound))
      && !(reply.Answered? && reply.answer.Renewed? && reply.answer.cancelRequested)
  }

  /** Every renewal was sent a third of the way to the expiry then believed in, counted from the end of the one before. */
  ghost predicate Regular(a: Assignment, ttl: Time, start: Time, news: seq<Talk>) {
    news == [] ||
    var before, last := news[..|news| - 1], news[|news| - 1];
    && Regular(a, ttl, start, before) && Carefree(before) && last.packet == RenewalOf(a, ttl)
    && var since, told := Since(start, before), Told(a.leaseExpiresAt, before);
    since < told && last.from == since + Wait(told - since)
  }

  /** Why the loop ended: what was heard last, the expiry, or the end of the attempt before the next renewal was due. */
  ghost predicate Ended(a: Assignment, start: Time, stop: Time, news: seq<Talk>, end: KeeperEnd, now: Time) {
    var since, told := Since(start, news), Told(a.leaseExpiresAt, news);
    if Carefree(news) then
      match end
      case LeaseLost => told <= since == now
      case Stopped => (stop <= since || (since < told && stop <= since + Wait(told - since))) && now == Max(since, stop)
      case CancelledBy(_) => false
    else
      var reply := news[|news| - 1].reply;
      && now == since
      && (reply.answer.Renewed? ==> end == CancelledBy(reply.answer.reason))
      && (reply.answer.Refused? ==> end == if stop <= now then Stopped else LeaseLost)
  }

  /** One renewal: an answer that extends the lease is believed, one that speaks of cancellation is true. */
  method RenewOnce(w: World, a: Assignment, ghost claim: nat, deadline: Time, until: Time) returns (reply: NetReply)
    requires w.Valid() && Believes(w.tr.ops, a.runId, a.lease, deadline) && deadline <= w.Clock() + w.ttl
    requires claim < |w.tr.ops|
    modifies w
    ensures w.Valid() && Drifts(old(w.Told()), w.Told(), "")
    ensures claim < |w.tr.ops| && w.tr.ops[claim] == old(w.tr.ops[claim])
    ensures Believes(w.tr.ops, a.runId, a.lease, deadline)
    ensures old(w.Clock()) <= w.Clock() <= Max(old(w.Clock()), until)
    ensures w.talks == old(w.talks) + [Talk(RenewalOf(a, w.ttl), old(w.Clock()), reply, w.Clock())]
    ensures reply.Answered? && reply.answer.Renewed? ==>
              Believes(w.tr.ops, a.runId, a.lease, reply.answer.expiresAt)
              && deadline <= reply.answer.expiresAt <= w.Clock() + w.ttl
    ensures reply.Answered? && reply.answer.Renewed? && reply.answer.cancelRequested ==>
              CancelRecorded(w.tr, a.runId) && Last(w.tr).entries[a.runId].run.cancelReason == reply.answer.reason
    ensures FinalRefusal(reply) ==> RenewalRefused(w.tr, |old(w.tr).ops|, a, w.ttl)
  {
    hide Running, Safe, AllSafe, Drifts, Moves, Believes, RenewalRefused, Answers, PacketOf, AskOf;
    ghost var before := w.Told();
    ghost var at;
    reply, at := w.Exchange("", RenewalOf(a, w.ttl), until);
    BeliefDrifts(before, w.Told(), w.ttl, a, deadline);
    DriftKeepsOp(before, w.Told(), "", claim);
    if reply.Answered? && reply.answer.Renewed? {
      RenewedExpiry(w.tr, w.ttl, at, a, reply.answer);
      if reply.answer.cancelRequested { CancelIsTrue(w.tr, w.ttl, at); }
    }
    if FinalRefusal(reply) { RefusedRenewalAt(w.tr, |before.now.tr.ops|, a, w.ttl, at, reply.answer); }
  }

  lemma RefusedSince(tr: Trace, from: int, later: int, a: Assignment, ttl: Time)
    requires RenewalRefused(tr, later, a, ttl) && from <= later
    ensures RenewalRefused(tr, from, a, ttl)
  {
    hide PacketOf;
  }

  /** Renews until told to stop; on every other way out execution was cancelled no later than
      ten milliseconds after the deadline the node believed in. Meanwhile anything may happen, reports and
      events under the very lease included. */
  method KeepLease(w: World, a: Assignment, claim: nat, stop: Time) returns (end: KeeperEnd, deadline: Time)
    requires w.Valid() && claim < |w.tr.ops| && Grants(w.tr.ops[claim], a.runId) && w.tr.ops[claim].reply.value == a
    modifies w
    ensures w.Valid() && Drifts(old(w.Told()), w.Told(), "")
    ensures a.leaseExpiresAt <= deadline && Believes(w.tr.ops, a.runId, a.lease, deadline)
    ensures w.Clock() <= Max(old(w.Clock()), deadline + 10 * MILLISECOND)
    ensures end.Stopped? ==> stop <= w.Clock()
    ensures end.LeaseLost? ==> deadline <= w.Clock() || RenewalRefused(w.tr, |old(w.tr).ops|, a, w.ttl)
    ensures end.CancelledBy? ==>
              CancelRecorded(w.tr, a.runId) && Last(w.tr).entries[a.runId].run.cancelReason == end.reason
    ensures forall k :: claim < k < |w.tr.ops| && Grants(w.tr.ops[k], a.runId) ==>
              deadline <= w.tr.ops[k].t && w.tr.ops[k].reply.value.lease != a.lease
    ensures old(w.talks) <= w.talks && deadline == Told(a.leaseExpiresAt, News(old(w.talks), w.talks))
    ensures Regular(a, w.ttl, old(w.Clock()), News(old(w.talks), w.talks))
    ensures Ended(a, old(w.Clock()), stop, News(old(w.talks), w.talks), end, w.Clock())
  {
    hide Running, Safe, AllSafe, Drifts, Moves, Believes, CancelRecorded, Grants, RenewalRefused, Answers, PacketOf, AskOf,
         Regular, Ended, Told, News, Keeps, Kept, Wait, FinalRefusal;
    deadline := a.leaseExpiresAt;
    SelfDrift(w.Told(), "");
    ClaimedExpiry(w.tr, w.ttl, claim, a);
    NoRenewalYet(a, w.ttl, w.talks, w.Clock());
    while true
      invariant w.Valid() && Drifts(old(w.Told()), w.Told(), "")
      invariant claim < |w.tr.ops| && w.tr.ops[claim] == old(w.tr.ops[claim])
      invariant a.leaseExpiresAt <= deadline <= w.Clock() + w.ttl && Believes(w.tr.ops, a.runId, a.lease, deadline)
      invariant old(w.Clock()) <= w.Clock() <= Max(old(w.Clock()), deadline + 10 * MILLISECOND)
      invariant old(w.talks) <= w.talks && Keeps(a, w.ttl, old(w.Clock()), News(old(w.talks), w.talks), deadline, w.Clock())
      decreases stop - w.Clock()
    {
      var remaining := deadline - w.Clock();
      if remaining <= 0 {
        end := LeaseLost;
        Expired(a, w.ttl, old(w.Clock()), stop, News(old(w.talks), w.talks), deadline, w.Clock());
        break;
      }
      ghost var before, said, since := w.Told(), w.talks, w.Clock();
      var due := w.Clock() + Wait(remaining);
      w.WaitUntil("", Min(due, stop));
      DriftsTransitive(old(w.Told()), before, w.Told(), "");
      BeliefDrifts(before, w.Told(), w.ttl, a, deadline);
      end := Stopped;
      if stop <= due { StoppedEarly(a, w.ttl, old(w.Clock()), stop, News(old(w.talks), w.talks), deadline, since, w.Clock()); }
      if stop < due { break; }
      if stop == due {
        if * { break; }
      }
      before := w.Told();
      var reply := RenewOnce(w, a, claim, deadline, Min(deadline, stop));
      DriftsTransitive(old(w.Told()), before, w.Told(), "");
      OneRenewal(a, w.ttl, old(w.talks), said, w.talks[|said|], old(w.Clock()), since, stop, deadline);
      if reply.Answered? && reply.answer.Renewed? {
        deadline := reply.answer.expiresAt;
        if reply.answer.cancelRequested {
          end := CancelledBy(reply.answer.reason);
          break;
        }
      } else {
        ExtendsOps(old(w.Told()), before, "");
        if FinalRefusal(reply) { RefusedSince(w.tr, |old(w.tr).ops|, |before.now.tr.ops|, a, w.ttl); }
        if stop <= w.Clock() {
          if !FinalRefusal(reply) {
            StoppedEarly(a, w.ttl, old(w.Clock()), stop, News(old(w.talks), w.talks), deadline, w.Clock(), w.Clock());
          }
          break;
        }
        end := LeaseLost;
        if FinalRefusal(reply) { break; }
        if deadline <= w.Clock() {
          Expired(a, w.ttl, old(w.Clock()), stop, News(old(w.talks), w.talks), deadline, w.Clock());
          break;
        }
      }
    }
    NoRivals(w.tr, w.ttl, claim, a, deadline);
    KeptMeans(a, w.ttl, old(w.Clock()), stop, News(old(w.talks), w.talks), end, deadline, w.Clock());
  }

  /** The renewals so far were regular, the last of them is over, and `deadline` is what they told. */
  ghost predicate Keeps(a: Assignment, ttl: Time, start: Time, news: seq<Talk>, deadline: Time, now: Time) {
    Regular(a, ttl, start, news) && Carefree(news) && deadline == Told(a.leaseExpiresAt, news) && now == Since(start, news)
  }

  ghost predicate Kept(a: Assignment, ttl: Time, start: Time, stop: Time, news: seq<Talk>, end: KeeperEnd, deadline: Time, now: Time) {
    Regular(a, ttl, start, news) && deadline == Told(a.leaseExpiresAt, news) && Ended(a, start, stop, news, end, now)
  }

  lemma NoRenewalYet(a: Assignment, ttl: Time, talks: seq<Talk>, now: Time)
    ensures Keeps(a, ttl, now, News(talks, talks), a.leaseExpiresAt, now)
  {
  }

  lemma Expired(a: Assignment, ttl: Time, start: Time, stop: Time, news: seq<Talk>, deadline: Time, now: Time)
    requires Keeps(a, ttl, start, news, deadline, now) && deadline <= now
    ensures Kept(a, ttl, start, stop, news, LeaseLost, deadline, now)
  {
    hide Regular, Told, Since, Carefree;
  }

  lemma StoppedEarly(a: Assignment, ttl: Time, start: Time, stop: Time, news: seq<Talk>, deadline: Time, since: Time, now: Time)
    requires Keeps(a, ttl, start, news, deadline, since) && now == Max(since, stop)
    requires stop <= since || (since < deadline && stop <= since + Wait(deadline - since))
    ensures Kept(a, ttl, start, stop, news, Stopped, deadline, now)
  {
    hide Regular, Told, Since, Carefree;
  }

  lemma OneRenewal(a: Assignment, ttl: Time, before: seq<Talk>, said: seq<Talk>, talk: Talk, start: Time, since: Time, stop: Time,
                   deadline: Time)
    requires before <= said && Keeps(a, ttl, start, News(before, said), deadline, since)
    requires since < deadline && talk.from == since + Wait(deadline - since) && talk.packet == RenewalOf(a, ttl)
    ensures before <= said + [talk]
    ensures var news, reply := News(before, said + [talk]), talk.reply;
      if reply.Answered? && reply.answer.Renewed? then
        if reply.answer.cancelRequested
        then Kept(a, ttl, start, stop, news, CancelledBy(reply.answer.reason), reply.answer.expiresAt, talk.to)
        else Keeps(a, ttl, start, news, reply.answer.expiresAt, talk.to)
      else if FinalRefusal(reply)
      then Kept(a, ttl, start, stop, news, if stop <= talk.to then Stopped else LeaseLost, deadline, talk.to)
      else Keeps(a, ttl, start, news, deadline, talk.to)
  {
    hide Wait;
    var news := News(before, said);
    assert News(before, said + [talk]) == news + [talk];
    assert (news + [talk])[..|news|] == news;
  }

  lemma KeptMeans(a: Assignment, ttl: Time, start: Time, stop: Time, news: seq<Talk>, end: KeeperEnd, deadline: Time, now: Time)
    requires Kept(a, ttl, start, stop, news, end, deadline, now)
    ensures Regular(a, ttl, start, news) && deadline == Told(a.leaseExpiresAt, news) && Ended(a, start, stop, news, end, now)
  {
    hide Regular, Ended;
  }

  lemma NoRivals(tr: Trace, ttl: Time, claim: nat, a: Assignment, deadline: Time)
    requires Running(tr, ttl) && claim < |tr.ops| && Grants(tr.ops[claim], a.runId) && tr.ops[claim].reply.value == a
    requires Believes(tr.ops, a.runId, a.lease, deadline)
    ensures forall k :: claim < k < |tr.ops| && Grants(tr.ops[k], a.runId) ==>
              deadline <= tr.ops[k].t && tr.ops[k].reply.value.lease != a.lease
  {
    hide Running, Believes;
    forall k | claim < k < |tr.ops| && Grants(tr.ops[k], a.runId)
      ensures deadline <= tr.ops[k].t && tr.ops[k].reply.value.lease != a.lease
    {
      NoRivalBeforeDeadline(tr, ttl, claim, k, a.runId, a.lease, deadline);
    }
  }

  lemma BeliefDrifts(s: Story, s': Story, ttl: Time, a: Assignment, deadline: Time)
    requires Drifts(s, s', "") && Running(s'.now.tr, ttl) && Believes(s.now.tr.ops, a.runId, a.lease, deadline)
    ensures Believes(s'.now.tr.ops, a.runId, a.lease, deadline)
    ensures forall k :: 0 <= k < |s.now.tr.ops| ==> k < |s'.now.tr.ops| && s'.now.tr.ops[k] == s.now.tr.ops[k]
  {
    hide Running, Believes, Permitted;
    BelievesStays(s.now.tr, s'.now.tr, ttl, a.runId, a.lease, deadline);
  }

  lemma ClaimedExpiry(tr: Trace, ttl: Time, claim: nat, a: Assignment)
    requires Running(tr, ttl) && claim < |tr.ops| && Grants(tr.ops[claim], a.runId) && tr.ops[claim].reply.value == a
    ensures Believes(tr.ops, a.runId, a.lease, a.leaseExpiresAt) && |tr.states| > 0
    ensures a.leaseExpiresAt <= Last(tr).clock + ttl
  {
    hide Believes, IsTrace, Next, Advances;
    ToldExpiry(tr, ttl, claim, a.runId, a.lease, a.leaseExpiresAt);
    RunningTrace(tr, ttl);
    StepOf(tr, claim);
    Between(tr, claim + 1, |tr.states| - 1);
    ClockAdvances(tr.states[claim + 1], Last(tr));
    GrantExpiry(tr.states[claim], tr.ops[claim], tr.states[claim + 1], a.runId);
  }

  lemma GrantExpiry(s: State, op: Op, s': State, r: string)
    requires Next(s, op, s') && Grants(op, r)
    ensures op.reply.value.leaseExpiresAt == op.t + op.ttl && op.t <= s'.clock
  {
    hide Sweep, LiveOn, Claimable, Fresh, Grant;
  }

  lemma RenewedExpiry(tr: Trace, ttl: Time, at: int, a: Assignment, answer: Answer)
    requires Running(tr, ttl) && 0 <= at < |tr.ops| && answer.Renewed?
    requires Answers(tr.ops[at], RenewalOf(a, ttl), answer)
    ensures Believes(tr.ops, a.runId, a.lease, answer.expiresAt) && |tr.states| > 0
    ensures tr.ops[at].OpCall? && tr.ops[at].runId == a.runId && tr.ops[at].answer == answer
    ensures tr.ops[at].call.t1 + ttl <= answer.expiresAt <= Last(tr).clock + ttl
  {
    hide Running, Believes, IsTrace, Next, Advances;
    ToldExpiry(tr, ttl, at, a.runId, a.lease, answer.expiresAt);
    RunningTrace(tr, ttl);
    StepOf(tr, at);
    Between(tr, at + 1, |tr.states| - 1);
    ClockAdvances(tr.states[at + 1], Last(tr));
    RenewedTime(tr.states[at], tr.ops[at], tr.states[at + 1]);
  }
}

/** The control plane as a state machine: every storage operation is one step. */
module Protocol {
  import opened Types
  import opened Identity
  import opened RunProtocol
  import opened RunInvariants

  /** `issued` holds every identifier and lease token handed out so far. */
  datatype State = State(
    clock: Time, nodes: map<string, Registration>, entries: map<string, Entry>,
    index: map<string, string>, issued: set<string>)

  /** A step with its arguments, the choices it made, and its answer. */
  datatype Op =
    | OpRegister(registration: Registration)
    | OpSubmit(request: Request, runId: string, attemptId: string, t: Time)
    | OpClaim(nodeId: string, ttl: Time, t: Time, reply: Reply<Assignment>)
    | OpCall(runId: string, attemptId: string, lease: string, call: Call, answer: Answer)
    | OpCancel(runId: string, reason: string, requester: string, t: Time)
    | OpNote(runId: string, subject: Subject, id: string)
    | OpReconcile(now: Time, limit: int, overdue: set<string>, abandoned: set<string>, ids: map<string, string>, count: int)
    | OpRead

  predicate Fresh(issued: set<string>, id: string) {
    id != "" && NulFree(id) && id !in issued
  }

  /** Some identifier is always left to issue. */
  lemma FreshExists(issued: set<string>)
    ensures exists id :: Fresh(issued, id)
  {
    var n := Longest(issued);
    var id := seq(n + 1, i => 'x');
    assert |id| == n + 1 && NulFree(id);
    assert Fresh(issued, id);
  }

  ghost function Longest(texts: set<string>): (n: nat)
    ensures forall x :: x in texts ==> |x| <= n
  {
    if texts == {} then 0
    else
      var x :| x in texts;
      var m := Longest(texts - {x});
      if |x| > m then |x| else m
  }

  /** The runs whose current attempt occupies a node. */
  function LiveOn(entries: map<string, Entry>, nodeId: string): set<string> {
    set r | r in entries && Live(entries[r]) && entries[r].run.attempt.nodeId == nodeId
  }

  function SweepAll(entries: map<string, Entry>, t: Time): map<string, Entry> {
    map r | r in entries :: Sweep(entries[r], t)
  }

  function CancelAll(entries: map<string, Entry>, runs: set<string>, now: Time): map<string, Entry> {
    map r | r in entries :: if r in runs then CancelOverdue(entries[r], now) else entries[r]
  }

  function RecoverAll(entries: map<string, Entry>, runs: set<string>, ids: map<string, string>, now: Time): map<string, Entry> {
    map r | r in entries :: if r in runs then Recover(entries[r], now, if r in ids then ids[r] else "") else entries[r]
  }

  function OverdueRuns(entries: map<string, Entry>, now: Time): set<string> {
    set r | r in entries && Overdue(entries[r], now)
  }

  function AbandonedRuns(entries: map<string, Entry>, now: Time): set<string> {
    set r | r in entries && Abandoned(entries[r], now)
  }

  function Min(a: int, b: int): int { if a < b then a else b }

  ghost predicate SubmitStep(s: State, request: Request, runId: string, attemptId: string, t: Time, s': State) {
    var scope := SubmitScope(request);
    && s.clock <= t <= s'.clock
    && if scope in s.index then runId == s.index[scope] && s' == s.(clock := s'.clock)
       else
         && Fresh(s.issued, runId) && Fresh(s.issued + {runId}, attemptId)
         && s' == s.(clock := s'.clock, entries := s.entries[runId := NewEntry(request, runId, attemptId, t)],
                     index := s.index[scope := runId], issued := s.issued + {runId, attemptId})
  }

  ghost predicate ClaimStep(s: State, nodeId: string, ttl: Time, t: Time, reply: Reply<Assignment>, s': State) {
    && s.clock <= t <= s'.clock
    && if nodeId !in s.nodes then reply == Rejected(ErrNotFound) && s' == s.(clock := s'.clock)
       else if |LiveOn(s.entries, nodeId)| >= s.nodes[nodeId].capacity then
         reply == Rejected(ErrNoAssignment) && s' == s.(clock := s'.clock)
       else
         var swept := SweepAll(s.entries, t);
         match reply
         case Rejected(error) =>
           && error == ErrNoAssignment && s' == s.(clock := s'.clock, entries := swept)
           && forall r :: r in swept ==> !Claimable(swept[r], s.nodes[nodeId], t)
         case Accepted(a) =>
           && a.runId in swept && Claimable(swept[a.runId], s.nodes[nodeId], t) && Fresh(s.issued, a.lease)
           && a == Assignment(a.runId, swept[a.runId].run.attempt.id, a.lease, t + ttl, swept[a.runId].request)
           && s' == s.(clock := s'.clock, issued := s.issued + {a.lease},
                       entries := swept[a.runId := Grant(swept[a.runId], nodeId, a.lease, t + ttl)])
  }

  ghost predicate CallStep(s: State, runId: string, attemptId: string, lease: string, call: Call, answer: Answer, s': State) {
    && Ordered(s.clock, call, s'.clock)
    && if runId !in s.entries then answer == Refused(ErrNotFound) && s' == s.(clock := s'.clock)
       else
         var (e, a) := Apply(s.entries[runId], attemptId, lease, call);
         answer == a && s' == s.(clock := s'.clock, entries := s.entries[runId := e])
  }

  ghost predicate CancelStep(s: State, runId: string, reason: string, requester: string, t: Time, s': State) {
    && s.clock <= t <= s'.clock
    && if runId !in s.entries then s' == s.(clock := s'.clock)
       else s' == s.(clock := s'.clock, entries := s.entries[runId := Cancel(s.entries[runId], reason, requester, t)])
  }

  /** The limit covers both passes; which runs it cuts off is the map's iteration order. */
  ghost predicate ReconcileStep(s: State, now: Time, limit: int, overdue: set<string>, abandoned: set<string>,
                                ids: map<string, string>, count: int, s': State) {
    var room := if limit > 0 then limit else 0;
    var mid := CancelAll(s.entries, overdue, now);
    && now <= s'.clock && s.clock <= s'.clock
    && overdue <= OverdueRuns(s.entries, now) && |overdue| == Min(room, |OverdueRuns(s.entries, now)|)
    && abandoned <= AbandonedRuns(mid, now) && |abandoned| == Min(room - |overdue|, |AbandonedRuns(mid, now)|)
    && ids.Keys == (set r | r in abandoned && Retries(mid[r]))
    && (forall r :: r in ids ==> Fresh(s.issued, ids[r]))
    && (forall r, q :: r in ids && q in ids && r != q ==> ids[r] != ids[q])
    && count == |overdue| + |abandoned|
    && s' == s.(clock := s'.clock, entries := RecoverAll(mid, abandoned, ids, now), issued := s.issued + ids.Values)
  }

  ghost predicate Next(s: State, op: Op, s': State) {
    match op
    case OpRegister(registration) =>
      registration.id != "" && s.clock <= s'.clock && s' == s.(clock := s'.clock, nodes := s.nodes[registration.id := registration])
    case OpSubmit(request, runId, attemptId, t) => SubmitStep(s, request, runId, attemptId, t, s')
    case OpClaim(nodeId, ttl, t, reply) => ClaimStep(s, nodeId, ttl, t, reply, s')
    case OpCall(runId, attemptId, lease, call, answer) => CallStep(s, runId, attemptId, lease, call, answer, s')
    case OpCancel(runId, reason, requester, t) => CancelStep(s, runId, reason, requester, t, s')
    case OpNote(runId, subject, id) =>
      s.clock <= s'.clock && runId in s.entries &&
      s' == s.(clock := s'.clock, entries := s.entries[runId := Append(s.entries[runId], EvRecorded(subject, id))])
    case OpReconcile(now, limit, overdue, abandoned, ids, count) =>
      ReconcileStep(s, now, limit, overdue, abandoned, ids, count, s')
    case OpRead => s.clock <= s'.clock && s' == s.(clock := s'.clock)
  }

  // ------------------------------------------------------------------ the invariant

  ghost predicate EntryInv(s: State, r: string, e: Entry) {
    && Sound(e) && r != "" && r in s.issued && e.run.id == r
    && e.run.attempt.id in s.issued && (forall i :: 0 <= i < |e.past| ==> e.past[i].id in s.issued)
    && (e.run.attempt.lease != "" ==> e.run.attempt.lease in s.issued)
    && (Live(e) ==> e.run.attempt.nodeId in s.nodes)
  }

  /** The submit index and the runs determine each other. */
  ghost predicate IndexInv(s: State) {
    && (forall scope :: scope in s.index ==> s.index[scope] in s.entries && SubmitScope(s.entries[s.index[scope]].request) == scope)
    && (forall r :: r in s.entries ==> SubmitScope(s.entries[r].request) in s.index && s.index[SubmitScope(s.entries[r].request)] == r)
  }

  ghost predicate LeasesDistinct(s: State) {
    forall r, q :: r in s.entries && q in s.entries && r != q && s.entries[r].run.attempt.lease != "" ==>
      s.entries[r].run.attempt.lease != s.entries[q].run.attempt.lease
  }

  ghost predicate Inv(s: State) {
    && "" !in s.nodes && IndexInv(s) && LeasesDistinct(s)
    && (forall r :: r in s.entries ==> EntryInv(s, r, s.entries[r]))
  }

  ghost predicate Init(s: State) {
    s.nodes == map[] && s.entries == map[] && s.index == map[] && s.issued == {}
  }

  /** How a step may change an entry: its lease is kept, given up or new, and its names are known. */
  ghost predicate EntryStep(s: State, s': State, e: Entry, e': Entry) {
    && Keeps(e, e')
    && (e'.run.attempt.lease == e.run.attempt.lease || e'.run.attempt.lease == "" || e'.run.attempt.lease !in s.issued)
    && (e'.run.attempt.lease != "" ==> e'.run.attempt.lease in s'.issued)
    && e'.run.attempt.id in s'.issued && (forall i :: 0 <= i < |e'.past| ==> e'.past[i].id in s'.issued)
    && (Live(e') ==> e'.run.attempt.nodeId in s'.nodes)
  }

  /** What every step does to what existed before it. */
  ghost predicate Advances(s: State, s': State) {
    && s.clock <= s'.clock && s.issued <= s'.issued && s.nodes.Keys <= s'.nodes.Keys
    && s.index.Keys <= s'.index.Keys && (forall scope :: scope in s.index ==> s'.index[scope] == s.index[scope])
    && (forall r :: r in s.entries ==> r in s'.entries && EntryStep(s, s', s.entries[r], s'.entries[r]))
  }

  lemma HolderStep(s: State, s': State, r: string, e': Entry)
    requires Inv(s) && r in s.entries && Keeps(s.entries[r], e') && SameHolder(s.entries[r], e')
    requires s.issued <= s'.issued && s.nodes.Keys <= s'.nodes.Keys
    ensures EntryStep(s, s', s.entries[r], e')
  {
    hide Sound, Keeps;
    assert EntryInv(s, r, s.entries[r]);
  }

  /** A step over existing runs only, of which at most one receives a new lease. */
  ghost predicate MapStep(s: State, s': State, granted: string) {
    && s'.index == s.index && s'.entries.Keys == s.entries.Keys
    && s.clock <= s'.clock && s.issued <= s'.issued && s.nodes.Keys <= s'.nodes.Keys && "" !in s'.nodes
    && (forall r :: r in s.entries ==> EntryStep(s, s', s.entries[r], s'.entries[r]))
    && (forall r :: r in s.entries && r != granted ==> GivesNothing(s.entries[r], s'.entries[r]))
  }

  ghost predicate GivesNothing(e: Entry, e': Entry) {
    e'.run.attempt.lease == e.run.attempt.lease || e'.run.attempt.lease == ""
  }

  lemma MapEntry(s: State, s': State, granted: string, r: string)
    requires Inv(s) && MapStep(s, s', granted) && r in s.entries
    ensures EntryInv(s', r, s'.entries[r]) && s'.entries[r].request == s.entries[r].request
  {
    hide Sound, IndexInv, LeasesDistinct;
    assert EntryInv(s, r, s.entries[r]) && EntryStep(s, s', s.entries[r], s'.entries[r]);
    hide Inv, MapStep;
  }

  lemma MapLeases(s: State, s': State, granted: string)
    requires Inv(s) && MapStep(s, s', granted)
    ensures LeasesDistinct(s')
  {
    hide EntryStep, EntryInv, IndexInv;
    forall r, q | r in s'.entries && q in s'.entries && r != q && s'.entries[r].run.attempt.lease != ""
      ensures s'.entries[r].run.attempt.lease != s'.entries[q].run.attempt.lease
    {
      GrantedOrKept(s, s', granted, r);
      GrantedOrKept(s, s', granted, q);
    }
  }

  lemma MapKeeps(s: State, s': State, granted: string)
    requires Inv(s) && MapStep(s, s', granted)
    ensures Inv(s') && Advances(s, s')
  {
    hide EntryInv, LeasesDistinct, SubmitScope, EntryStep;
    forall r | r in s'.entries
      ensures EntryInv(s', r, s'.entries[r]) && s'.entries[r].request == s.entries[r].request
    {
      MapEntry(s, s', granted, r);
    }
    MapLeases(s, s', granted);
  }

  lemma GrantedOrKept(s: State, s': State, granted: string, r: string)
    requires Inv(s) && MapStep(s, s', granted) && r in s.entries
    ensures GivesNothing(s.entries[r], s'.entries[r]) || (r == granted && s'.entries[r].run.attempt.lease !in s.issued)
    ensures s.entries[r].run.attempt.lease != "" ==> s.entries[r].run.attempt.lease in s.issued
  {
    hide Sound, Keeps, IndexInv, LeasesDistinct;
    assert EntryInv(s, r, s.entries[r]) && EntryStep(s, s', s.entries[r], s'.entries[r]);
  }

  /** A step that changes one run and hands out nothing. */
  lemma PutKeeps(s: State, r: string, e': Entry, s': State)
    requires Inv(s) && r in s.entries && Keeps(s.entries[r], e') && SameHolder(s.entries[r], e')
    requires s.clock <= s'.clock && s' == s.(clock := s'.clock, entries := s.entries[r := e'])
    ensures Inv(s') && Advances(s, s')
  {
    hide Keeps, EntryStep, EntryInv, IndexInv, LeasesDistinct;
    forall q | q in s.entries
      ensures EntryStep(s, s', s.entries[q], s'.entries[q]) && GivesNothing(s.entries[q], s'.entries[q])
    {
      if q == r {
        HolderStep(s, s', r, e');
      } else {
        SameKeeps(s, s', q);
      }
    }
    MapKeeps(s, s', "");
  }

  lemma SameKeeps(s: State, s': State, r: string)
    requires Inv(s) && r in s.entries
    requires s.issued <= s'.issued && s.nodes.Keys <= s'.nodes.Keys
    ensures EntryStep(s, s', s.entries[r], s.entries[r])
  {
    assert EntryInv(s, r, s.entries[r]);
    StayKeeps(s.entries[r]);
    hide Sound, Keeps;
  }

  lemma StillKeeps(s: State, s': State)
    requires Inv(s) && s.clock <= s'.clock && s.nodes.Keys <= s'.nodes.Keys && "" !in s'.nodes
    requires s' == s.(clock := s'.clock, nodes := s'.nodes)
    ensures Inv(s') && Advances(s, s')
  {
    hide Sound, Keeps, EntryStep;
    forall q | q in s.entries
      ensures EntryStep(s, s', s.entries[q], s'.entries[q])
    {
      SameKeeps(s, s', q);
    }
    MapKeeps(s, s', "");
  }

  // ------------------------------------------------------------------ every step keeps the invariant

  lemma FreshDiffers(s: State, r: string, id: string)
    requires Inv(s) && r in s.entries && Fresh(s.issued, id)
    ensures FreshAttempt(s.entries[r], id)
  {
    hide Sound, IndexInv, LeasesDistinct, Ids;
    assert EntryInv(s, r, s.entries[r]);
    hide Inv;
  }

  lemma NewEntryFacts(request: Request, runId: string, attemptId: string, t: Time)
    ensures var e := NewEntry(request, runId, attemptId, t);
      && e.run.id == runId && e.past == [] && e.run.attempt.id == attemptId && e.run.attempt.lease == ""
      && !Live(e) && e.request == request
  {
    hide Terminals, Started, LogShape;
  }

  lemma SubmitEntries(s: State, request: Request, runId: string, attemptId: string, t: Time, s': State)
    requires Inv(s) && SubmitStep(s, request, runId, attemptId, t, s') && SubmitScope(request) !in s.index
    ensures runId !in s.entries && EntryInv(s', runId, s'.entries[runId])
    ensures forall q :: q in s.entries ==> EntryStep(s, s', s.entries[q], s'.entries[q]) && EntryInv(s', q, s'.entries[q])
  {
    hide IndexInv, LeasesDistinct, SubmitScope, NewEntry, Sound, Keeps, Live;
    NewEntryKeeps(request, runId, attemptId, t);
    NewEntryFacts(request, runId, attemptId, t);
    assert runId in s.entries ==> EntryInv(s, runId, s.entries[runId]);
    forall q | q in s.entries
      ensures EntryStep(s, s', s.entries[q], s'.entries[q]) && EntryInv(s', q, s'.entries[q])
    {
      SameKeeps(s, s', q);
      assert EntryInv(s, q, s.entries[q]);
    }
  }

  lemma SubmitIndex(s: State, request: Request, runId: string, attemptId: string, t: Time, s': State)
    requires Inv(s) && SubmitStep(s, request, runId, attemptId, t, s') && SubmitScope(request) !in s.index
    requires runId !in s.entries
    ensures IndexInv(s')
  {
    hide NewEntry, EntryInv, SubmitScope, Fresh, LeasesDistinct;
    NewEntryFacts(request, runId, attemptId, t);
    assert s'.entries[runId].request == request;
    forall q | q in s'.entries && q != runId
      ensures SubmitScope(s'.entries[q].request) in s'.index && s'.index[SubmitScope(s'.entries[q].request)] == q
    {
      assert s'.entries[q] == s.entries[q];
    }
  }

  lemma SubmitLeases(s: State, request: Request, runId: string, attemptId: string, t: Time, s': State)
    requires Inv(s) && SubmitStep(s, request, runId, attemptId, t, s') && SubmitScope(request) !in s.index
    ensures LeasesDistinct(s')
  {
    hide NewEntry, EntryInv, SubmitScope, Fresh, IndexInv;
    NewEntryFacts(request, runId, attemptId, t);
  }

  lemma SubmitKeeps(s: State, request: Request, runId: string, attemptId: string, t: Time, s': State)
    requires Inv(s) && SubmitStep(s, request, runId, attemptId, t, s')
    ensures Inv(s') && Advances(s, s')
  {
    hide NewEntry, EntryStep, SubmitScope, EntryInv, IndexInv, LeasesDistinct, Fresh;
    if SubmitScope(request) in s.index {
      StillKeeps(s, s');
    } else {
      SubmitEntries(s, request, runId, attemptId, t, s');
      SubmitIndex(s, request, runId, attemptId, t, s');
      SubmitLeases(s, request, runId, attemptId, t, s');
    }
  }

  lemma SweepAllKeeps(s: State, t: Time, s': State)
    requires Inv(s) && s.clock <= s'.clock && s' == s.(clock := s'.clock, entries := SweepAll(s.entries, t))
    ensures Inv(s') && Advances(s, s')
  {
    hide Sound, Keeps, EntryStep, EntryInv, IndexInv, LeasesDistinct, Sweep;
    forall q | q in s.entries
      ensures EntryStep(s, s', s.entries[q], s'.entries[q]) && GivesNothing(s.entries[q], s'.entries[q])
    {
      SoundAt(s, q);
      SweepKeeps(s.entries[q], t);
      SweepSameHolder(s.entries[q], t);
      HolderStep(s, s', q, s'.entries[q]);
    }
    MapKeeps(s, s', "");
  }

  lemma SoundAt(s: State, r: string)
    requires Inv(s) && r in s.entries
    ensures Sound(s.entries[r])
  {
    assert EntryInv(s, r, s.entries[r]);
  }

  lemma AdvancesTransitive(a: State, b: State, c: State)
    requires Advances(a, b) && Advances(b, c)
    ensures Advances(a, c)
  {
    hide EntryStep;
    forall r | r in a.entries
      ensures r in c.entries && EntryStep(a, c, a.entries[r], c.entries[r])
    {
      assert EntryStep(a, b, a.entries[r], b.entries[r]) && EntryStep(b, c, b.entries[r], c.entries[r]);
      EntryStepTransitive(a, b, c, a.entries[r], b.entries[r], c.entries[r]);
    }
  }

  lemma EntryStepTransitive(a: State, b: State, c: State, e: Entry, e': Entry, e'': Entry)
    requires EntryStep(a, b, e, e') && EntryStep(b, c, e', e'') && a.issued <= b.issued
    ensures EntryStep(a, c, e, e'')
  {
    hide Sound, Evolves;
    EvolvesTransitive(e, e', e'');
  }

  lemma GrantEntry(s: State, s': State, r: string, nodeId: string, lease: string, expires: Time)
    requires Inv(s) && r in s.entries && nodeId in s.nodes && Fresh(s.issued, lease)
    requires s.entries[r].run.status == RunQueued && s.entries[r].run.attempt.status == AttemptQueued
    requires s'.issued == s.issued + {lease} && s'.nodes == s.nodes
    ensures EntryStep(s, s', s.entries[r], Grant(s.entries[r], nodeId, lease, expires))
  {
    hide Sound, Keeps, Terminals, Started, LogShape, IndexInv, LeasesDistinct;
    assert EntryInv(s, r, s.entries[r]);
    GrantKeeps(s.entries[r], nodeId, lease, expires);
  }

  lemma GrantedKeeps(s: State, r: string, nodeId: string, lease: string, expires: Time, s': State)
    requires Inv(s) && r in s.entries && nodeId in s.nodes && Fresh(s.issued, lease) && s.clock <= s'.clock
    requires s.entries[r].run.status == RunQueued && s.entries[r].run.attempt.status == AttemptQueued
    requires s' == s.(clock := s'.clock, issued := s.issued + {lease},
                      entries := s.entries[r := Grant(s.entries[r], nodeId, lease, expires)])
    ensures Inv(s') && Advances(s, s')
  {
    hide EntryStep, EntryInv, IndexInv, LeasesDistinct, Grant, Fresh;
    forall q | q in s.entries
      ensures EntryStep(s, s', s.entries[q], s'.entries[q])
    {
      if q == r { GrantEntry(s, s', r, nodeId, lease, expires); } else { SameKeeps(s, s', q); }
    }
    MapKeeps(s, s', r);
  }

  lemma ClaimKeeps(s: State, nodeId: string, ttl: Time, t: Time, reply: Reply<Assignment>, s': State)
    requires Inv(s) && ClaimStep(s, nodeId, ttl, t, reply, s')
    ensures Inv(s') && Advances(s, s')
  {
    hide EntryStep, EntryInv, IndexInv, LeasesDistinct, Grant, Sweep, Inv, Advances, Fresh;
    if nodeId !in s.nodes || |LiveOn(s.entries, nodeId)| >= s.nodes[nodeId].capacity {
      StillStep(s, s');
    } else {
      var mid := s.(clock := s'.clock, entries := SweepAll(s.entries, t));
      SweepAllKeeps(s, t, mid);
      if reply.Accepted? {
        GrantedKeeps(mid, reply.value.runId, nodeId, reply.value.lease, t + ttl, s');
        AdvancesTransitive(s, mid, s');
      }
    }
  }

  lemma StillStep(s: State, s': State)
    requires Inv(s) && s.clock <= s'.clock && s' == s.(clock := s'.clock)
    ensures Inv(s') && Advances(s, s')
  {
    StillKeeps(s, s');
  }

  lemma CallKeeps(s: State, runId: string, attemptId: string, lease: string, call: Call, answer: Answer, s': State)
    requires Inv(s) && CallStep(s, runId, attemptId, lease, call, answer, s')
    ensures Inv(s') && Advances(s, s')
  {
    hide EntryStep, EntryInv, IndexInv, LeasesDistinct, Apply, Sound, Keeps, Inv, Advances;
    OrderedTimes(s.clock, call, s'.clock);
    if runId !in s.entries {
      StillStep(s, s');
    } else {
      SoundAt(s, runId);
      ApplyKeeps(s.entries[runId], attemptId, lease, call);
      ApplySameHolder(s.entries[runId], attemptId, lease, call);
      PutKeeps(s, runId, Apply(s.entries[runId], attemptId, lease, call).0, s');
    }
  }

  lemma OrderedTimes(from: Time, call: Call, to: Time)
    requires Ordered(from, call, to)
    ensures from <= to
  {
  }

  lemma CancelStepKeeps(s: State, runId: string, reason: string, requester: string, t: Time, s': State)
    requires Inv(s) && CancelStep(s, runId, reason, requester, t, s')
    ensures Inv(s') && Advances(s, s')
  {
    hide EntryStep, EntryInv, IndexInv, LeasesDistinct, Cancel, Sound, Keeps, Inv, Advances;
    if runId !in s.entries {
      StillStep(s, s');
    } else {
      SoundAt(s, runId);
      CancelKeeps(s.entries[runId], reason, requester, t);
      CancelSameHolder(s.entries[runId], reason, requester, t);
      PutKeeps(s, runId, Cancel(s.entries[runId], reason, requester, t), s');
    }
  }

  lemma NoteStepKeeps(s: State, runId: string, subject: Subject, id: string, s': State)
    requires Inv(s) && Next(s, OpNote(runId, subject, id), s')
    ensures Inv(s') && Advances(s, s')
  {
    hide EntryStep, EntryInv, IndexInv, LeasesDistinct, Sound, Keeps, Inv, Advances, Terminals, Started, LogShape;
    SoundAt(s, runId);
    NoteKeeps(s.entries[runId], subject, id);
    PutKeeps(s, runId, Append(s.entries[runId], EvRecorded(subject, id)), s');
  }

  lemma CancelAllKeeps(s: State, runs: set<string>, now: Time, s': State)
    requires Inv(s) && s.clock <= s'.clock && s' == s.(clock := s'.clock, entries := CancelAll(s.entries, runs, now))
    ensures Inv(s') && Advances(s, s')
  {
    hide Sound, Keeps, EntryStep, EntryInv, IndexInv, LeasesDistinct, Cancel;
    forall q | q in s.entries
      ensures EntryStep(s, s', s.entries[q], s'.entries[q]) && GivesNothing(s.entries[q], s'.entries[q])
    {
      SoundAt(s, q);
      CancelKeeps(s.entries[q], "run timeout exceeded", "relay", now);
      CancelSameHolder(s.entries[q], "run timeout exceeded", "relay", now);
      StayKeeps(s.entries[q]);
      HolderStep(s, s', q, s'.entries[q]);
    }
    MapKeeps(s, s', "");
  }

  lemma RecoverEntry(s: State, s': State, r: string, now: Time, id: string)
    requires Inv(s) && r in s.entries && Abandoned(s.entries[r], now)
    requires Retries(s.entries[r]) ==> Fresh(s.issued, id) && id in s'.issued
    requires s.issued <= s'.issued && s.nodes.Keys <= s'.nodes.Keys
    ensures EntryStep(s, s', s.entries[r], Recover(s.entries[r], now, id))
    ensures GivesNothing(s.entries[r], Recover(s.entries[r], now, id))
  {
    hide Sound, Keeps, IndexInv, LeasesDistinct, Inv, Recover, Fresh;
    SoundAt(s, r);
    if Retries(s.entries[r]) {
      FreshDiffers(s, r, id);
      RecoverKeeps(s.entries[r], now, id);
      RequeueEntry(s, s', r, now, id);
    } else {
      RecoverKeeps(s.entries[r], now, id);
      RecoverSameHolder(s.entries[r], now, id);
      HolderStep(s, s', r, Recover(s.entries[r], now, id));
    }
  }

  lemma RequeueEntry(s: State, s': State, r: string, now: Time, id: string)
    requires Inv(s) && r in s.entries && Retries(s.entries[r]) && id in s'.issued
    requires s.issued <= s'.issued && Keeps(s.entries[r], Recover(s.entries[r], now, id))
    ensures EntryStep(s, s', s.entries[r], Recover(s.entries[r], now, id))
    ensures Recover(s.entries[r], now, id).run.attempt.lease == ""
  {
    hide Sound, Keeps, IndexInv, LeasesDistinct, Terminals, Started, LogShape;
    assert EntryInv(s, r, s.entries[r]);
  }

  lemma RecoverAllKeeps(s: State, runs: set<string>, ids: map<string, string>, now: Time, s': State)
    requires Inv(s) && runs <= AbandonedRuns(s.entries, now) && s.clock <= s'.clock
    requires ids.Keys == set r | r in runs && Retries(s.entries[r])
    requires forall r :: r in ids ==> Fresh(s.issued, ids[r])
    requires s' == s.(clock := s'.clock, entries := RecoverAll(s.entries, runs, ids, now), issued := s.issued + ids.Values)
    ensures Inv(s') && Advances(s, s')
  {
    hide Sound, Keeps, EntryStep, EntryInv, IndexInv, LeasesDistinct, Recover, Fresh, Retries, Abandoned;
    forall q | q in s.entries
      ensures EntryStep(s, s', s.entries[q], s'.entries[q]) && GivesNothing(s.entries[q], s'.entries[q])
    {
      if q in runs {
        var id := if q in ids then ids[q] else "";
        assert Retries(s.entries[q]) ==> q in ids && id in s'.issued;
        RecoverEntry(s, s', q, now, id);
      } else {
        SameKeeps(s, s', q);
      }
    }
    MapKeeps(s, s', "");
  }

  lemma ReconcileKeeps(s: State, now: Time, limit: int, overdue: set<string>, abandoned: set<string>,
                       ids: map<string, string>, count: int, s': State)
    requires Inv(s) && ReconcileStep(s, now, limit, overdue, abandoned, ids, count, s')
    ensures Inv(s') && Advances(s, s')
  {
    hide Inv, Advances, Fresh, Retries, CancelAll, RecoverAll, AbandonedRuns, OverdueRuns;
    var mid := s.(clock := s'.clock, entries := CancelAll(s.entries, overdue, now));
    CancelAllKeeps(s, overdue, now, mid);
    RecoverAllKeeps(mid, abandoned, ids, now, s');
    AdvancesTransitive(s, mid, s');
  }

  /** The inductive step: any operation, with any arguments and choices, keeps the invariant. */
  lemma NextKeeps(s: State, op: Op, s': State)
    requires Inv(s) && Next(s, op, s')
    ensures Inv(s') && Advances(s, s')
  {
    hide Inv, Advances, SubmitStep, ClaimStep, CallStep, CancelStep, ReconcileStep;
    match op {
      case OpRegister(registration) => RegisterKeeps(s, registration, s');
      case OpSubmit(request, runId, attemptId, t) => SubmitKeeps(s, request, runId, attemptId, t, s');
      case OpClaim(nodeId, ttl, t, reply) => ClaimKeeps(s, nodeId, ttl, t, reply, s');
      case OpCall(runId, attemptId, lease, call, answer) => CallKeeps(s, runId, attemptId, lease, call, answer, s');
      case OpCancel(runId, reason, requester, t) => CancelStepKeeps(s, runId, reason, requester, t, s');
      case OpNote(runId, subject, id) => NoteStepKeeps(s, runId, subject, id, s');
      case OpReconcile(now, limit, overdue, abandoned, ids, count) =>
        ReconcileKeeps(s, now, limit, overdue, abandoned, ids, count, s');
      case OpRead => StillStep(s, s');
    }
  }

  lemma RegisterKeeps(s: State, registration: Registration, s': State)
    requires Inv(s) && Next(s, OpRegister(registration), s')
    ensures Inv(s') && Advances(s, s')
  {
    StillKeeps(s, s');
  }
}

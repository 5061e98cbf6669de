/** Following a run over connections that break: the server's cursor, the client's, and what is printed in the end. */
module Watch {
  import opened Types
  import opened RunProtocol
  import opened RunInvariants
  import opened Protocol
  import opened Behaviours
  import opened EventStream

  /** How a stored event looks to a client. */
  function Seen(event: Event): Received {
    Received(event.sequence, WireName(event.body))
  }

  function AllSeen(log: seq<Event>): (seen: seq<Received>)
    ensures |seen| == |log| && forall i :: 0 <= i < |log| ==> seen[i] == Seen(log[i])
  {
    seq(|log|, i requires 0 <= i < |log| => Seen(log[i]))
  }

  function AllEncoded(encode: Event -> string, log: seq<Event>): (texts: seq<string>)
    ensures |texts| == |log| && forall i :: 0 <= i < |log| ==> texts[i] == encode(log[i])
  {
    seq(|log|, i requires 0 <= i < |log| => encode(log[i]))
  }

  /** JSON: one fit line per event, and it can be read back. */
  ghost predicate Codec(encode: Event -> string, decode: string -> Option<Received>) {
    forall e: Event :: Fit(encode(e)) && decode(encode(e)) == Some(Seen(e))
  }

  /** The events after a cursor, as storage answers. */
  function EventsAfter(log: seq<Event>, after: nat): seq<Event> {
    if after <= |log| then log[after..] else []
  }

  function LogAtMoment(tr: Trace, r: string, moment: nat): seq<Event> {
    if moment < |tr.states| && r in tr.states[moment].entries then tr.states[moment].entries[r].log else []
  }

  /** The run was over. */
  predicate OverAtMoment(tr: Trace, r: string, moment: nat) {
    && moment < |tr.states| && r in tr.states[moment].entries
    && var status := tr.states[moment].entries[r].run.status;
       status == RunSucceeded || status == RunFailed || status == RunCancelled
  }

  lemma OverMeans(tr: Trace, r: string, moment: nat)
    requires moment < |tr.states|
    ensures OverAtMoment(tr, r, moment) <==>
            r in tr.states[moment].entries && Terminal(tr.states[moment].entries[r].run.status)
  {
  }

  // ------------------------------------------------------------------ the server

  datatype Wake = Gone | KeepaliveDue | PollDue

  /** One turn of the server's loop: when it looked at the run, what woke it, and when it read the log. */
  datatype Turn = Turn(looked: nat, wake: Wake, read: nat)

  /** A connection: what the server did, and how many bytes of its answer arrived. */
  datatype Connection = Connection(start: nat, turns: seq<Turn>, cut: nat)

  /** The moments of a stream, in order. */
  ghost predicate InOrder(tr: Trace, r: string, start: nat, turns: seq<Turn>) {
    && start < |tr.states| && r in tr.states[start].entries
    && (forall i :: 0 <= i < |turns| ==> start <= turns[i].looked <= turns[i].read < |tr.states|)
    && (forall i, j :: 0 <= i < j < |turns| ==> turns[i].read <= turns[j].looked)
  }

  lemma LogsGrow(tr: Trace, r: string, i: nat, j: nat)
    requires IsTrace(tr) && i <= j < |tr.states| && r in tr.states[i].entries
    ensures r in tr.states[j].entries && LogAtMoment(tr, r, i) <= LogAtMoment(tr, r, j)
    ensures forall k :: 0 <= k < |LogAtMoment(tr, r, j)| ==> LogAtMoment(tr, r, j)[k].sequence == k + 1
  {
    hide IsTrace, EntryStep;
    RunBetween(tr, i, j, r);
    LogAt(tr.states[j].entries[r].run.id, tr.states[j].entries[r].log);
  }

  function Frames(values: seq<Event>, encode: Event -> string): (items: seq<Item>)
    ensures |items| == |values|
    ensures forall i :: 0 <= i < |items| ==> items[i] == Frame(values[i].sequence, encode(values[i]))
  {
    seq(|values|, i requires 0 <= i < |values| => Frame(values[i].sequence, encode(values[i])))
  }

  /** Writes what storage returned beyond the cursor, and moves the cursor. */
  method WriteEvents(values: seq<Event>, after: nat, encode: Event -> string) returns (items: seq<Item>, cursor: nat)
    requires forall k :: 0 <= k < |values| ==> values[k].sequence == after + k + 1
    requires forall e: Event :: Fit(encode(e))
    ensures Texts(items) == AllEncoded(encode, values) && AllFit(items) && cursor == after + |values|
    ensures items == Frames(values, encode)
  {
    items, cursor := [], after;
    for k := 0 to |values|
      invariant cursor == after + k && AllFit(items) && Texts(items) == AllEncoded(encode, values[..k])
      invariant items == Frames(values[..k], encode)
    {
      if values[k].sequence > cursor {
        var frame := Frame(values[k].sequence, encode(values[k]));
        LastText(items, frame);
        assert AllEncoded(encode, values[..k + 1]) == AllEncoded(encode, values[..k]) + [encode(values[k])];
        items := items + [frame];
        cursor := values[k].sequence;
      }
    }
    assert values[..|values|] == values;
  }

  /** The log beyond `after` has been written, and the cursor stands at its end. */
  ghost predicate Written(log: seq<Event>, after: nat, cursor: nat, items: seq<Item>, encode: Event -> string) {
    && AllFit(items) && cursor == after + |EventsAfter(log, after)|
    && Texts(items) == AllEncoded(encode, EventsAfter(log, after))
  }

  lemma MoreEvents(log: seq<Event>, log': seq<Event>, after: nat)
    requires log <= log'
    ensures EventsAfter(log', after) == EventsAfter(log, after) + EventsAfter(log', after + |EventsAfter(log, after)|)
  {
    if after <= |log| {
      assert log'[after..] == log[after..] + log'[|log|..];
    }
  }

  lemma WriteMore(log: seq<Event>, log': seq<Event>, after: nat, cursor: nat, items: seq<Item>, more: seq<Item>, encode: Event -> string)
    requires Written(log, after, cursor, items, encode) && log <= log' && AllFit(more)
    requires Texts(more) == AllEncoded(encode, EventsAfter(log', cursor))
    ensures Written(log', after, cursor + |EventsAfter(log', cursor)|, items + more, encode)
  {
    hide Texts, Fit, EventsAfter;
    MoreEvents(log, log', after);
    TextsSplit(items + more, |items|);
    assert (items + more)[..|items|] == items && (items + more)[|items|..] == more;
    assert AllEncoded(encode, EventsAfter(log, after) + EventsAfter(log', cursor))
        == AllEncoded(encode, EventsAfter(log, after)) + AllEncoded(encode, EventsAfter(log', cursor));
  }

  lemma WriteKeepAlive(log: seq<Event>, after: nat, cursor: nat, items: seq<Item>, encode: Event -> string)
    requires Written(log, after, cursor, items, encode)
    ensures Written(log, after, cursor, items + [KeepAlive], encode)
  {
    hide Texts, Fit;
    LastText(items, KeepAlive);
  }

  /** What the turns of the loop write, given the cursor before them. */
  function Rest(tr: Trace, r: string, turns: seq<Turn>, after: nat, encode: Event -> string): seq<Item>
    decreases |turns|
  {
    if turns == [] then []
    else
      var values := EventsAfter(LogAtMoment(tr, r, turns[0].read), after);
      if OverAtMoment(tr, r, turns[0].looked) then Frames(values, encode)
      else
        match turns[0].wake
        case Gone => []
        case KeepaliveDue => [KeepAlive] + Rest(tr, r, turns[1..], after, encode)
        case PollDue => Frames(values, encode) + Rest(tr, r, turns[1..], after + |values|, encode)
  }

  /** The whole response to one connection. */
  function Response(tr: Trace, r: string, c: Connection, after: nat, encode: Event -> string): seq<Item> {
    var values := EventsAfter(LogAtMoment(tr, r, c.start), after);
    Frames(values, encode) + Rest(tr, r, c.turns, after + |values|, encode)
  }

  /** The turn in which the server finds the run over, or the client gone; all of them if neither happens. */
  function Stop(tr: Trace, r: string, turns: seq<Turn>): (i: nat)
    ensures i <= |turns|
  {
    if turns == [] || OverAtMoment(tr, r, turns[0].looked) || turns[0].wake.Gone? then 0 else 1 + Stop(tr, r, turns[1..])
  }

  /** The server ends the response itself: it finds the run over before the client is gone. */
  predicate Completes(tr: Trace, r: string, turns: seq<Turn>) {
    Stop(tr, r, turns) < |turns| && OverAtMoment(tr, r, turns[Stop(tr, r, turns)].looked)
  }

  lemma StopNext(tr: Trace, r: string, turns: seq<Turn>)
    requires turns != [] && !OverAtMoment(tr, r, turns[0].looked) && !turns[0].wake.Gone?
    ensures Stop(tr, r, turns) == 1 + Stop(tr, r, turns[1..])
    ensures Completes(tr, r, turns) <==> Completes(tr, r, turns[1..])
  {
    hide OverAtMoment;
  }

  /** The body of one response: the log beyond the cursor, once, without gaps, up to where the stream ended. */
  method StreamRun(tr: Trace, r: string, c: Connection, after: nat, encode: Event -> string)
    returns (items: seq<Item>, complete: bool, moment: nat)
    requires IsTrace(tr) && InOrder(tr, r, c.start, c.turns) && forall e: Event :: Fit(encode(e))
    ensures c.start <= moment < |tr.states| && AllFit(items) && items == Response(tr, r, c, after, encode)
    ensures Texts(items) == AllEncoded(encode, EventsAfter(LogAtMoment(tr, r, moment), after))
    ensures complete <==> Completes(tr, r, c.turns)
    ensures complete ==> OverAtMoment(tr, r, moment)
    ensures moment == c.start || exists i :: 0 <= i < |c.turns| && c.turns[i].read == moment
  {
    hide IsTrace, Texts, LogAtMoment, OverAtMoment, Fit, EventsAfter, AllEncoded, Frames, Completes, Stop;
    var cursor: nat;
    var turns := c.turns;
    moment, complete := c.start, false;
    Sequenced(tr, r, c.start, after);
    items, cursor := WriteEvents(EventsAfter(LogAtMoment(tr, r, c.start), after), after, encode);
    assert turns[0..] == turns;
    for i := 0 to |turns|
      invariant c.start <= moment < |tr.states| && r in tr.states[moment].entries
      invariant forall j :: i <= j < |turns| ==> moment <= turns[j].looked
      invariant Written(LogAtMoment(tr, r, moment), after, cursor, items, encode)
      invariant moment == c.start || exists j :: 0 <= j < |turns| && turns[j].read == moment
      invariant Response(tr, r, c, after, encode) == items + Rest(tr, r, turns[i..], cursor, encode)
      invariant Completes(tr, r, turns[i..]) <==> Completes(tr, r, turns)
    {
      var turn := turns[i];
      var left := turns[i..];
      assert left[0] == turn && left[1..] == turns[i + 1..];
      var over := r in tr.states[turn.looked].entries && Terminal(tr.states[turn.looked].entries[r].run.status);
      OverMeans(tr, r, turn.looked);
      StopHere(tr, r, left);
      if !over && turn.wake.Gone? {
        assert items + [] == items;
        return;
      }
      if !over { StopNext(tr, r, left); }
      if !over && turn.wake.KeepaliveDue? {
        WriteKeepAlive(LogAtMoment(tr, r, moment), after, cursor, items, encode);
        Regrouped(items, [KeepAlive], Rest(tr, r, left[1..], cursor, encode));
        items := items + [KeepAlive];
      } else {
        LogsGrow(tr, r, moment, turn.read);
        var log := LogAtMoment(tr, r, turn.read);
        var more;
        ghost var before := cursor;
        Sequenced(tr, r, turn.read, cursor);
        more, cursor := WriteEvents(EventsAfter(log, cursor), cursor, encode);
        WriteMore(LogAtMoment(tr, r, moment), log, after, before, items, more, encode);
        Regrouped(items, more, Rest(tr, r, left[1..], cursor, encode));
        items, moment := items + more, turn.read;
        if over {
          OverStays(tr, r, turn.looked, turn.read);
          complete := true;
          return;
        }
      }
    }
    assert turns[|turns|..] == [];
    StopHere(tr, r, []);
    assert items + [] == items;
  }

  lemma StopHere(tr: Trace, r: string, turns: seq<Turn>)
    ensures turns == [] ==> !Completes(tr, r, turns)
    ensures turns != [] && OverAtMoment(tr, r, turns[0].looked) ==> Completes(tr, r, turns)
    ensures turns != [] && !OverAtMoment(tr, r, turns[0].looked) && turns[0].wake.Gone? ==> !Completes(tr, r, turns)
  {
    hide OverAtMoment;
  }

  lemma Regrouped(a: seq<Item>, b: seq<Item>, c: seq<Item>)
    ensures (a + b) + c == a + (b + c)
  {
  }

  lemma Sequenced(tr: Trace, r: string, moment: nat, after: nat)
    requires IsTrace(tr) && moment < |tr.states| && r in tr.states[moment].entries
    ensures var values := EventsAfter(LogAtMoment(tr, r, moment), after);
      forall k :: 0 <= k < |values| ==> values[k].sequence == after + k + 1
  {
    hide IsTrace;
    LogsGrow(tr, r, moment, moment);
  }

  lemma OverStays(tr: Trace, r: string, i: nat, j: nat)
    requires IsTrace(tr) && i <= j < |tr.states| && OverAtMoment(tr, r, i)
    ensures OverAtMoment(tr, r, j)
  {
    hide IsTrace;
    TerminalIsFinal(tr, i, j, r);
  }

  // ------------------------------------------------------------------ one connection

  lemma {:induction false} SelectAll(events: seq<Received>, after: int)
    requires forall k :: 0 <= k < |events| ==> events[k].sequence == after + k + 1
    ensures Select(events, after) == events
    decreases |events|
  {
    if events != [] {
      assert forall k :: 0 <= k < |events[1..]| ==> events[1..][k].sequence == events[0].sequence + k + 1;
      SelectAll(events[1..], events[0].sequence);
      assert events == [events[0]] + events[1..];
    }
  }

  /** Decoding is unambiguous, so a prefix of the encoded log decodes to the same prefix of the log. */
  lemma DecodedLog(encode: Event -> string, decode: string -> Option<Received>, values: seq<Event>,
                   texts: seq<string>, events: seq<Received>)
    requires Codec(encode, decode) && texts <= AllEncoded(encode, values) && Decodes(decode, texts, events)
    ensures |events| <= |values| && events == AllSeen(values[..|events|])
  {
    hide Fit;
    assert forall i :: 0 <= i < |events| ==> texts[i] == encode(values[i]);
  }

  /** How many events arrive over one connection. */
  function Arriving(tr: Trace, r: string, c: Connection, after: nat, encode: Event -> string): nat {
    var items := Response(tr, r, c, after, encode);
    |Texts(items[..Dispatchable(items, c.cut)])|
  }

  /** The server ends the response itself, all of it arrives, and no line fills the client's buffer. */
  ghost predicate Unbroken(tr: Trace, r: string, c: Connection, after: nat, encode: Event -> string) {
    var items := Response(tr, r, c, after, encode);
    Completes(tr, r, c.turns) && c.cut >= |Print(items)| && forall i :: 0 <= i < |items| ==> ItemShort(items[i])
  }

  /** The events that arrive over one connection continue the log where the cursor stood. */
  method Connect(tr: Trace, r: string, c: Connection, after: nat, encode: Event -> string, decode: string -> Option<Received>)
    returns (handled: seq<Received>, end: StreamEnd, moment: nat)
    requires IsTrace(tr) && InOrder(tr, r, c.start, c.turns) && Codec(encode, decode)
    requires after <= |LogAtMoment(tr, r, c.start)|
    ensures c.start <= moment < |tr.states| && r in tr.states[moment].entries
    ensures moment == c.start || exists i :: 0 <= i < |c.turns| && c.turns[i].read == moment
    ensures after + |handled| <= |LogAtMoment(tr, r, moment)|
    ensures handled == AllSeen(LogAtMoment(tr, r, moment)[after..after + |handled|])
    ensures |handled| == Arriving(tr, r, c, after, encode)
    ensures Unbroken(tr, r, c, after, encode) ==>
              OverAtMoment(tr, r, moment) && after + |handled| == |LogAtMoment(tr, r, moment)|
    ensures end.Ended? ==> TerminalSeen(handled)
    ensures end.Interrupted? ==> !TerminalSeen(handled)
    ensures end.Ended? || end.Interrupted? || end.LineTooLong?
  {
    hide IsTrace, LogAtMoment, OverAtMoment, Fit, Dispatched, Print, AllEncoded, TerminalSeen, Select, Texts, Response, Completes,
         Dispatchable, ItemShort;
    CodecFits(encode, decode);
    var items, complete;
    items, complete, moment := StreamRun(tr, r, c, after, encode);
    var part := Cut(Print(items), c.cut);
    ParseCut(items, c.cut);
    TextsSplit(items, Dispatchable(items, c.cut));
    ghost var events;
    handled, end, events := StreamEvents(part, after, decode, -1);
    var values := EventsAfter(LogAtMoment(tr, r, moment), after);
    ReadTexts(encode, decode, values, Dispatched(part), events);
    LogsGrow(tr, r, c.start, moment);
    Sequenced(tr, r, moment, after);
    SelectAll(events, after);
    assert values == LogAtMoment(tr, r, moment)[after..];
    assert values[..|events|] == LogAtMoment(tr, r, moment)[after..after + |events|];
    if Unbroken(tr, r, c, after, encode) {
      WholeDispatchable(items, c.cut);
      assert items[..|items|] == items;
    }
  }

  lemma CodecFits(encode: Event -> string, decode: string -> Option<Received>)
    requires Codec(encode, decode)
    ensures forall e: Event :: Fit(encode(e))
  {
    hide Fit;
  }

  lemma ReadTexts(encode: Event -> string, decode: string -> Option<Received>, values: seq<Event>,
                  texts: seq<string>, events: seq<Received>)
    requires Codec(encode, decode) && texts <= AllEncoded(encode, values)
    requires |events| <= |texts| && Decodes(decode, texts[..|events|], events)
    ensures |events| <= |values| && events == AllSeen(values[..|events|])
    ensures |events| < |texts| ==> decode(texts[|events|]).Some?
  {
    hide Fit;
    DecodedLog(encode, decode, values, texts[..|events|], events);
  }

  lemma NothingSeen()
    ensures !TerminalSeen([])
  {
  }

  // ------------------------------------------------------------------ watching with reconnects

  /** One turn of the watch: a connection, then a look at the run. */
  datatype Round = Round(connection: Connection, cancelled: bool, reachable: bool, asked: nat)

  datatype Outcome = RunOver | ContextEnded | Unreachable | StillRunning

  /** A connection is over before the run is asked for, and the next one starts after that. */
  ghost predicate Successive(tr: Trace, r: string, rounds: seq<Round>) {
    && (forall i :: 0 <= i < |rounds| ==> RoundInOrder(tr, r, rounds[i]))
    && (forall i, j :: 0 <= i < j < |rounds| ==> rounds[i].asked <= rounds[j].connection.start)
  }

  ghost predicate RoundInOrder(tr: Trace, r: string, round: Round) {
    && InOrder(tr, r, round.connection.start, round.connection.turns)
    && round.connection.start <= round.asked < |tr.states|
    && (forall i :: 0 <= i < |round.connection.turns| ==> round.connection.turns[i].read <= round.asked)
  }

  /** The log from its first event on, as far as it was printed. */
  ghost predicate Printed(tr: Trace, r: string, moment: nat, printed: seq<Received>) {
    printed == [] ||
    (moment < |tr.states| && r in tr.states[moment].entries && |printed| <= |LogAtMoment(tr, r, moment)|
     && printed == AllSeen(LogAtMoment(tr, r, moment)[..|printed|]))
  }

  lemma PrintedLater(tr: Trace, r: string, moment: nat, later: nat, printed: seq<Received>)
    requires IsTrace(tr) && Printed(tr, r, moment, printed) && later < |tr.states| && r in tr.states[later].entries
    requires printed == [] || moment <= later
    ensures Printed(tr, r, later, printed) && |printed| <= |LogAtMoment(tr, r, later)|
  {
    hide IsTrace, LogAtMoment;
    if printed != [] {
      LogsGrow(tr, r, moment, later);
      assert LogAtMoment(tr, r, later)[..|printed|] == LogAtMoment(tr, r, moment)[..|printed|];
    }
  }

  lemma PrintedMore(tr: Trace, r: string, start: nat, moment: nat, printed: seq<Received>, handled: seq<Received>)
    requires IsTrace(tr) && start <= moment < |tr.states| && r in tr.states[start].entries
    requires Printed(tr, r, start, printed) && |printed| <= |LogAtMoment(tr, r, start)|
    requires |printed| + |handled| <= |LogAtMoment(tr, r, moment)|
    requires handled == AllSeen(LogAtMoment(tr, r, moment)[|printed|..|printed| + |handled|])
    ensures Printed(tr, r, moment, printed + handled)
  {
    hide IsTrace, LogAtMoment;
    LogsGrow(tr, r, start, moment);
    PrintedLater(tr, r, start, moment, printed);
    var log := LogAtMoment(tr, r, moment);
    assert log[..|printed| + |handled|] == log[..|printed|] + log[|printed|..|printed| + |handled|];
  }

  lemma SeenEither(printed: seq<Received>, handled: seq<Received>)
    ensures TerminalSeen(printed + handled) <==> TerminalSeen(printed) || TerminalSeen(handled)
  {
    var all := printed + handled;
    if TerminalSeen(printed) {
      var i :| 0 <= i < |printed| && TerminalKind(printed[i].kind);
      assert all[i] == printed[i];
    }
    if TerminalSeen(handled) {
      var i :| 0 <= i < |handled| && TerminalKind(handled[i].kind);
      assert all[|printed| + i] == handled[i];
    }
  }

  /** How far the log has been printed after `n` rounds. */
  function Reached(tr: Trace, r: string, rounds: seq<Round>, n: nat, encode: Event -> string): nat
    requires n <= |rounds|
  {
    if n == 0 then 0
    else
      var before := Reached(tr, r, rounds, n - 1, encode);
      before + Arriving(tr, r, rounds[n - 1].connection, before, encode)
  }

  /** The round ends the watch. */
  predicate LastRound(tr: Trace, r: string, round: Round) {
    round.cancelled || !round.reachable || OverAtMoment(tr, r, round.asked)
  }

  /** The number of rounds until the watch ends. */
  function Taken(tr: Trace, r: string, rounds: seq<Round>): (n: nat)
    ensures n <= |rounds|
  {
    if rounds == [] then 0 else if LastRound(tr, r, rounds[0]) then 1 else 1 + Taken(tr, r, rounds[1..])
  }

  function OutcomeOf(tr: Trace, r: string, round: Round): Outcome {
    if round.cancelled then ContextEnded
    else if !round.reachable then Unreachable
    else if OverAtMoment(tr, r, round.asked) then RunOver
    else StillRunning
  }

  /** The place of the first event that a client takes for the end of the run; the length if there is none. */
  function EndAt(log: seq<Event>): (i: nat)
    ensures i <= |log| && (i < |log| ==> TerminalKind(Seen(log[i]).kind))
    ensures forall k :: 0 <= k < i ==> !TerminalKind(Seen(log[k]).kind)
  {
    if log == [] || TerminalKind(Seen(log[0]).kind) then 0 else 1 + EndAt(log[1..])
  }

  /** Reconnects from the last event handled until the run is over: what was printed is the log from its first
      event on, without gaps and without repetition, as far as the connections brought it. */
  method WatchRun(tr: Trace, r: string, rounds: seq<Round>, encode: Event -> string, decode: string -> Option<Received>)
    returns (printed: seq<Received>, outcome: Outcome, moment: nat)
    requires IsTrace(tr) && Successive(tr, r, rounds) && Codec(encode, decode)
    ensures Printed(tr, r, moment, printed)
    ensures |printed| == Reached(tr, r, rounds, Taken(tr, r, rounds), encode)
    ensures outcome == if rounds == [] then StillRunning else OutcomeOf(tr, r, rounds[Taken(tr, r, rounds) - 1])
    ensures outcome == RunOver ==> Taken(tr, r, rounds) > 0 && OverAtMoment(tr, r, rounds[Taken(tr, r, rounds) - 1].asked)
    // the end was printed exactly when one connection served its frame and brought all bytes up to its last
    ensures outcome == RunOver ==>
              var log := LogAtMoment(tr, r, rounds[Taken(tr, r, rounds) - 1].asked);
              EndAt(log) < |log| &&
              (TerminalSeen(printed) <==> exists i :: 0 <= i < Taken(tr, r, rounds) && Brings(tr, r, rounds, i, encode, EndAt(log)))
    // one unbroken response is enough
    ensures (exists i :: 0 <= i < Taken(tr, r, rounds) &&
               Unbroken(tr, r, rounds[i].connection, Reached(tr, r, rounds, i, encode), encode)) ==> TerminalSeen(printed)
  {
    hide IsTrace, LogAtMoment, OverAtMoment, TerminalSeen, Codec, Arriving, Unbroken, Printed, Reached, Watched, InOrder, EndAt, AllSeen,
         Taken, Successive, LastRound, OutcomeOf, Brings;
    var lastSequence: nat := 0;
    printed, outcome, moment := [], StillRunning, 0;
    WatchedNone(tr, r, rounds, encode);
    TakenStart(tr, r, rounds);
    for i := 0 to |rounds|
      invariant lastSequence == |printed| && outcome == StillRunning
      invariant Watched(tr, r, rounds, i, encode, printed, moment)
      invariant Going(tr, r, rounds, i)
    {
      var round := rounds[i];
      RoundAt(tr, r, rounds, i);
      WatchedSoFar(tr, r, rounds, i, encode, printed, moment);
      var handled, end, seen := Connect(tr, r, round.connection, lastSequence, encode, decode);
      WatchedNext(tr, r, rounds, i, encode, printed, moment, handled, seen);
      moment, printed, lastSequence := seen, printed + handled, lastSequence + |handled|;
      WatchedEnd(tr, r, rounds, i + 1, encode, printed, moment);
      TakenStep(tr, r, rounds, i);
      if round.cancelled { return printed, ContextEnded, moment; }
      if !round.reachable { return printed, Unreachable, moment; }
      OverMeans(tr, r, round.asked);
      if r in tr.states[round.asked].entries && Terminal(tr.states[round.asked].entries[r].run.status) {
        return printed, RunOver, moment;
      }
    }
    TakenAll(tr, r, rounds);
    WatchedEnd(tr, r, rounds, |rounds|, encode, printed, moment);
  }

  /** None of the first `i` rounds ends the watch. */
  predicate Going(tr: Trace, r: string, rounds: seq<Round>, i: nat) {
    i <= |rounds| && Taken(tr, r, rounds) == i + Taken(tr, r, rounds[i..])
    && (i > 0 ==> OutcomeOf(tr, r, rounds[i - 1]) == StillRunning)
  }

  lemma TakenStart(tr: Trace, r: string, rounds: seq<Round>)
    ensures Going(tr, r, rounds, 0)
  {
    assert rounds[0..] == rounds;
  }

  lemma TakenStep(tr: Trace, r: string, rounds: seq<Round>, i: nat)
    requires i < |rounds| && Going(tr, r, rounds, i)
    ensures rounds[i].cancelled ==> OutcomeOf(tr, r, rounds[i]) == ContextEnded && Taken(tr, r, rounds) == i + 1
    ensures !rounds[i].cancelled && !rounds[i].reachable ==>
              OutcomeOf(tr, r, rounds[i]) == Unreachable && Taken(tr, r, rounds) == i + 1
    ensures !rounds[i].cancelled && rounds[i].reachable && OverAtMoment(tr, r, rounds[i].asked) ==>
              OutcomeOf(tr, r, rounds[i]) == RunOver && Taken(tr, r, rounds) == i + 1
    ensures !rounds[i].cancelled && rounds[i].reachable && !OverAtMoment(tr, r, rounds[i].asked) ==> Going(tr, r, rounds, i + 1)
  {
    hide OverAtMoment;
    assert rounds[i..][0] == rounds[i] && rounds[i..][1..] == rounds[i + 1..];
  }

  lemma TakenAll(tr: Trace, r: string, rounds: seq<Round>)
    requires Going(tr, r, rounds, |rounds|)
    ensures Taken(tr, r, rounds) == |rounds|
    ensures rounds != [] ==> OutcomeOf(tr, r, rounds[|rounds| - 1]) == StillRunning
  {
    assert rounds[|rounds|..] == [];
  }

  /** What the first `n` rounds have printed. */
  ghost predicate Watched(tr: Trace, r: string, rounds: seq<Round>, n: nat, encode: Event -> string, printed: seq<Received>, moment: nat) {
    && n <= |rounds| && |printed| == Reached(tr, r, rounds, n, encode) && Printed(tr, r, moment, printed)
    && (printed == [] || (n > 0 && moment <= rounds[n - 1].asked))
    && (forall i :: 0 <= i < n && Unbroken(tr, r, rounds[i].connection, Reached(tr, r, rounds, i, encode), encode) ==>
          TerminalSeen(printed))
  }

  lemma WatchedNone(tr: Trace, r: string, rounds: seq<Round>, encode: Event -> string)
    ensures Watched(tr, r, rounds, 0, encode, [], 0)
  {
  }

  lemma RoundAt(tr: Trace, r: string, rounds: seq<Round>, i: nat)
    requires Successive(tr, r, rounds) && i < |rounds|
    ensures RoundInOrder(tr, r, rounds[i]) && (i > 0 ==> rounds[i - 1].asked <= rounds[i].connection.start)
    ensures InOrder(tr, r, rounds[i].connection.start, rounds[i].connection.turns)
    ensures rounds[i].connection.start < |tr.states| && r in tr.states[rounds[i].connection.start].entries
  {
  }

  lemma WatchedSoFar(tr: Trace, r: string, rounds: seq<Round>, i: nat, encode: Event -> string, printed: seq<Received>, moment: nat)
    requires IsTrace(tr) && Successive(tr, r, rounds) && i < |rounds| && Watched(tr, r, rounds, i, encode, printed, moment)
    ensures Printed(tr, r, rounds[i].connection.start, printed)
    ensures |printed| == Reached(tr, r, rounds, i, encode) <= |LogAtMoment(tr, r, rounds[i].connection.start)|
  {
    hide IsTrace, LogAtMoment, Printed, Reached, Unbroken, TerminalSeen, InOrder;
    RoundAt(tr, r, rounds, i);
    PrintedLater(tr, r, moment, rounds[i].connection.start, printed);
  }

  lemma WatchedNext(tr: Trace, r: string, rounds: seq<Round>, i: nat, encode: Event -> string, printed: seq<Received>, moment: nat,
                    handled: seq<Received>, seen: nat)
    requires IsTrace(tr) && Successive(tr, r, rounds) && i < |rounds| && Watched(tr, r, rounds, i, encode, printed, moment)
    requires var c := rounds[i].connection;
      && c.start <= seen < |tr.states| && (seen == c.start || exists t :: 0 <= t < |c.turns| && c.turns[t].read == seen)
      && |printed| + |handled| <= |LogAtMoment(tr, r, seen)|
      && handled == AllSeen(LogAtMoment(tr, r, seen)[|printed|..|printed| + |handled|])
      && |handled| == Arriving(tr, r, c, |printed|, encode)
      && (Unbroken(tr, r, c, |printed|, encode) ==> OverAtMoment(tr, r, seen) && |printed| + |handled| == |LogAtMoment(tr, r, seen)|)
    ensures Watched(tr, r, rounds, i + 1, encode, printed + handled, seen)
  {
    hide IsTrace, LogAtMoment, OverAtMoment, Printed, Unbroken, TerminalSeen, InOrder, Arriving, AllSeen;
    RoundAt(tr, r, rounds, i);
    WatchedSoFar(tr, r, rounds, i, encode, printed, moment);
    PrintedMore(tr, r, rounds[i].connection.start, seen, printed, handled);
    SeenEither(printed, handled);
    if Unbroken(tr, r, rounds[i].connection, |printed|, encode) {
      CompleteHasEnd(tr, r, seen);
      PrintedWhole(tr, r, seen, printed + handled);
    }
  }

  lemma WatchedEnd(tr: Trace, r: string, rounds: seq<Round>, n: nat, encode: Event -> string, printed: seq<Received>, moment: nat)
    requires IsTrace(tr) && Successive(tr, r, rounds) && Watched(tr, r, rounds, n, encode, printed, moment)
    ensures |printed| == Reached(tr, r, rounds, n, encode) && Printed(tr, r, moment, printed)
    ensures (exists i :: 0 <= i < n && Unbroken(tr, r, rounds[i].connection, Reached(tr, r, rounds, i, encode), encode)) ==>
              TerminalSeen(printed)
    ensures n > 0 && OverAtMoment(tr, r, rounds[n - 1].asked) ==>
              var log := LogAtMoment(tr, r, rounds[n - 1].asked);
              EndAt(log) < |log| &&
              (TerminalSeen(printed) <==> exists i :: 0 <= i < n && Brings(tr, r, rounds, i, encode, EndAt(log)))
  {
    hide IsTrace, LogAtMoment, OverAtMoment, Printed, Reached, Unbroken, TerminalSeen, InOrder, EndAt, Brings;
    if n > 0 && OverAtMoment(tr, r, rounds[n - 1].asked) {
      RoundAt(tr, r, rounds, n - 1);
      OverIsThere(tr, r, rounds[n - 1].asked);
      PrintedLater(tr, r, moment, rounds[n - 1].asked, printed);
      CompleteHasEnd(tr, r, rounds[n - 1].asked);
      PrintedEnd(tr, r, rounds[n - 1].asked, printed);
      BroughtBy(tr, r, rounds, n, encode, EndAt(LogAtMoment(tr, r, rounds[n - 1].asked)));
    }
  }

  /** A client that has printed a whole log has seen the end of it. */
  lemma PrintedWhole(tr: Trace, r: string, moment: nat, printed: seq<Received>)
    requires Printed(tr, r, moment, printed) && |printed| == |LogAtMoment(tr, r, moment)|
    requires exists i :: 0 <= i < |LogAtMoment(tr, r, moment)| && TerminalKind(Seen(LogAtMoment(tr, r, moment)[i]).kind)
    ensures TerminalSeen(printed)
  {
    hide LogAtMoment;
    var i :| 0 <= i < |LogAtMoment(tr, r, moment)| && TerminalKind(Seen(LogAtMoment(tr, r, moment)[i]).kind);
    assert printed[i] == Seen(LogAtMoment(tr, r, moment)[i]);
  }

  lemma PrintedEnd(tr: Trace, r: string, moment: nat, printed: seq<Received>)
    requires Printed(tr, r, moment, printed)
    requires exists i :: 0 <= i < |LogAtMoment(tr, r, moment)| && TerminalKind(Seen(LogAtMoment(tr, r, moment)[i]).kind)
    ensures var log := LogAtMoment(tr, r, moment); EndAt(log) < |log| && (TerminalSeen(printed) <==> EndAt(log) < |printed|)
  {
    hide LogAtMoment;
    var log := LogAtMoment(tr, r, moment);
    assert forall i :: 0 <= i < |printed| ==> printed[i] == Seen(log[i]);
    if EndAt(log) < |printed| {
      assert TerminalKind(printed[EndAt(log)].kind);
    }
  }

  /** An event of the log is brought by the round whose connection carries it: its frame was served, and all bytes up to its end arrived. */
  lemma {:induction false} BroughtBy(tr: Trace, r: string, rounds: seq<Round>, n: nat, encode: Event -> string, k: nat)
    requires n <= |rounds|
    ensures k < Reached(tr, r, rounds, n, encode) <==>
            exists i :: 0 <= i < n && Brings(tr, r, rounds, i, encode, k)
  {
    hide Texts, Dispatchable, Response, FrameArrives;
    if n > 0 {
      var m := n - 1;
      BroughtBy(tr, r, rounds, m, encode, k);
      var before := Reached(tr, r, rounds, m, encode);
      var c := rounds[m].connection;
      var items := Response(tr, r, c, before, encode);
      if k >= before { CountArrives(items, c.cut, k - before); }
      if k < before {
        var i :| 0 <= i < m && Brings(tr, r, rounds, i, encode, k);
        assert i < n;
      } else {
        assert Brings(tr, r, rounds, m, encode, k) <==> FrameArrives(items, c.cut, k - before);
      }
    }
  }

  /** Round `i` starts no further than event `k`, and carries it to its last byte. */
  ghost predicate Brings(tr: Trace, r: string, rounds: seq<Round>, i: nat, encode: Event -> string, k: nat)
    requires i < |rounds|
  {
    var before := Reached(tr, r, rounds, i, encode);
    before <= k && FrameArrives(Response(tr, r, rounds[i].connection, before, encode), rounds[i].connection.cut, k - before)
  }

  /** A watch that ends with the run may miss how it ended: the stream breaks before the first byte. */
  method EndMissed(tr: Trace, r: string, over: nat, encode: Event -> string, decode: string -> Option<Received>)
    returns (printed: seq<Received>, outcome: Outcome)
    requires IsTrace(tr) && OverAtMoment(tr, r, over) && Codec(encode, decode)
    ensures outcome == RunOver && printed == [] && !TerminalSeen(printed)
  {
    hide IsTrace, TerminalSeen, Codec, OverAtMoment, Arriving;
    OverIsThere(tr, r, over);
    var round := Round(Connection(over, [], 0), false, true, over);
    var moment;
    printed, outcome, moment := WatchRun(tr, r, [round], encode, decode);
    NothingArrives(tr, r, round.connection, 0, encode);
    assert Reached(tr, r, [round], 1, encode) == 0 + Arriving(tr, r, round.connection, 0, encode);
    NothingSeen();
  }

  lemma OverIsThere(tr: Trace, r: string, moment: nat)
    requires OverAtMoment(tr, r, moment)
    ensures moment < |tr.states| && r in tr.states[moment].entries
  {
  }

  lemma NothingArrives(tr: Trace, r: string, c: Connection, after: nat, encode: Event -> string)
    requires c.cut == 0
    ensures Arriving(tr, r, c, after, encode) == 0
  {
    var items := Response(tr, r, c, after, encode);
    assert items != [] ==> |PrintItem(items[0])| > 0;
    assert Dispatchable(items, 0) == 0;
    NoTexts();
  }

  /** A stream that the server ended by itself holds the terminal event, so reading it whole prints it. */
  lemma CompleteHasEnd(tr: Trace, r: string, moment: nat)
    requires IsTrace(tr) && OverAtMoment(tr, r, moment)
    ensures exists i :: 0 <= i < |LogAtMoment(tr, r, moment)| && TerminalKind(Seen(LogAtMoment(tr, r, moment)[i]).kind)
  {
    hide IsTrace;
    OneTerminalEvent(tr, moment, r);
    var log := LogAtMoment(tr, r, moment);
    if forall i :: 0 <= i < |log| ==> !IsTerminalEvent(log[i].body) {
      NoTerminalEvent(log);
    }
    var i :| 0 <= i < |log| && IsTerminalEvent(log[i].body);
    assert TerminalKind(Seen(log[i]).kind);
  }

  lemma {:induction false} NoTerminalEvent(log: seq<Event>)
    requires forall i :: 0 <= i < |log| ==> !IsTerminalEvent(log[i].body)
    ensures Terminals(log) == []
  {
    if log != [] {
      NoTerminalEvent(log[..|log| - 1]);
    }
  }

  /** A client takes an event for the end of the run exactly when the server wrote it as such, or a node used its name. */
  lemma TerminalName(event: Event)
    ensures TerminalKind(Seen(event).kind) <==>
            IsTerminalEvent(event.body) || (event.body.EvFromNode? && TerminalKind(event.body.kind))
  {
    match event.body {
      case EvRecorded(subject, _) => match subject { case _ => }
      case _ =>
    }
  }
}

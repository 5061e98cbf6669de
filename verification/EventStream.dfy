/** Server-sent events, section 9.2 of the WHATWG HTML Living Standard, as the server prints and the client reads them. */
module EventStream {
  import opened Types
  import opened Numerals
  import opened Instructions

  // ------------------------------------------------------------------ printing

  /** What the server writes: an event under its sequence number, or a comment that keeps the connection alive. */
  datatype Item = Frame(sequence: nat, encoded: string) | KeepAlive

  function PrintItem(item: Item): string {
    match item
    case Frame(sequence, encoded) =>
      ("id: " + Decimal(sequence)) + "\n" + ("event: relay.event" + "\n" + (("data: " + encoded) + "\n" + "\n"))
    case KeepAlive => ": keepalive" + "\n" + "\n"
  }

  function Print(items: seq<Item>): string {
    if items == [] then "" else PrintItem(items[0]) + Print(items[1..])
  }

  function Texts(items: seq<Item>): seq<string> {
    if items == [] then []
    else (if items[0].Frame? then [items[0].encoded] else []) + Texts(items[1..])
  }

  /** What JSON encoding guarantees: one line without white space around it. */
  predicate Fit(encoded: string) {
    encoded != "" && '\n' !in encoded && !IsSpace(encoded[0]) && !IsSpace(encoded[|encoded| - 1])
  }

  predicate AllFit(items: seq<Item>) {
    forall i :: 0 <= i < |items| && items[i].Frame? ==> Fit(items[i].encoded)
  }

  // ------------------------------------------------------------------ reading

  function DropReturn(line: string): string {
    if line != "" && line[|line| - 1] == '\r' then line[..|line| - 1] else line
  }

  /** The text up to the first line feed. */
  function Head(bytes: string): (line: string)
    ensures line <= bytes && '\n' !in line
    ensures |line| < |bytes| ==> bytes[|line|] == '\n'
  {
    if bytes == "" || bytes[0] == '\n' then "" else [bytes[0]] + Head(bytes[1..])
  }

  const LINE_LIMIT := 2097152

  /** The lines the client's scanner yields: it stops at one that fills its buffer; a last line without a line
      feed counts, unless it is empty. */
  function Scan(bytes: string): seq<string>
    decreases |bytes|
  {
    if bytes == "" || |Head(bytes)| >= LINE_LIMIT then []
    else
      var line := Head(bytes);
      [line] + (if |line| < |bytes| then Scan(bytes[|line| + 1..]) else [])
  }

  /** The scanner meets a line that fills its buffer. */
  predicate Overflows(bytes: string)
    decreases |bytes|
  {
    bytes != "" &&
    (|Head(bytes)| >= LINE_LIMIT || (|Head(bytes)| < |bytes| && Overflows(bytes[|Head(bytes)| + 1..])))
  }

  /** The data collected since the last dispatch, and what was dispatched. */
  datatype Reader = Reader(data: string, texts: seq<string>)

  function ReadLine(r: Reader, raw: string): Reader {
    var line := DropReturn(raw);
    if line == "" then (if r.data == "" then r else Reader("", r.texts + [r.data]))
    else if "data:" <= line then r.(data := (if r.data == "" then "" else r.data + "\n") + TrimSpace(line[5..]))
    else r
  }

  function Read(r: Reader, lines: seq<string>): Reader
    decreases |lines|
  {
    if lines == [] then r else Read(ReadLine(r, lines[0]), lines[1..])
  }

  /** What a client dispatches from the bytes it received. */
  function Dispatched(bytes: string): seq<string> {
    Read(Reader("", []), Scan(bytes)).texts
  }

  // ------------------------------------------------------------------ one line after the other

  lemma HeadOf(line: string, rest: string)
    requires '\n' !in line
    ensures Head(line + "\n" + rest) == line
  {
    if line != "" {
      assert (line + "\n" + rest)[1..] == line[1..] + "\n" + rest;
      HeadOf(line[1..], rest);
    }
  }

  lemma NextLine(line: string, rest: string)
    requires '\n' !in line && |line| < LINE_LIMIT
    ensures Scan(line + "\n" + rest) == [line] + Scan(rest)
  {
    HeadOf(line, rest);
    assert (line + "\n" + rest)[|line| + 1..] == rest;
  }

  lemma LongLine(line: string, rest: string)
    requires '\n' !in line && |line| >= LINE_LIMIT
    ensures Scan(line + "\n" + rest) == []
  {
    HeadOf(line, rest);
  }

  lemma ReadNext(r: Reader, line: string, rest: string)
    requires '\n' !in line && |line| < LINE_LIMIT
    ensures Read(r, Scan(line + "\n" + rest)) == Read(ReadLine(r, line), Scan(rest))
  {
    NextLine(line, rest);
    assert ([line] + Scan(rest))[1..] == Scan(rest);
  }

  lemma TrimData(encoded: string)
    requires Fit(encoded)
    ensures TrimSpace([' '] + encoded) == encoded
  {
    assert ([' '] + encoded)[1..] == encoded;
  }

  lemma FrameLines(sequence: nat, encoded: string)
    requires Fit(encoded)
    ensures '\n' !in "id: " + Decimal(sequence) && '\n' !in "event: relay.event" && '\n' !in "data: " + encoded
  {
    DecimalDigits(sequence);
    assert '\n' !in "event: relay.event";
  }

  lemma ReadComment(r: Reader, line: string)
    requires line != "" && line[0] != '\r' && !("data:" <= line)
    ensures ReadLine(r, line) == r
  {
    if |line| > 1 && line[|line| - 1] == '\r' {
      var short := line[..|line| - 1];
      assert short <= line;
    }
  }

  lemma ReadData(texts: seq<string>, encoded: string)
    requires Fit(encoded)
    ensures ReadLine(Reader("", texts), "data: " + encoded) == Reader(encoded, texts)
  {
    var line := "data: " + encoded;
    assert line[|line| - 1] == encoded[|encoded| - 1] != '\r';
    assert line[..5] == "data:" && line[5..] == [' '] + encoded;
    TrimData(encoded);
  }

  /** No line of the item fills the client's buffer. */
  predicate ItemShort(item: Item) {
    item.Frame? ==> |"id: " + Decimal(item.sequence)| < LINE_LIMIT && |"data: " + item.encoded| < LINE_LIMIT
  }

  /** Reading one printed item and going on. */
  lemma ReadItem(item: Item, rest: string, texts: seq<string>)
    requires (item.Frame? ==> Fit(item.encoded)) && ItemShort(item)
    ensures Read(Reader("", texts), Scan(PrintItem(item) + rest)) == Read(Reader("", texts + Texts([item])), Scan(rest))
  {
    hide Read, Scan, ReadLine, Fit, Decimal;
    var r := Reader("", texts);
    match item {
      case KeepAlive =>
        assert PrintItem(item) + rest == ": keepalive" + "\n" + ("" + "\n" + rest);
        ReadNext(r, ": keepalive", "" + "\n" + rest);
        ReadComment(r, ": keepalive");
        ReadNext(r, "", rest);
        ReadBlank(r);
        assert Texts([item]) == [] && texts + [] == texts;
      case Frame(sequence, encoded) =>
        FrameLines(sequence, encoded);
        var l1, l2, l3 := "id: " + Decimal(sequence), "event: relay.event", "data: " + encoded;
        PrintedFrame(l1, l2, l3, rest);
        assert PrintItem(item) + rest == l1 + "\n" + (l2 + "\n" + (l3 + "\n" + ("" + "\n" + rest)));
        ReadNext(r, l1, l2 + "\n" + (l3 + "\n" + ("" + "\n" + rest)));
        ReadComment(r, l1);
        ReadNext(r, l2, l3 + "\n" + ("" + "\n" + rest));
        ReadComment(r, l2);
        ReadNext(r, l3, "" + "\n" + rest);
        ReadData(texts, encoded);
        ReadNext(Reader(encoded, texts), "", rest);
        ReadBlank(Reader(encoded, texts));
        FitText(encoded);
        FrameText(item);
    }
  }

  /** Nothing is dispatched of an item with too long a line, nor of anything behind it. */
  lemma ReadLong(item: Item, rest: string, texts: seq<string>)
    requires (item.Frame? ==> Fit(item.encoded)) && !ItemShort(item)
    ensures Read(Reader("", texts), Scan(PrintItem(item) + rest)).texts == texts
  {
    hide Scan, ReadLine, Fit, Decimal;
    var r := Reader("", texts);
    FrameLines(item.sequence, item.encoded);
    var l1, l2, l3 := "id: " + Decimal(item.sequence), "event: relay.event", "data: " + item.encoded;
    PrintedFrame(l1, l2, l3, rest);
    var third := l3 + "\n" + ("" + "\n" + rest);
    assert PrintItem(item) + rest == l1 + "\n" + (l2 + "\n" + third);
    if |l1| >= LINE_LIMIT {
      LongLine(l1, l2 + "\n" + third);
    } else {
      ReadNext(r, l1, l2 + "\n" + third);
      ReadComment(r, l1);
      ReadNext(r, l2, third);
      ReadComment(r, l2);
      LongLine(l3, "" + "\n" + rest);
    }
  }

  lemma PrintedFrame(l1: string, l2: string, l3: string, rest: string)
    ensures l1 + "\n" + (l2 + "\n" + (l3 + "\n" + "\n")) + rest == l1 + "\n" + (l2 + "\n" + (l3 + "\n" + ("" + "\n" + rest)))
  {
  }

  lemma FrameText(item: Item)
    requires item.Frame?
    ensures Texts([item]) == [item.encoded]
  {
    assert [item][1..] == [];
  }

  lemma ReadBlank(r: Reader)
    ensures ReadLine(r, "") == if r.data == "" then r else Reader("", r.texts + [r.data])
  {
  }

  lemma FitText(encoded: string)
    requires Fit(encoded)
    ensures encoded != ""
  {
  }

  lemma TextsNext(items: seq<Item>)
    requires items != []
    ensures Texts(items) == Texts([items[0]]) + Texts(items[1..])
  {
    assert [items[0]][1..] == [];
  }

  // ------------------------------------------------------------------ the parser inverts the printer

  /** A part of an item is read without dispatching anything. */
  lemma {:induction false} NoBlank(r: Reader, lines: seq<string>)
    requires forall i :: 0 <= i < |lines| ==> DropReturn(lines[i]) != ""
    ensures Read(r, lines).texts == r.texts
    decreases |lines|
  {
    if lines != [] { NoBlank(ReadLine(r, lines[0]), lines[1..]); }
  }

  /** Every line of a beginning of these lines begins one of them. */
  lemma {:induction false} BrokenLines(whole: seq<string>, part: string)
    requires part <= Joined(whole)
    requires forall i :: 0 <= i < |whole| ==> whole[i] != "" && whole[i][0] != '\r' && '\n' !in whole[i]
    ensures forall i :: 0 <= i < |Scan(part)| ==> DropReturn(Scan(part)[i]) != ""
  {
    if whole == [] || part == "" {
    } else if |part| <= |whole[0]| {
      assert part == whole[0][..|part|];
      HeadAll(part);
    } else {
      var rest := part[|whole[0]| + 1..];
      assert part == whole[0] + "\n" + rest;
      assert rest <= Joined(whole[1..]);
      if |whole[0]| < LINE_LIMIT {
        NextLine(whole[0], rest);
        BrokenLines(whole[1..], rest);
      } else {
        LongLine(whole[0], rest);
      }
    }
  }

  function Joined(lines: seq<string>): string {
    if lines == [] then "" else lines[0] + "\n" + Joined(lines[1..])
  }

  lemma HeadAll(line: string)
    requires '\n' !in line
    ensures Head(line) == line
  {
    if line != "" { HeadAll(line[1..]); }
  }

  lemma ItemLines(item: Item) returns (lines: seq<string>)
    requires item.Frame? ==> Fit(item.encoded)
    ensures PrintItem(item) == Joined(lines) + "\n"
    ensures forall i :: 0 <= i < |lines| ==> lines[i] != "" && lines[i][0] != '\r' && '\n' !in lines[i]
  {
    hide Decimal;
    match item {
      case KeepAlive =>
        lines := [": keepalive"];
        assert Joined(lines) == ": keepalive" + "\n" + Joined(lines[1..]);
      case Frame(sequence, encoded) =>
        FrameLines(sequence, encoded);
        lines := ["id: " + Decimal(sequence), "event: relay.event", "data: " + encoded];
        JoinedThree(lines[0], lines[1], lines[2]);
    }
  }

  lemma JoinedThree(a: string, b: string, c: string)
    ensures Joined([a, b, c]) + "\n" == a + "\n" + (b + "\n" + (c + "\n" + "\n"))
  {
    assert [a, b, c][1..] == [b, c] && [b, c][1..] == [c] && [c][1..] == [];
    assert Joined([c]) == c + "\n" + "" && Joined([b, c]) == b + "\n" + Joined([c]);
  }

  lemma ReadBroken(item: Item, part: string, texts: seq<string>)
    requires (item.Frame? ==> Fit(item.encoded)) && part <= PrintItem(item) && |part| < |PrintItem(item)|
    ensures Read(Reader("", texts), Scan(part)).texts == texts
  {
    hide PrintItem, Read, Scan, Fit;
    var lines := ItemLines(item);
    assert part == PrintItem(item)[..|part|] == Joined(lines)[..|part|];
    BrokenLines(lines, part);
    NoBlank(Reader("", texts), Scan(part));
  }

  /** How many items the first `n` bytes hold whole, up to one with too long a line. */
  function Dispatchable(items: seq<Item>, n: int): (whole: nat)
    ensures whole <= |items|
  {
    if items == [] || n < |PrintItem(items[0])| || !ItemShort(items[0]) then 0
    else 1 + Dispatchable(items[1..], n - |PrintItem(items[0])|)
  }

  /** The first `n` bytes, or all of them. */
  function Cut(bytes: string, n: nat): string {
    if n < |bytes| then bytes[..n] else bytes
  }

  lemma {:induction false} ReadCut(items: seq<Item>, n: nat, texts: seq<string>)
    requires AllFit(items)
    ensures Read(Reader("", texts), Scan(Cut(Print(items), n))).texts == texts + Texts(items[..Dispatchable(items, n)])
  {
    hide Read, Scan, PrintItem, Fit, ItemShort, Texts;
    var part := Cut(Print(items), n);
    NoTexts();
    if items == [] {
      NothingRead(texts);
      assert part == "" && items[..Dispatchable(items, n)] == [] && texts + [] == texts;
    } else if n < |PrintItem(items[0])| {
      assert part == PrintItem(items[0])[..n];
      ReadBroken(items[0], part, texts);
      assert items[..0] == [] && texts + [] == texts;
    } else {
      var m := n - |PrintItem(items[0])|;
      assert part == PrintItem(items[0]) + Cut(Print(items[1..]), m);
      if !ItemShort(items[0]) {
        ReadLong(items[0], Cut(Print(items[1..]), m), texts);
        assert items[..0] == [] && texts + [] == texts;
      } else {
        ReadItem(items[0], Cut(Print(items[1..]), m), texts);
        ReadCut(items[1..], m, texts + Texts([items[0]]));
        var whole := items[..Dispatchable(items, n)];
        assert whole[1..] == items[1..][..Dispatchable(items[1..], m)];
        TextsNext(whole);
        assert texts + Texts([items[0]]) + Texts(whole[1..]) == texts + Texts(whole);
      }
    }
  }

  lemma NothingRead(texts: seq<string>)
    ensures Scan("") == [] && Read(Reader("", texts), []) == Reader("", texts)
  {
  }

  /** Cut the stream anywhere: exactly the events printed whole, before any line that fills the client's buffer,
      are dispatched; an incomplete one is discarded. */
  lemma ParseCut(items: seq<Item>, n: nat)
    requires AllFit(items)
    ensures Dispatched(Cut(Print(items), n)) == Texts(items[..Dispatchable(items, n)])
  {
    hide Print, Texts, Scan, Read;
    ReadCut(items, n, []);
    assert [] + Texts(items[..Dispatchable(items, n)]) == Texts(items[..Dispatchable(items, n)]);
  }

  lemma {:induction false} PrintSplit(items: seq<Item>, i: nat)
    requires i <= |items|
    ensures Print(items) == Print(items[..i]) + Print(items[i..])
  {
    hide PrintItem;
    if i == 0 {
      assert items[0..] == items && items[..0] == [];
    } else {
      PrintSplit(items[1..], i - 1);
      assert items[..i][1..] == items[1..][..i - 1] && items[i..] == items[1..][i - 1..];
    }
  }

  lemma PrintLonger(items: seq<Item>, i: nat, j: nat)
    requires i <= j <= |items|
    ensures |Print(items[..i])| <= |Print(items[..j])|
  {
    hide Print;
    PrintSplit(items[..j], i);
    assert items[..j][..i] == items[..i];
  }

  lemma {:induction false} DispatchableIs(items: seq<Item>, n: int)
    requires n >= 0
    ensures var d := Dispatchable(items, n);
      && |Print(items[..d])| <= n && (forall i :: 0 <= i < d ==> ItemShort(items[i]))
      && (d < |items| ==> !ItemShort(items[d]) || |Print(items[..d + 1])| > n)
  {
    hide PrintItem, ItemShort;
    if items == [] || n < |PrintItem(items[0])| || !ItemShort(items[0]) {
      if items != [] {
        assert items[..1] == [items[0]];
        PrintOne(items[0]);
      }
    } else {
      var m := n - |PrintItem(items[0])|;
      var d := Dispatchable(items[1..], m);
      DispatchableIs(items[1..], m);
      assert items[..d + 1][1..] == items[1..][..d];
      if d + 1 < |items| {
        assert items[..d + 2][1..] == items[1..][..d + 1];
      }
    }
  }

  lemma PrintOne(item: Item)
    ensures Print([item]) == PrintItem(item)
  {
    assert [item][1..] == [];
  }

  /** The bytes up to the end of event number `k` arrive, and no line up to there fills the client's buffer. */
  ghost predicate FrameArrives(items: seq<Item>, n: int, k: nat) {
    exists j :: FrameAt(items, j, k) && |Print(items[..j + 1])| <= n && forall i :: 0 <= i <= j ==> ItemShort(items[i])
  }

  predicate FrameAt(items: seq<Item>, j: int, k: nat) {
    0 <= j < |items| && items[j].Frame? && |Texts(items[..j])| == k
  }

  lemma {:induction false} FindFrame(items: seq<Item>, k: nat) returns (j: nat)
    requires k < |Texts(items)|
    ensures FrameAt(items, j, k)
  {
    hide Texts;
    var n := |items|;
    if n == 0 {
      NoTexts();
    } else {
      var before := items[..n - 1];
      assert items == before + [items[n - 1]];
      LastText(before, items[n - 1]);
      if k < |Texts(before)| {
        j := FindFrame(before, k);
        assert items[..j] == before[..j];
      } else {
        j := n - 1;
      }
    }
  }

  lemma LastText(items: seq<Item>, item: Item)
    ensures Texts(items + [item]) == Texts(items) + if item.Frame? then [item.encoded] else []
  {
    TextsSplit(items + [item], |items|);
    assert (items + [item])[..|items|] == items && (items + [item])[|items|..] == [item];
    assert [item][1..] == [];
  }

  /** Event number `k` is dispatched exactly when all bytes up to its end arrive. */
  lemma CountArrives(items: seq<Item>, n: nat, k: nat)
    ensures k < |Texts(items[..Dispatchable(items, n)])| <==> FrameArrives(items, n, k)
  {
    hide Texts, Print, Dispatchable, ItemShort;
    var d := Dispatchable(items, n);
    DispatchableIs(items, n);
    if k < |Texts(items[..d])| {
      var j := FindFrame(items[..d], k);
      assert items[..d][..j] == items[..j];
      PrintLonger(items, j + 1, d);
      assert FrameAt(items, j, k);
    }
    if FrameArrives(items, n, k) {
      var j :| FrameAt(items, j, k) && |Print(items[..j + 1])| <= n && forall i :: 0 <= i <= j ==> ItemShort(items[i]);
      if d <= j { PrintLonger(items, d + 1, j + 1); }
      assert j < d;
      assert items[..d][..j + 1] == items[..j] + [items[j]];
      LastText(items[..j], items[j]);
      TextsSplit(items[..d], j + 1);
    }
  }

  /** Parsing a whole printed stream, with keepalives anywhere between its events, gives back exactly the events. */
  lemma ParsePrint(items: seq<Item>)
    requires AllFit(items) && forall i :: 0 <= i < |items| ==> ItemShort(items[i])
    ensures Dispatched(Print(items)) == Texts(items)
  {
    hide Print, Texts, Dispatchable, ItemShort, Fit, Dispatched;
    var n := |Print(items)|;
    ParseCut(items, n);
    WholeDispatchable(items, n);
    assert items[..|items|] == items;
  }

  lemma WholeDispatchable(items: seq<Item>, n: int)
    requires n >= |Print(items)| && forall i :: 0 <= i < |items| ==> ItemShort(items[i])
    ensures Dispatchable(items, n) == |items|
  {
    hide Print, ItemShort, Dispatchable;
    DispatchableIs(items, n);
    assert items[..|items|] == items;
    if Dispatchable(items, n) < |items| { PrintLonger(items, Dispatchable(items, n) + 1, |items|); }
  }

  lemma {:induction false} TextsSplit(items: seq<Item>, n: nat)
    requires n <= |items|
    ensures Texts(items) == Texts(items[..n]) + Texts(items[n..])
  {
    hide Texts;
    if n == 0 {
      NoTexts();
      assert items[..0] == [] && items[0..] == items && [] + Texts(items) == Texts(items);
    } else {
      TextsNext(items);
      TextsNext(items[..n]);
      assert items[..n][1..] == items[1..][..n - 1] && items[n..] == items[1..][n - 1..];
      TextsSplit(items[1..], n - 1);
    }
  }

  lemma NoTexts()
    ensures Texts([]) == []
  {
  }

  // ------------------------------------------------------------------ the client

  /** An event as the client decodes it. */
  datatype Received = Received(sequence: int, kind: string)

  predicate TerminalKind(kind: string) {
    kind == "run.succeeded" || kind == "run.failed" || kind == "run.cancelled"
  }

  datatype StreamEnd = Ended | Interrupted | LineTooLong | Undecodable | HandlerFailed

  /** Events after a cursor, each one beyond all before it. */
  function Select(events: seq<Received>, after: int): seq<Received> {
    if events == [] then []
    else if events[0].sequence > after then [events[0]] + Select(events[1..], events[0].sequence)
    else Select(events[1..], after)
  }

  function Cursor(events: seq<Received>, after: int): int {
    if events == [] then after
    else Cursor(events[1..], if events[0].sequence > after then events[0].sequence else after)
  }

  lemma {:induction false} SelectNext(events: seq<Received>, event: Received, after: int)
    ensures Select(events + [event], after) ==
            Select(events, after) + if event.sequence > Cursor(events, after) then [event] else []
    ensures Cursor(events + [event], after) ==
            if event.sequence > Cursor(events, after) then event.sequence else Cursor(events, after)
    decreases |events|
  {
    if events == [] {
      assert [event][1..] == [];
    } else {
      assert (events + [event])[1..] == events[1..] + [event];
      SelectNext(events[1..], event, if events[0].sequence > after then events[0].sequence else after);
    }
  }

  /** Handled events rise strictly above the cursor, so none is handled twice. */
  lemma {:induction false} SelectRises(events: seq<Received>, after: int)
    ensures forall i :: 0 <= i < |Select(events, after)| ==> Select(events, after)[i].sequence > after
    ensures forall i, j :: 0 <= i < j < |Select(events, after)| ==>
              Select(events, after)[i].sequence < Select(events, after)[j].sequence
    decreases |events|
  {
    if events != [] {
      SelectRises(events[1..], if events[0].sequence > after then events[0].sequence else after);
    }
  }

  lemma {:induction false} ReadAppend(r: Reader, lines: seq<string>, line: string)
    ensures Read(r, lines + [line]) == ReadLine(Read(r, lines), line)
    decreases |lines|
  {
    if lines == [] {
      assert [line][1..] == [];
    } else {
      assert (lines + [line])[1..] == lines[1..] + [line];
      ReadAppend(ReadLine(r, lines[0]), lines[1..], line);
    }
  }

  /** What `events` the dispatched texts decode to. */
  predicate Decodes(decode: string -> Option<Received>, texts: seq<string>, events: seq<Received>) {
    |events| == |texts| && forall i :: 0 <= i < |texts| ==> decode(texts[i]) == Some(events[i])
  }

  predicate TerminalSeen(handled: seq<Received>) {
    exists i :: 0 <= i < |handled| && TerminalKind(handled[i].kind)
  }

  lemma SeenNext(handled: seq<Received>, event: Received)
    ensures TerminalSeen(handled + [event]) <==> TerminalSeen(handled) || TerminalKind(event.kind)
  {
    if TerminalSeen(handled) {
      var i :| 0 <= i < |handled| && TerminalKind(handled[i].kind);
      assert (handled + [event])[i] == handled[i];
    }
    if TerminalKind(event.kind) {
      assert (handled + [event])[|handled|] == event;
    }
  }

  /** One line of the stream, as the client's loop takes it. */
  method TakeLine(data: string, line: string) returns (data': string, text: Option<string>)
    ensures forall texts :: ReadLine(Reader(data, texts), line) == Reader(data', texts + if text.Some? then [text.value] else [])
  {
    data', text := data, None;
    var l := DropReturn(line);
    if l == "" {
      if data == "" {
        assert forall texts: seq<string> :: texts + [] == texts;
        return;
      }
      return "", Some(data);
    }
    assert forall texts: seq<string> :: texts + [] == texts;
    if "data:" <= l {
      if data' != "" { data' := data' + "\n"; }
      data' := data' + TrimSpace(l[5..]);
    }
  }

  lemma LineGrows(r: Reader, line: string)
    ensures r.texts <= ReadLine(r, line).texts
  {
  }

  lemma {:induction false} TextsGrow(r: Reader, lines: seq<string>, l: nat)
    requires l <= |lines|
    ensures Read(r, lines[..l]).texts <= Read(r, lines).texts
    decreases |lines| - l
  {
    hide Read, ReadLine;
    if l == |lines| {
      assert lines[..l] == lines;
    } else {
      TextsGrow(r, lines, l + 1);
      ReadAppend(r, lines[..l], lines[l]);
      assert lines[..l + 1] == lines[..l] + [lines[l]];
      LineGrows(Read(r, lines[..l]), lines[l]);
    }
  }

  /** What the client knows after some lines: the reader's state, and what the dispatched texts came to. */
  ghost predicate CaughtUp(lines: seq<string>, decode: string -> Option<Received>, cursor: int,
                           r: Reader, events: seq<Received>, handled: seq<Received>, after: int, terminal: bool) {
    && r == Read(Reader("", []), lines) && Decodes(decode, r.texts, events)
    && handled == Select(events, cursor) && after == Cursor(events, cursor) && (terminal <==> TerminalSeen(handled))
  }

  lemma TakeNext<T>(s: seq<T>, n: nat)
    requires n < |s|
    ensures s[..n + 1] == s[..n] + [s[n]]
  {
  }

  lemma ReadStep(lines: seq<string>, l: nat)
    requires l < |lines|
    ensures ReadLine(Read(Reader("", []), lines[..l]), lines[l]) == Read(Reader("", []), lines[..l + 1])
  {
    hide ReadLine, Read;
    TakeNext(lines, l);
    ReadAppend(Reader("", []), lines[..l], lines[l]);
  }

  lemma CaughtUpLine(lines: seq<string>, l: nat, decode: string -> Option<Received>, cursor: int, r: Reader, r': Reader,
                     events: seq<Received>, handled: seq<Received>, after: int, terminal: bool)
    requires l < |lines| && CaughtUp(lines[..l], decode, cursor, r, events, handled, after, terminal)
    requires r' == ReadLine(r, lines[l])
    ensures r' == Read(Reader("", []), lines[..l + 1]) && r'.texts <= Read(Reader("", []), lines).texts
    ensures r'.texts == r.texts ==> CaughtUp(lines[..l + 1], decode, cursor, r', events, handled, after, terminal)
  {
    hide ReadLine, Read, Select, Cursor, TerminalSeen, Decodes;
    ReadStep(lines, l);
    TextsGrow(Reader("", []), lines, l + 1);
  }

  lemma CaughtUpEvent(lines: seq<string>, decode: string -> Option<Received>, cursor: int, r: Reader, r': Reader, text: string,
                      events: seq<Received>, handled: seq<Received>, after: int, terminal: bool, event: Received)
    requires r' == Read(Reader("", []), lines) && r'.texts == r.texts + [text] && decode(text) == Some(event)
    requires Decodes(decode, r.texts, events) && handled == Select(events, cursor) && after == Cursor(events, cursor)
    requires terminal <==> TerminalSeen(handled)
    ensures event.sequence > after ==>
              CaughtUp(lines, decode, cursor, r', events + [event], handled + [event], event.sequence, terminal || TerminalKind(event.kind))
    ensures event.sequence <= after ==> CaughtUp(lines, decode, cursor, r', events + [event], handled, after, terminal)
  {
    hide Read, Select, Cursor, TerminalSeen;
    SelectNext(events, event, cursor);
    SeenNext(handled, event);
    assert handled + [] == handled;
  }

  /** Reads a connection to its end, handing on every event beyond the cursor; `failing` is the place
      of the event at which the handler gives up, if any. */
  method StreamEvents(bytes: string, cursor: int, decode: string -> Option<Received>, failing: int)
    returns (handled: seq<Received>, end: StreamEnd, ghost events: seq<Received>)
    ensures |events| <= |Dispatched(bytes)| && Decodes(decode, Dispatched(bytes)[..|events|], events)
    ensures handled == Select(events, cursor)
    ensures end.Ended? || end.Interrupted? || end.LineTooLong? ==> |events| == |Dispatched(bytes)|
    ensures end.Ended? || end.Interrupted? ==> !Overflows(bytes)
    ensures end.Ended? ==> TerminalSeen(handled)
    ensures end.Interrupted? ==> !TerminalSeen(handled)
    ensures end.Undecodable? ==> |events| < |Dispatched(bytes)| && decode(Dispatched(bytes)[|events|]).None?
    ensures end.HandlerFailed? ==> |handled| == failing + 1 > 0
    ensures end.LineTooLong? ==> Overflows(bytes)
  {
    hide Read, ReadLine, Scan, Select, Cursor, TerminalSeen;
    var after, data, terminal := cursor, "", false;
    handled, events := [], [];
    var lines := Scan(bytes);
    ghost var r := Reader("", []);
    Beginning(decode, cursor);
    assert lines[..0] == [];
    for l := 0 to |lines|
      invariant CaughtUp(lines[..l], decode, cursor, r, events, handled, after, terminal) && r.data == data
      invariant r.texts <= Dispatched(bytes)
    {
      var taken, text := TakeLine(data, lines[l]);
      ghost var r' := Reader(taken, r.texts + if text.Some? then [text.value] else []);
      CaughtUpLine(lines, l, decode, cursor, r, r', events, handled, after, terminal);
      if text.Some? {
        var event := decode(text.value);
        if event.None? { return handled, Undecodable, events; }
        CaughtUpEvent(lines[..l + 1], decode, cursor, r, r', text.value, events, handled, after, terminal, event.value);
        events := events + [event.value];
        if event.value.sequence > after {
          after := event.value.sequence;
          handled := handled + [event.value];
          if |handled| == failing + 1 { return handled, HandlerFailed, events; }
          terminal := terminal || TerminalKind(event.value.kind);
        }
      }
      r, data := r', taken;
    }
    assert lines[..|lines|] == lines;
    end := if Overflows(bytes) then LineTooLong else if terminal then Ended else Interrupted;
  }

  lemma Beginning(decode: string -> Option<Received>, cursor: int)
    ensures CaughtUp([], decode, cursor, Reader("", []), [], [], cursor, false)
  {
  }
}

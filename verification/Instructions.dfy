/** The managed instruction block: compiling it, and splicing it into a file others also write. */
module Instructions {
  import opened Types

  // ------------------------------------------------------------------ searching

  predicate At(s: string, sub: string, i: int) {
    0 <= i && i + |sub| <= |s| && s[i..i + |sub|] == sub
  }

  ghost predicate Contains(s: string, sub: string) {
    exists i :: At(s, sub, i)
  }

  lemma AtShifts(s: string, sub: string, i: int)
    requires s != "" && i > 0
    ensures At(s, sub, i) <==> At(s[1..], sub, i - 1)
  {
    if i + |sub| <= |s| {
      assert s[i..i + |sub|] == s[1..][i - 1..i - 1 + |sub|];
    }
  }

  lemma AtTail(s: string, sub: string)
    requires s != ""
    ensures forall i :: At(s, sub, i) && i > 0 ==> At(s[1..], sub, i - 1)
    ensures forall i :: At(s[1..], sub, i) ==> At(s, sub, i + 1)
  {
    forall i | At(s, sub, i) && i > 0
      ensures At(s[1..], sub, i - 1)
    {
      AtShifts(s, sub, i);
    }
    forall i | At(s[1..], sub, i)
      ensures At(s, sub, i + 1)
    {
      AtShifts(s, sub, i + 1);
    }
  }

  /** The first place where `sub` occurs, or -1. */
  function Index(s: string, sub: string): (first: int)
    ensures first == -1 || At(s, sub, first)
    ensures forall i :: At(s, sub, i) ==> 0 <= first <= i
  {
    if At(s, sub, 0) then 0
    else if s == "" then -1
    else
      AtTail(s, sub);
      var rest := Index(s[1..], sub);
      assert forall i :: At(s, sub, i) ==> i > 0 && At(s[1..], sub, i - 1);
      if rest < 0 then -1 else rest + 1
  }

  /** An occurrence does not reach over a character it does not have. */
  lemma NotAcross(a: string, c: char, b: string, sub: string, i: int)
    requires c !in sub && At(a + [c] + b, sub, i)
    ensures i + |sub| <= |a| || i > |a| || sub == ""
    ensures i + |sub| <= |a| ==> At(a, sub, i)
    ensures i > |a| ==> At(b, sub, i - |a| - 1)
  {
    var s := a + [c] + b;
    assert forall k :: 0 <= k < |sub| ==> sub[k] == s[i + k];
    assert s[|a|] == c;
    if i + |sub| <= |a| {
      assert s[i..i + |sub|] == a[i..i + |sub|];
    }
    if i > |a| {
      assert s[i..i + |sub|] == b[i - |a| - 1..i - |a| - 1 + |sub|];
    }
  }

  lemma ContainsAround(a: string, c: char, b: string, sub: string)
    requires c !in sub && sub != ""
    ensures Contains(a + [c] + b, sub) <==> Contains(a, sub) || Contains(b, sub)
  {
    var s := a + [c] + b;
    if Contains(s, sub) {
      var i :| At(s, sub, i);
      NotAcross(a, c, b, sub, i);
    }
    if Contains(a, sub) {
      var i :| At(a, sub, i);
      assert s[i..i + |sub|] == a[i..i + |sub|];
      assert At(s, sub, i);
    }
    if Contains(b, sub) {
      var i :| At(b, sub, i);
      assert s[|a| + 1 + i..|a| + 1 + i + |sub|] == b[i..i + |sub|];
      assert At(s, sub, |a| + 1 + i);
    }
  }

  lemma NeedsFirst(s: string, sub: string)
    requires sub != "" && sub[0] !in s
    ensures !Contains(s, sub)
  {
    assert forall i :: At(s, sub, i) ==> s[i] == s[i..i + |sub|][0];
  }

  // ------------------------------------------------------------------ the markers

  const NAME := "RELAY-RUNTIME"
  const BEGIN_TEXT := "!-- BEGIN " + NAME + (" (auto-managed; " + "do not edit) --")
  const END_TEXT := "!-- END " + NAME + " --"
  const BEGIN := "<" + BEGIN_TEXT + ">"
  const END := "<" + END_TEXT + ">"

  predicate Plain(s: string) {
    '<' !in s && '>' !in s && '\n' !in s && '#' !in s
  }

  lemma PlainBegin()
    ensures Plain("!-- BEGIN ") && "!-- BEGIN "[4] == 'B'
  {
  }

  lemma PlainEnd()
    ensures Plain("!-- END ") && "!-- END "[4] == 'E' && Plain(" --")
  {
  }

  lemma PlainName()
    ensures Plain(NAME)
  {
  }

  lemma PlainNote()
    ensures Plain(" (auto-managed; ")
  {
  }

  lemma PlainPlea()
    ensures Plain("do not edit) --")
  {
  }

  /** Neither marker spans lines, and angle brackets stand at their ends only. */
  lemma Markers()
    ensures Plain(BEGIN_TEXT) && Plain(END_TEXT)
    ensures |BEGIN_TEXT| > 4 && |END_TEXT| > 4 && BEGIN_TEXT[4] == 'B' && END_TEXT[4] == 'E'
  {
    PlainBegin();
    PlainEnd();
    PlainName();
    PlainNote();
    PlainPlea();
  }

  /** The shape of a marker, without its letters. */
  ghost predicate MarkerShape(begin: string, end: string) {
    && |begin| > 6 && |end| > 6 && begin[0] == '<' && end[0] == '<'
    && begin[|begin| - 1] == '>' && end[|end| - 1] == '>' && begin[5] != end[5]
    && (forall i :: 0 < i < |begin| ==> begin[i] != '<') && (forall i :: 0 <= i < |begin| - 1 ==> begin[i] != '>')
    && '\n' !in begin && '\n' !in end && '#' !in end && ' ' != end[0]
  }

  lemma MarkersShaped()
    ensures MarkerShape(BEGIN, END)
  {
    Markers();
    var b, e := BEGIN_TEXT, END_TEXT;
    assert BEGIN == "<" + b + ">" && END == "<" + e + ">";
    BracketsShape(b, e);
  }

  lemma BracketsShape(b: string, e: string)
    requires Plain(b) && Plain(e) && |b| > 4 && |e| > 4 && b[4] != e[4]
    ensures MarkerShape("<" + b + ">", "<" + e + ">")
  {
    var begin, end := "<" + b + ">", "<" + e + ">";
    assert forall i :: 0 < i < |begin| - 1 ==> begin[i] == b[i - 1];
    assert begin[5] == b[4] && end[5] == e[4];
  }

  /** A closing marker never begins inside an opening one. */
  lemma EndAfterBegin(begin: string, end: string, rest: string, i: int)
    requires MarkerShape(begin, end) && At(begin + rest, end, i)
    ensures i >= |begin|
  {
    var s := begin + rest;
    assert forall k :: 0 <= k < |end| ==> end[k] == s[i + k];
    assert s[i + 5] == end[5] && s[i] == end[0];
  }

  /** Before the first opening marker there is none, not even one that reaches into it. */
  lemma FirstBegin(begin: string, end: string, before: string, rest: string)
    requires MarkerShape(begin, end) && !Contains(before, begin)
    ensures Index(before + begin + rest, begin) == |before|
  {
    var s := before + begin + rest;
    assert s[|before|..|before| + |begin|] == begin;
    assert At(s, begin, |before|);
    var i := Index(s, begin);
    assert forall k :: 0 <= k < |begin| ==> begin[k] == s[i + k] == s[i..i + |begin|][k];
    assert forall k :: |before| <= k < |before| + |begin| ==> s[k] == begin[k - |before|];
    PrefixAt(before, begin + rest, begin);
    assert s == before + (begin + rest);
  }

  lemma PrefixAt(before: string, rest: string, sub: string)
    ensures forall i :: At(before + rest, sub, i) && i + |sub| <= |before| ==> At(before, sub, i)
  {
    forall i | At(before + rest, sub, i) && i + |sub| <= |before|
      ensures At(before, sub, i)
    {
      assert before[i..i + |sub|] == (before + rest)[i..i + |sub|];
    }
  }

  // ------------------------------------------------------------------ the splice

  function TrimNewlines(s: string): (t: string)
    ensures t <= s && (t == "" || t[|t| - 1] != '\n')
  {
    if s != "" && s[|s| - 1] == '\n' then TrimNewlines(s[..|s| - 1]) else s
  }

  function Block(stable: string): string {
    BEGIN + "\n" + TrimNewlines(stable) + "\n" + END + "\n"
  }

  /** Where the managed block ends, with the newline after it; None when its closing marker is missing. */
  function BlockEnd(content: string, start: nat): (end: Option<nat>)
    requires start <= |content|
    ensures end.Some? ==> start < end.value <= |content|
  {
    var e := Index(content[start..], END);
    if e < 0 then None
    else
      var end := start + e + |END|;
      Some(if end < |content| && content[end] == '\n' then end + 1 else end)
  }

  /** The new content of the file; None is the error of an incomplete marker. */
  function Materialize(existing: Option<string>, stable: string): Option<string> {
    match existing
    case None => Some(Block(stable))
    case Some(content) =>
      var start := Index(content, BEGIN);
      if start >= 0 then
        var end := BlockEnd(content, start);
        if end.None? then None else Some(content[..start] + Block(stable) + content[end.value..])
      else Some(content + (if content == "" then "" else "\n\n") + Block(stable))
  }

  /** The text cannot close the block by itself. */
  ghost predicate Clean(stable: string) {
    !Contains(TrimNewlines(stable), END)
  }

  /** A closing marker in a block stands behind its text or in it. */
  lemma EndPlaces(begin: string, end: string, text: string, after: string, e: int)
    requires MarkerShape(begin, end) && At(begin + "\n" + text + "\n" + end + after, end, e)
    ensures e >= |begin| + 1 + |text| + 1 || (At(text, end, e - |begin| - 1) && e + |end| <= |begin| + 1 + |text|)
  {
    hide At;
    var tail := text + "\n" + end + after;
    var s := begin + "\n" + text + "\n" + end + after;
    assert s == begin + ['\n'] + tail && tail == text + ['\n'] + (end + after) && s == begin + ("\n" + tail);
    EndAfterBegin(begin, end, "\n" + tail, e);
    NotAcross(begin, '\n', tail, end, e);
    NotAcross(text, '\n', end + after, end, e - |begin| - 1);
  }

  lemma EndThere(begin: string, end: string, text: string, after: string)
    ensures At(begin + "\n" + text + "\n" + end + after, end, |begin| + 1 + |text| + 1)
    ensures forall i :: At(text, end, i) ==> At(begin + "\n" + text + "\n" + end + after, end, |begin| + 1 + i)
  {
    var s := begin + "\n" + text + "\n" + end + after;
    var at := |begin| + 1 + |text| + 1;
    assert s[at..at + |end|] == end;
    forall i | At(text, end, i)
      ensures At(s, end, |begin| + 1 + i)
    {
      assert s[|begin| + 1 + i..|begin| + 1 + i + |end|] == text[i..i + |end|];
    }
  }

  /** Where the first closing marker of a block is: after the text, or inside it. */
  lemma FirstEnd(begin: string, end: string, text: string, after: string)
    requires MarkerShape(begin, end)
    ensures var e := Index(begin + "\n" + text + "\n" + end + after, end);
      && (!Contains(text, end) ==> e == |begin| + 1 + |text| + 1)
      && (Contains(text, end) ==> 0 <= e && e + |end| <= |begin| + 1 + |text|)
  {
    EndThere(begin, end, text, after);
    EndPlaces(begin, end, text, after, Index(begin + "\n" + text + "\n" + end + after, end));
    if i :| At(text, end, i) {
      AtFits(text, end, i);
    }
    hide At;
  }

  lemma AtFits(s: string, sub: string, i: int)
    requires At(s, sub, i)
    ensures 0 <= i && i + |sub| <= |s|
  {
  }

  lemma WrittenBegin(before: string, stable: string, after: string)
    requires !Contains(before, BEGIN)
    ensures Index(before + Block(stable) + after, BEGIN) == |before|
  {
    hide Contains, Index, TrimNewlines, At, MarkerShape;
    MarkersShaped();
    var text := TrimNewlines(stable);
    var rest := "\n" + text + "\n" + END + ("\n" + after);
    Regroup(before, BEGIN, text, END, after);
    FirstBegin(BEGIN, END, before, rest);
  }

  lemma Regroup(before: string, begin: string, text: string, end: string, after: string)
    ensures before + (begin + "\n" + text + "\n" + end + "\n") + after
         == before + begin + ("\n" + text + "\n" + end + ("\n" + after))
  {
  }

  /** Reading back what was written: the block is found where it was put, and found whole exactly when the text is clean. */
  lemma Written(before: string, stable: string, after: string)
    requires !Contains(before, BEGIN)
    ensures var content := before + Block(stable) + after; var end := BlockEnd(content, |before|);
      && Index(content, BEGIN) == |before| && end.Some?
      && (Clean(stable) ==> end.value == |before| + |Block(stable)|)
      && (!Clean(stable) ==> end.value < |before| + |Block(stable)|)
  {
    hide Contains, Index, TrimNewlines, At, MarkerShape;
    WrittenBegin(before, stable, after);
    MarkersShaped();
    var text := TrimNewlines(stable);
    var content := before + Block(stable) + after;
    FirstEnd(BEGIN, END, text, "\n" + after);
    WrittenTail(before, BEGIN, text, END, after);
  }

  lemma WrittenTail(before: string, begin: string, text: string, end: string, after: string)
    ensures var content := before + (begin + "\n" + text + "\n" + end + "\n") + after;
      && content[|before|..] == begin + "\n" + text + "\n" + end + ("\n" + after)
      && content[|before| + |begin| + 1 + |text| + 1 + |end|] == '\n'
  {
  }

  /** What a file holds around the place of the managed block. */
  datatype Around = Around(before: string, after: string)

  function Outside(existing: Option<string>): Option<Around> {
    match existing
    case None => Some(Around("", ""))
    case Some(content) =>
      var start := Index(content, BEGIN);
      if start < 0 then Some(Around(content + (if content == "" then "" else "\n\n"), ""))
      else
        var end := BlockEnd(content, start);
        if end.None? then None else Some(Around(content[..start], content[end.value..]))
  }

  lemma OutsideUnmarked(existing: Option<string>)
    ensures Outside(existing).Some? ==> !Contains(Outside(existing).value.before, BEGIN)
    ensures existing.Some? && Outside(existing).None? ==> Contains(existing.value, BEGIN)
  {
    MarkersShaped();
    if existing.Some? {
      var content := existing.value;
      var start := Index(content, BEGIN);
      if start < 0 {
        NothingIn("", BEGIN);
        assert !Contains(content, BEGIN);
        ContainsAround(content, '\n', "", BEGIN);
        ContainsAround(content + ['\n'], '\n', "", BEGIN);
        assert content + ['\n'] + "" == content + ['\n'];
        assert (content + ['\n']) + ['\n'] + "" == content + "\n\n";
      } else {
        forall i | At(content[..start], BEGIN, i)
          ensures At(content, BEGIN, i)
        {
          assert content[..start][i..i + |BEGIN|] == content[i..i + |BEGIN|];
        }
      }
    } else {
      NothingIn("", BEGIN);
    }
  }

  lemma NothingIn(s: string, sub: string)
    requires |s| < |sub|
    ensures !Contains(s, sub)
  {
  }

  lemma MaterializeIsSplice(existing: Option<string>, stable: string)
    ensures Materialize(existing, stable) ==
            if Outside(existing).None? then None
            else Some(Outside(existing).value.before + Block(stable) + Outside(existing).value.after)
  {
    hide Index, BlockEnd, Block;
    assert Block(stable) == "" + Block(stable) + "";
    if existing.Some? {
      var before := existing.value + (if existing.value == "" then "" else "\n\n");
      assert before + Block(stable) == before + Block(stable) + "";
    }
  }

  /** Everything outside the block survives a write, and is found again, exactly when the text is clean. */
  lemma OutsideSurvives(existing: Option<string>, stable: string)
    requires Outside(existing).Some?
    ensures Materialize(existing, stable).Some? && Outside(Materialize(existing, stable)).Some?
    ensures Outside(Materialize(existing, stable)) == Outside(existing) <==> Clean(stable)
  {
    hide Index, Block, BlockEnd, Materialize, Contains, TrimNewlines, Clean;
    OutsideUnmarked(existing);
    MaterializeIsSplice(existing, stable);
    var around := Outside(existing).value;
    Written(around.before, stable, around.after);
    var content := around.before + Block(stable) + around.after;
    assert content[..|around.before|] == around.before;
    assert content[|around.before| + |Block(stable)|..] == around.after;
  }

  /** Writing twice is writing the second text only, whatever the second text, exactly when the first is clean. */
  lemma PutPut(existing: Option<string>, first: string, second: string)
    requires Outside(existing).Some?
    ensures Materialize(existing, first).Some?
    ensures Materialize(Materialize(existing, first), second) == Materialize(existing, second) <==> Clean(first)
  {
    hide Index, Block, BlockEnd, Materialize, Contains, TrimNewlines, Clean;
    OutsideSurvives(existing, first);
    MaterializeIsSplice(existing, second);
    MaterializeIsSplice(Materialize(existing, first), second);
    if !Clean(first) {
      LeftoverIsLonger(existing, first);
    }
  }

  /** A text that closes the block early leaves its rest behind the block. */
  lemma LeftoverIsLonger(existing: Option<string>, stable: string)
    requires Outside(existing).Some? && !Clean(stable)
    ensures Outside(Materialize(existing, stable)).Some?
    ensures var around, around' := Outside(existing).value, Outside(Materialize(existing, stable)).value;
      around'.before == around.before && |around'.after| > |around.after|
  {
    hide Index, Block, BlockEnd, Materialize, Contains, TrimNewlines, Clean;
    OutsideUnmarked(existing);
    MaterializeIsSplice(existing, stable);
    var around := Outside(existing).value;
    Written(around.before, stable, around.after);
    var content := around.before + Block(stable) + around.after;
    assert content[..|around.before|] == around.before;
  }

  /** The text between the first opening marker and the first closing marker behind it. */
  function ManagedText(content: string): Option<string> {
    var start := Index(content, BEGIN);
    if start < 0 then None
    else
      var e := Index(content[start..], END);
      if e < |BEGIN| + 2 then None else Some(content[start + |BEGIN| + 1..start + e - 1])
  }

  lemma TextBetween(before: string, begin: string, text: string, end: string, after: string, e: int)
    requires |begin| + 2 <= e <= |begin| + 1 + |text| + 1
    ensures var content := before + (begin + "\n" + text + "\n" + end + "\n") + after;
      |before| + e - 1 <= |content| && content[|before| + |begin| + 1..|before| + e - 1] == text[..e - |begin| - 2]
  {
    var content := before + (begin + "\n" + text + "\n" + end + "\n") + after;
    var n := e - |begin| - 2;
    assert content == (before + begin + "\n") + text + ("\n" + end + "\n" + after);
    assert forall i :: 0 <= i < n ==> content[|before| + |begin| + 1 + i] == text[i];
  }

  lemma ManagedBlock(before: string, stable: string, after: string)
    requires !Contains(before, BEGIN)
    ensures ManagedText(before + Block(stable) + after) == Some(TrimNewlines(stable)) <==> Clean(stable)
  {
    hide Contains, Index, TrimNewlines, At, MarkerShape;
    WrittenBegin(before, stable, after);
    MarkersShaped();
    var text := TrimNewlines(stable);
    FirstEnd(BEGIN, END, text, "\n" + after);
    WrittenTail(before, BEGIN, text, END, after);
    var e := Index(BEGIN + "\n" + text + "\n" + END + ("\n" + after), END);
    if |BEGIN| + 2 <= e { TextBetween(before, BEGIN, text, END, after, e); }
    assert text[..|text|] == text;
  }

  /** What was written is read back, whatever the file held before, exactly when the text is clean. */
  lemma PutGet(existing: Option<string>, stable: string)
    requires Outside(existing).Some?
    ensures Materialize(existing, stable).Some?
    ensures ManagedText(Materialize(existing, stable).value) == Some(TrimNewlines(stable)) <==> Clean(stable)
  {
    hide Index, Block, BlockEnd, Materialize, Contains, TrimNewlines, Clean, ManagedText;
    OutsideUnmarked(existing);
    MaterializeIsSplice(existing, stable);
    ManagedBlock(Outside(existing).value.before, stable, Outside(existing).value.after);
  }

  /** Repeating a write changes nothing exactly when the text is clean. */
  lemma RewriteIsIdle(existing: Option<string>, stable: string)
    requires Outside(existing).Some?
    ensures Materialize(Materialize(existing, stable), stable) == Materialize(existing, stable) <==> Clean(stable)
  {
    PutPut(existing, stable, stable);
  }

  /** A text with the closing marker in it, written to a new file twice, grows the file. */
  lemma UncleanGrows()
    ensures !Clean(END) && Materialize(Materialize(None, END), END) != Materialize(None, END)
  {
    MarkersShaped();
    assert END[|END| - 1] != '\n';
    assert TrimNewlines(END) == END;
    assert At(END, END, 0);
    hide Materialize, Clean;
    RewriteIsIdle(None, END);
  }

  /** The write fails exactly on a file whose first opening marker has no closing marker behind it. */
  lemma IncompleteMarker(content: string, stable: string)
    ensures Materialize(Some(content), stable).None? <==>
            Contains(content, BEGIN) && !Contains(content[Index(content, BEGIN)..], END)
  {
  }

  // ------------------------------------------------------------------ compiling

  /** White space as Unicode defines it. */
  predicate IsSpace(c: char) {
    var n := c as int;
    9 <= n <= 13 || n == 0x20 || n == 0x85 || n == 0xA0 || n == 0x1680 || 0x2000 <= n <= 0x200A
    || n == 0x2028 || n == 0x2029 || n == 0x202F || n == 0x205F || n == 0x3000
  }

  function TrimSpace(s: string): (t: string)
    ensures t == "" || (!IsSpace(t[0]) && !IsSpace(t[|t| - 1]))
  {
    if s == "" then ""
    else if IsSpace(s[0]) then TrimSpace(s[1..])
    else if IsSpace(s[|s| - 1]) then TrimSpace(s[..|s| - 1])
    else s
  }

  datatype Fragment = Fragment(id: string, title: string, content: string)

  datatype Bundle = Bundle(
    runtime: seq<Fragment>, host: seq<Fragment>, workspace: seq<Fragment>, agent: seq<Fragment>, turn: seq<Fragment>)

  function Heading(f: Fragment): string {
    if TrimSpace(f.title) == "" then TrimSpace(f.id) else TrimSpace(f.title)
  }

  function Rendered(f: Fragment): string {
    if TrimSpace(f.content) == "" then "" else "\n\n## " + Heading(f) + "\n\n" + TrimSpace(f.content) + "\n"
  }

  function Sections(fragments: seq<Fragment>): string {
    if fragments == [] then "" else Sections(fragments[..|fragments| - 1]) + Rendered(fragments[|fragments| - 1])
  }

  const OPENING := "# Relay Runtime\n\n" + ("This execution is managed " + "by Relay. Return durable ") +
                   ("results before the " + "top-level agent process " + "exits.")

  function Stable(bundle: Bundle): string {
    TrimNewlines(OPENING + "\n" + Sections(bundle.runtime + bundle.host + bundle.workspace + bundle.agent)) + "\n"
  }

  method AppendInstruction(builder: string, f: Fragment) returns (longer: string)
    ensures longer == builder + Rendered(f)
  {
    var content := TrimSpace(f.content);
    if content == "" { return builder; }
    var title := TrimSpace(f.title);
    if title == "" { title := TrimSpace(f.id); }
    longer := builder + "\n\n## ";
    longer := longer + title;
    longer := longer + "\n\n";
    longer := longer + content;
    longer := longer + "\n";
    assert longer == builder + Rendered(f);
  }

  lemma {:induction false} SectionsJoin(a: seq<Fragment>, b: seq<Fragment>)
    ensures Sections(a + b) == Sections(a) + Sections(b)
  {
    hide Rendered, Sections;
    if b == [] {
      NoSections();
      assert a + b == a && Sections(a) + "" == Sections(a);
    } else {
      var n := |b| - 1;
      var last := Rendered(b[n]);
      SectionsJoin(a, b[..n]);
      WithoutLast(a, b);
      SectionsNext(a + b);
      SectionsNext(b);
      Reassociate(Sections(a), Sections(b[..n]), last);
    }
  }

  lemma WithoutLast<T>(a: seq<T>, b: seq<T>)
    requires b != []
    ensures (a + b)[..|a + b| - 1] == a + b[..|b| - 1] && (a + b)[|a + b| - 1] == b[|b| - 1]
  {
  }

  lemma Reassociate(a: string, b: string, c: string)
    ensures (a + b) + c == a + (b + c)
  {
  }

  lemma SectionsNext(fragments: seq<Fragment>)
    requires fragments != []
    ensures Sections(fragments) == Sections(fragments[..|fragments| - 1]) + Rendered(fragments[|fragments| - 1])
  {
    hide Rendered;
  }

  method AppendLayer(builder: string, layer: seq<Fragment>) returns (longer: string)
    ensures longer == builder + Sections(layer)
  {
    hide Rendered, Sections;
    longer := builder;
    NoSections();
    for i := 0 to |layer|
      invariant longer == builder + Sections(layer[..i])
    {
      SectionsNext(layer[..i + 1]);
      assert layer[..i + 1][..i] == layer[..i];
      longer := AppendInstruction(longer, layer[i]);
    }
    assert layer[..|layer|] == layer;
  }

  lemma NoSections()
    ensures Sections([]) == ""
  {
  }

  /** The layers in their order, each fragment after the one before it. */
  method Compile(input: string, bundle: Bundle) returns (stable: string, prompt: string)
    ensures stable == Stable(bundle)
    ensures prompt == TrimSpace(TrimSpace(input) + Sections(bundle.turn)) + "\n"
  {
    hide Rendered, TrimSpace, TrimNewlines, Sections;
    stable := OPENING + "\n";
    var layers := [bundle.runtime, bundle.host, bundle.workspace, bundle.agent];
    ghost var written: seq<Fragment> := [];
    NoSections();
    for l := 0 to |layers|
      invariant stable == OPENING + "\n" + Sections(written) && written == Joined(layers[..l])
    {
      SectionsJoin(written, layers[l]);
      assert layers[..l + 1][..l] == layers[..l];
      stable := AppendLayer(stable, layers[l]);
      written := written + layers[l];
    }
    assert layers[..4] == layers;
    JoinedFour(bundle.runtime, bundle.host, bundle.workspace, bundle.agent);
    stable := TrimNewlines(stable) + "\n";
    prompt := AppendLayer(TrimSpace(input), bundle.turn);
    prompt := TrimSpace(prompt) + "\n";
  }

  ghost function Joined(layers: seq<seq<Fragment>>): seq<Fragment> {
    if layers == [] then [] else Joined(layers[..|layers| - 1]) + layers[|layers| - 1]
  }

  lemma JoinedFour(a: seq<Fragment>, b: seq<Fragment>, c: seq<Fragment>, d: seq<Fragment>)
    ensures Joined([a, b, c, d]) == a + b + c + d
  {
    assert [a, b, c, d][..3] == [a, b, c] && [a, b, c][..2] == [a, b] && [a, b][..1] == [a] && [a][..0] == [];
    assert Joined([a]) == [] + a == a;
    assert Joined([a, b]) == a + b;
    assert Joined([a, b, c]) == a + b + c;
  }

  // ------------------------------------------------------------------ which bundles compile to clean text

  lemma {:induction false} TrimKeeps(s: string, sub: string)
    requires sub != "" && !IsSpace(sub[0]) && !IsSpace(sub[|sub| - 1])
    ensures Contains(TrimSpace(s), sub) <==> Contains(s, sub)
  {
    hide IsSpace;
    if s == "" {
    } else if IsSpace(s[0]) {
      TrimKeeps(s[1..], sub);
      assert s == [s[0]] + s[1..];
      DropFirst(s[0], s[1..], sub);
    } else if IsSpace(s[|s| - 1]) {
      TrimKeeps(s[..|s| - 1], sub);
      assert s == s[..|s| - 1] + [s[|s| - 1]];
      DropLast(s[..|s| - 1], s[|s| - 1], sub);
    }
  }

  lemma DropFirst(c: char, s: string, sub: string)
    requires sub != "" && sub[0] != c
    ensures Contains([c] + s, sub) <==> Contains(s, sub)
  {
    var t := [c] + s;
    forall i | At(t, sub, i)
      ensures At(s, sub, i - 1)
    {
      assert t[i] == t[i..i + |sub|][0];
      assert t[i..i + |sub|] == s[i - 1..i - 1 + |sub|];
    }
    forall i | At(s, sub, i)
      ensures At(t, sub, i + 1)
    {
      assert t[i + 1..i + 1 + |sub|] == s[i..i + |sub|];
    }
  }

  lemma DropLast(s: string, c: char, sub: string)
    requires sub != "" && sub[|sub| - 1] != c
    ensures Contains(s + [c], sub) <==> Contains(s, sub)
  {
    var t := s + [c];
    forall i | At(t, sub, i)
      ensures At(s, sub, i)
    {
      assert t[i + |sub| - 1] == t[i..i + |sub|][|sub| - 1];
      assert t[i..i + |sub|] == s[i..i + |sub|];
    }
    forall i | At(s, sub, i)
      ensures At(t, sub, i)
    {
      assert t[i..i + |sub|] == s[i..i + |sub|];
    }
  }

  lemma {:induction false} TrimNewlinesKeeps(s: string, sub: string)
    requires sub != "" && sub[|sub| - 1] != '\n'
    ensures Contains(TrimNewlines(s), sub) <==> Contains(s, sub)
  {
    if s != "" && s[|s| - 1] == '\n' {
      TrimNewlinesKeeps(s[..|s| - 1], sub);
      assert s == s[..|s| - 1] + ['\n'];
      DropLast(s[..|s| - 1], '\n', sub);
    }
  }

  /** The title a fragment is shown under, before trimming. */
  function TitleOf(f: Fragment): string {
    if TrimSpace(f.title) == "" then f.id else f.title
  }

  /** A fragment that is shown and mentions the closing marker. */
  ghost predicate Closes(f: Fragment) {
    TrimSpace(f.content) != "" && (Contains(TitleOf(f), END) || Contains(f.content, END))
  }

  lemma RenderedCloses(f: Fragment)
    ensures Contains(Rendered(f), END) <==> Closes(f)
  {
    hide Contains, At, TrimSpace;
    MarkersShaped();
    EndEdges();
    if TrimSpace(f.content) == "" {
      NothingIn("", END);
    } else {
      var h, c := Heading(f), TrimSpace(f.content);
      TrimKeeps(TitleOf(f), END);
      TrimKeeps(f.content, END);
      SectionContains(h, c, END);
    }
  }

  lemma EndEdges()
    ensures |END| > 0 && END[0] == '<' && END[|END| - 1] == '>' && !IsSpace(END[0]) && !IsSpace(END[|END| - 1])
  {
  }

  lemma SectionContains(h: string, c: string, sub: string)
    requires sub != "" && '\n' !in sub && '#' !in sub && sub[0] != ' '
    ensures Contains("\n\n## " + h + "\n\n" + c + "\n", sub) <==> Contains(h, sub) || Contains(c, sub)
  {
    hide Contains, At;
    var s := "\n\n## " + h + "\n\n" + c + "\n";
    assert s == ("\n\n##" + [' '] + h + ['\n']) + ['\n'] + (c + ['\n']);
    ContainsAround("\n\n##" + [' '] + h + ['\n'], '\n', c + ['\n'], sub);
    DropLast(c, '\n', sub);
    DropLast("\n\n##" + [' '] + h, '\n', sub);
    assert "\n\n##" + [' '] + h == "\n\n#" + ['#'] + ([' '] + h);
    ContainsAround("\n\n#", '#', [' '] + h, sub);
    DropFirst(' ', h, sub);
    OnlyNewlines(sub);
  }

  lemma OnlyNewlines(sub: string)
    requires sub != "" && '\n' !in sub && '#' !in sub
    ensures !Contains("\n\n#", sub)
  {
    NeedsFirst("\n\n#", sub);
  }

  lemma {:induction false} SectionsClose(fragments: seq<Fragment>)
    ensures Contains(Sections(fragments), END) <==> exists i :: 0 <= i < |fragments| && Closes(fragments[i])
  {
    hide Contains, Rendered, Closes;
    MarkersShaped();
    if fragments == [] {
      NothingIn("", END);
    } else {
      var n := |fragments| - 1;
      SectionsClose(fragments[..n]);
      RenderedCloses(fragments[n]);
      JoinContains(Sections(fragments[..n]), Rendered(fragments[n]), END);
      RenderedStart(fragments[n]);
      assert forall i :: 0 <= i < n ==> fragments[..n][i] == fragments[i];
    }
  }

  lemma RenderedStart(f: Fragment)
    ensures Rendered(f) == "" || Rendered(f)[0] == '\n'
  {
  }

  lemma JoinContains(a: string, b: string, sub: string)
    requires sub != "" && '\n' !in sub
    ensures b == "" || b[0] == '\n' ==> (Contains(a + b, sub) <==> Contains(a, sub) || Contains(b, sub))
  {
    hide Contains;
    if b == "" {
      NothingIn("", sub);
      assert a + b == a;
    } else if b[0] == '\n' {
      assert a + b == a + ['\n'] + b[1..] && b == ['\n'] + b[1..];
      ContainsAround(a, '\n', b[1..], sub);
      DropFirst('\n', b[1..], sub);
    }
  }

  lemma OpeningPlain()
    ensures '<' !in "# Relay Runtime\n\n" && '<' !in "This execution is managed "
  {
  }

  lemma OpeningPlain2()
    ensures '<' !in "by Relay. Return durable " && '<' !in "results before the "
  {
  }

  lemma OpeningPlain3()
    ensures '<' !in "top-level agent process " && '<' !in "exits."
  {
  }

  /** Compiled instructions can be written again and again exactly when no fragment mentions the closing marker. */
  lemma CompiledIsClean(bundle: Bundle)
    ensures var fragments := bundle.runtime + bundle.host + bundle.workspace + bundle.agent;
      Clean(Stable(bundle)) <==> forall i :: 0 <= i < |fragments| ==> !Closes(fragments[i])
  {
    hide Contains, At, TrimNewlines, Closes, Sections;
    var fragments := bundle.runtime + bundle.host + bundle.workspace + bundle.agent;
    MarkersShaped();
    EndEdges();
    SectionsClose(fragments);
    TrimNewlinesKeeps(Stable(bundle), END);
    DropLast(TrimNewlines(OPENING + "\n" + Sections(fragments)), '\n', END);
    TrimNewlinesKeeps(OPENING + "\n" + Sections(fragments), END);
    ContainsAround(OPENING, '\n', Sections(fragments), END);
    OpeningPlain();
    OpeningPlain2();
    OpeningPlain3();
    NeedsFirst(OPENING, END);
  }
}

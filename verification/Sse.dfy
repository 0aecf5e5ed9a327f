/** The incremental parser of server-sent events (src/interceptor/stream/sse_parser.py). */
module Sse {
  import opened Collections

  datatype SSEEvent = SSEEvent(event: string, data: string, id: Option<string>, retry: Option<int>)

  // The fields collected for the pending event.
  datatype Fields = Fields(event: Option<string>, dataLines: seq<string>, id: Option<string>, retry: Option<int>)

  const NO_FIELDS := Fields(None, [], None, None)

  datatype State = State(buffer: string, fields: Fields)
  datatype Outcome<T> = Outcome(state: T, events: seq<SSEEvent>)

  // What one call returns or raises, and the state it leaves.
  datatype Fed = Fed(state: State, events: seq<SSEEvent>, raised: bool)

  // str.isdigit followed by int: a value that is no digits is ignored, and int raises on some digit characters.
  datatype Retry = Ignored | Value(n: int) | Unreadable
  type ReadInt = string -> Retry

  // ---------- one line ----------

  /** str.find: the first position of c, or -1. */
  function Find(s: string, c: char): (p: int)
    ensures -1 <= p < |s|
  {
    if s == [] then -1
    else if s[0] == c then 0
    else if Find(s[1..], c) == -1 then -1
    else Find(s[1..], c) + 1
  }

  lemma {:induction false} FindMeans(s: string, c: char)
    ensures Find(s, c) == -1 <==> c !in s
    ensures Find(s, c) != -1 ==> s[Find(s, c)] == c && forall i :: 0 <= i < Find(s, c) ==> s[i] != c
  {
    if s != [] {
      FindMeans(s[1..], c);
    }
  }

  function JoinLines(lines: seq<string>): string {
    if lines == [] then "" else if |lines| == 1 then lines[0] else lines[0] + "\n" + JoinLines(lines[1..])
  }

  /** Emits the pending event if it has data or a name. */
  function Dispatch(f: Fields): Outcome<Fields> {
    if f.dataLines == [] && f.event.None? then Outcome(f, [])
    else
      var name := if f.event.Some? && f.event.value != "" then f.event.value else "message";
      Outcome(NO_FIELDS, [SSEEvent(name, JoinLines(f.dataLines), f.id, f.retry)])
  }

  function SetField(num: ReadInt, f: Fields, field: string, value: string): Fields {
    if field == "event" then f.(event := Some(value))
    else if field == "data" then f.(dataLines := f.dataLines + [value])
    else if field == "id" then if '\0' in value then f else f.(id := Some(value))
    else if field == "retry" && num(value).Value? then f.(retry := Some(num(value).n))
    else f
  }

  /** The part of a line before its first colon; a comment has none. */
  function FieldName(line: string): string {
    if Find(line, ':') == -1 then line else line[..Find(line, ':')]
  }

  /** The part after it, without one leading space. */
  function FieldValue(line: string): string {
    if Find(line, ':') == -1 then ""
    else
      var value := line[Find(line, ':') + 1..];
      if value != "" && value[0] == ' ' then value[1..] else value
  }

  /** Processing the line raises, and changes nothing. */
  predicate LineRaises(num: ReadInt, line: string) {
    FieldName(line) == "retry" && num(FieldValue(line)).Unreadable?
  }

  /** How many of the lines are processed before one raises. */
  function Readable(num: ReadInt, lines: seq<string>): (k: nat)
    ensures k <= |lines| && (k < |lines| ==> LineRaises(num, lines[k]))
    ensures forall i :: 0 <= i < k ==> !LineRaises(num, lines[i])
  {
    if lines == [] || LineRaises(num, lines[0]) then 0 else 1 + Readable(num, lines[1..])
  }

  function ProcessLine(num: ReadInt, f: Fields, line: string): Outcome<Fields> {
    if line == "" then Dispatch(f)
    else if line[0] == ':' then Outcome(f, [])
    else
      var colon := Find(line, ':');
      if colon == -1 then Outcome(SetField(num, f, line, ""), [])
      else
        var value := line[colon + 1..];
        Outcome(SetField(num, f, line[..colon], if value != "" && value[0] == ' ' then value[1..] else value), [])
  }

  function ProcessLines(num: ReadInt, f: Fields, lines: seq<string>): Outcome<Fields>
    decreases |lines|
  {
    if lines == [] then Outcome(f, [])
    else
      var first := ProcessLine(num, f, lines[0]);
      var rest := ProcessLines(num, first.state, lines[1..]);
      Outcome(rest.state, first.events + rest.events)
  }

  // ---------- line breaks ----------

  // A complete line break: where its line ends and how many characters it takes.
  datatype Break = Break(pos: nat, skip: nat)

  /** The next line break, if it is complete: a carriage return that ends the buffer may still become CR LF. */
  function NextBreak(s: string): (r: Option<Break>)
    ensures r.Some? ==> r.value.pos + r.value.skip <= |s| && 0 < r.value.skip
  {
    var cr, lf := Find(s, '\r'), Find(s, '\n');
    if cr != -1 && (lf == -1 || cr < lf) then
      if cr == |s| - 1 then None
      else Some(Break(cr, if s[cr + 1] == '\n' then 2 else 1))
    else if lf != -1 then Some(Break(lf, 1))
    else None
  }

  datatype Cut = Cut(lines: seq<string>, rest: string)

  /** The complete lines of a text and what is left over. */
  function Lines(s: string): (r: Cut)
    ensures NextBreak(r.rest).None? && |r.rest| <= |s|
    decreases |s|
  {
    match NextBreak(s)
    case None => Cut([], s)
    case Some(b) =>
      var tail := Lines(s[b.pos + b.skip..]);
      Cut([s[..b.pos]] + tail.lines, tail.rest)
  }

  /** str.splitlines, which breaks at more characters than the stream format does. */
  function SplitLines(s: string): seq<string>
    decreases |s|
  {
    if s == "" then []
    else
      var p := LineEnd(s);
      var skip := if p + 1 < |s| && s[p] == '\r' && s[p + 1] == '\n' then 2 else if p < |s| then 1 else 0;
      [s[..p]] + SplitLines(s[p + skip..])
  }

  function LineEnd(s: string): (p: nat)
    ensures p <= |s|
    ensures p == 0 && s != "" ==> IsSeparator(s[0])
    ensures p < |s| ==> IsSeparator(s[p])
  {
    if s == "" || IsSeparator(s[0]) then 0 else 1 + LineEnd(s[1..])
  }

  predicate IsSeparator(c: char) {
    c in {'\n', '\r', '\U{B}', '\U{C}', '\U{1C}', '\U{1D}', '\U{1E}', '\U{85}', '\U{2028}', '\U{2029}'}
  }

  // ---------- the parser on values ----------

  /** The text after its first k complete lines. */
  function AfterLines(s: string, k: nat): string
    decreases k
  {
    if k == 0 || NextBreak(s).None? then s
    else AfterLines(s[NextBreak(s).value.pos + NextBreak(s).value.skip..], k - 1)
  }

  /**
   * The loop of feed on the text already in the buffer. When a line raises, the line is gone, the events found so
   * far are lost, and the lines after it stay in the buffer.
   */
  function Drain(num: ReadInt, st: State): (f: Fed)
    ensures f.raised ==> f.events == []
  {
    var cut := Lines(st.buffer);
    var k := Readable(num, cut.lines);
    var out := ProcessLines(num, st.fields, cut.lines[..k]);
    if k == |cut.lines| then Fed(State(cut.rest, out.state), out.events, false)
    else Fed(State(AfterLines(st.buffer, k + 1), out.state), [], true)
  }

  /** Feeding a piece of decoded text. */
  function Ingest(num: ReadInt, st: State, text: string): Fed {
    Drain(num, st.(buffer := st.buffer + text))
  }

  /** Closing; when a line raises, the lines after it are gone too and nothing is dispatched. */
  function CloseStream(num: ReadInt, st: State): (f: Fed)
    ensures f.raised ==> f.events == []
  {
    var lines := SplitLines(st.buffer);
    var k := Readable(num, lines);
    var out := ProcessLines(num, st.fields, lines[..k]);
    if k == |lines| then
      var last := Dispatch(out.state);
      Fed(State("", last.state), out.events + last.events, false)
    else Fed(State("", out.state), [], true)
  }

  /** No complete line is waiting in the buffer, as after every call that did not raise and at the start. */
  predicate Drained(st: State) {
    NextBreak(st.buffer).None?
  }

  // ---------- lines and processing, piece by piece ----------

  lemma {:induction false} ProcessLinesAppend(num: ReadInt, f: Fields, a: seq<string>, b: seq<string>)
    ensures var x := ProcessLines(num, f, a);
            var y := ProcessLines(num, x.state, b);
            ProcessLines(num, f, a + b) == Outcome(y.state, x.events + y.events)
    decreases |a|
  {
    hide ProcessLine;
    if a == [] {
      assert a + b == b;
    } else {
      assert (a + b)[0] == a[0] && (a + b)[1..] == a[1..] + b;
      ProcessLinesAppend(num, ProcessLine(num, f, a[0]).state, a[1..], b);
    }
  }

  lemma BreakStays(a: string, b: string)
    requires NextBreak(a).Some?
    ensures NextBreak(a + b) == NextBreak(a)
  {
    FindAppend(a, b, '\r');
    FindAppend(a, b, '\n');
  }

  lemma {:induction false} FindAppend(a: string, b: string, c: char)
    ensures Find(a + b, c) == if Find(a, c) != -1 then Find(a, c)
                              else if Find(b, c) != -1 then |a| + Find(b, c) else -1
  {
    if a == "" {
      assert a + b == b;
    } else {
      assert (a + b)[0] == a[0] && (a + b)[1..] == a[1..] + b;
      FindAppend(a[1..], b, c);
    }
  }

  /** The first complete line of a text does not depend on what is appended. */
  lemma LinesNext(a: string, b: string, k: Break)
    requires NextBreak(a) == Some(k)
    ensures var tail := Lines(a[k.pos + k.skip..] + b);
            Lines(a + b) == Cut([a[..k.pos]] + tail.lines, tail.rest)
  {
    BreakStays(a, b);
    assert (a + b)[k.pos + k.skip..] == a[k.pos + k.skip..] + b && (a + b)[..k.pos] == a[..k.pos];
  }

  /** Going on from a cut text with more of it. */
  function Resume(x: Cut, b: string): Cut {
    var y := Lines(x.rest + b);
    Cut(x.lines + y.lines, y.rest)
  }

  lemma ResumeCons(line: string, x: Cut, b: string)
    ensures Resume(Cut([line] + x.lines, x.rest), b) == Cut([line] + Resume(x, b).lines, Resume(x, b).rest)
  {
  }

  /** Cutting a text into lines can stop anywhere and go on from what was left over. */
  lemma {:induction false} LinesAppend(a: string, b: string)
    ensures Lines(a + b) == Resume(Lines(a), b)
    decreases |a|
  {
    match NextBreak(a) {
      case None =>
      case Some(k) =>
        var tail := a[k.pos + k.skip..];
        LinesAppend(tail, b);
        LinesNext(a, "", k);
        assert a + "" == a && tail + "" == tail;
        LinesNext(a, b, k);
        ResumeCons(a[..k.pos], Lines(tail), b);
    }
  }

  // ---------- the lines are those of the stream format ----------

  ghost predicate NoBreakIn(s: string) {
    '\r' !in s && '\n' !in s
  }

  /** Lines, each closed by CR LF, LF or a CR that no LF follows, and a rest in which no line is closed yet. */
  ghost predicate AreLines(s: string, lines: seq<string>, rest: string)
    decreases |lines|
  {
    if lines == [] then
      s == rest && '\n' !in rest && (forall i :: 0 <= i < |rest| - 1 ==> rest[i] != '\r')
    else
      var n := |lines[0]|;
      && NoBreakIn(lines[0]) && lines[0] <= s
      && (|| (s[n..] != "" && s[n] == '\n' && AreLines(s[n + 1..], lines[1..], rest))
          || (|s[n..]| >= 2 && s[n] == '\r' && s[n + 1] == '\n' && AreLines(s[n + 2..], lines[1..], rest))
          || (|s[n..]| >= 2 && s[n] == '\r' && s[n + 1] != '\n' && AreLines(s[n + 1..], lines[1..], rest)))
  }

  const MARK := '\U{FEFF}'

  predicate HasMark(s: string) {
    s != "" && s[0] == MARK
  }

  function WithoutMark(s: string): string {
    if HasMark(s) then s[1..] else s
  }

  /** The stream grammar of section 9.2.5 of the HTML Living Standard: an optional byte order mark and lines. */
  ghost predicate IsStream(s: string, lines: seq<string>, rest: string) {
    AreLines(WithoutMark(s), lines, rest)
  }

  lemma FirstBreakAt(s: string, n: nat)
    requires n < |s| && NoBreakIn(s[..n]) && (s[n] == '\r' || s[n] == '\n')
    ensures s[n] == '\n' ==> NextBreak(s) == Some(Break(n, 1))
    ensures s[n] == '\r' ==> NextBreak(s) == if n == |s| - 1 then None
                                             else Some(Break(n, if s[n + 1] == '\n' then 2 else 1))
  {
    assert s == s[..n] + s[n..];
    FindMeans(s[..n], '\r');
    FindMeans(s[..n], '\n');
    FindAppend(s[..n], s[n..], '\r');
    FindAppend(s[..n], s[n..], '\n');
    assert s[n..][0] == s[n];
  }

  lemma NextBreakMeans(s: string, b: Break)
    requires NextBreak(s) == Some(b)
    ensures b.pos < |s| && NoBreakIn(s[..b.pos])
    ensures s[b.pos] == '\n' || s[b.pos] == '\r'
    ensures s[b.pos] == '\n' ==> b.skip == 1
    ensures s[b.pos] == '\r' ==> b.pos + 1 < |s| && b.skip == if s[b.pos + 1] == '\n' then 2 else 1
  {
    FindMeans(s, '\r');
    FindMeans(s, '\n');
    var cr, lf := Find(s, '\r'), Find(s, '\n');
    assert cr != -1 && b.pos <= cr ==> s[..b.pos] <= s[..cr];
    assert lf != -1 && b.pos <= lf ==> s[..b.pos] <= s[..lf];
  }

  lemma NoBreakMeans(s: string)
    ensures NextBreak(s).None? <==> '\n' !in s && forall i :: 0 <= i < |s| - 1 ==> s[i] != '\r'
  {
    FindMeans(s, '\r');
    FindMeans(s, '\n');
    var cr, lf := Find(s, '\r'), Find(s, '\n');
    if NextBreak(s).None? {
      assert cr != -1 ==> cr == |s| - 1;
    } else {
      NextBreakMeans(s, NextBreak(s).value);
    }
  }

  lemma LinesCons(s: string, b: Break, lines: seq<string>, rest: string)
    requires NextBreak(s) == Some(b) && lines != []
    ensures Lines(s) == Cut(lines, rest)
       <==> lines[0] == s[..b.pos] && Lines(s[b.pos + b.skip..]) == Cut(lines[1..], rest)
  {
    var tail := Lines(s[b.pos + b.skip..]);
    assert Lines(s) == Cut([s[..b.pos]] + tail.lines, tail.rest);
    assert lines == [lines[0]] + lines[1..];
  }

  /** A text that begins with a line of the grammar begins with the same line for the parser. */
  lemma StreamHead(s: string, line: string)
    requires NoBreakIn(line) && line <= s && |line| < |s| && (s[|line|] == '\r' || s[|line|] == '\n')
    requires s[|line|] == '\r' ==> |line| + 1 < |s|
    ensures NextBreak(s) == Some(Break(|line|, if s[|line|] == '\r' && s[|line| + 1] == '\n' then 2 else 1))
  {
    assert s[..|line|] == line;
    FirstBreakAt(s, |line|);
  }

  /** Length of the line break that stands at position n. */
  function BreakLength(s: string, n: nat): nat
    requires n < |s|
  {
    if s[n] == '\r' && n + 1 < |s| && s[n + 1] == '\n' then 2 else 1
  }

  lemma StreamUnfold(s: string, lines: seq<string>, rest: string)
    requires lines != []
    ensures AreLines(s, lines, rest) <==>
            var n := |lines[0]|;
            && NoBreakIn(lines[0]) && lines[0] <= s && n < |s|
            && (s[n] == '\n' || (s[n] == '\r' && n + 1 < |s|))
            && AreLines(s[n + BreakLength(s, n)..], lines[1..], rest)
  {
  }

  lemma NoLineIsParsed(s: string, rest: string)
    requires AreLines(s, [], rest)
    ensures Lines(s) == Cut([], rest)
  {
    NoBreakMeans(s);
  }

  lemma {:induction false} LinesAreParsed(s: string, lines: seq<string>, rest: string)
    requires AreLines(s, lines, rest)
    ensures Lines(s) == Cut(lines, rest)
    decreases |s|
  {
    hide AreLines, Lines, NextBreak;
    if lines == [] {
      NoLineIsParsed(s, rest);
    } else {
      var n := |lines[0]|;
      StreamUnfold(s, lines, rest);
      StreamHead(s, lines[0]);
      LinesAreParsed(s[n + BreakLength(s, n)..], lines[1..], rest);
      LinesCons(s, Break(n, BreakLength(s, n)), lines, rest);
    }
  }

  lemma LinesEnd(s: string)
    requires NextBreak(s).None?
    ensures Lines(s) == Cut([], s)
  {
  }

  lemma LinesUnfold(s: string, b: Break)
    requires NextBreak(s) == Some(b)
    ensures var tail := Lines(s[b.pos + b.skip..]);
            Lines(s) == Cut([s[..b.pos]] + tail.lines, tail.rest)
  {
  }

  /** A line that the parser cuts off puts a line in front of a reading of what follows. */
  lemma StreamCons(s: string, b: Break, lines: seq<string>, rest: string)
    requires NextBreak(s) == Some(b) && AreLines(s[b.pos + b.skip..], lines, rest)
    ensures AreLines(s, [s[..b.pos]] + lines, rest)
  {
    var longer := [s[..b.pos]] + lines;
    NextBreakMeans(s, b);
    assert longer[0] == s[..b.pos] && longer[1..] == lines;
    assert b.skip == BreakLength(s, b.pos);
    StreamUnfold(s, longer, rest);
  }

  lemma {:induction false} ParsedAreLines(s: string)
    ensures AreLines(s, Lines(s).lines, Lines(s).rest)
    decreases |s|
  {
    match NextBreak(s) {
      case None => NoBreakMeans(s);
      case Some(b) =>
        var tail := s[b.pos + b.skip..];
        ParsedAreLines(tail);
        LinesUnfold(s, b);
        StreamCons(s, b, Lines(tail).lines, Lines(tail).rest);
    }
  }

  /** Without the mark, the parser's lines are a reading of the text by the grammar, and the only one. */
  lemma LinesAreTheStream(s: string, lines: seq<string>, rest: string)
    ensures IsStream(s, lines, rest) <==> Lines(WithoutMark(s)) == Cut(lines, rest)
  {
    ParsedAreLines(WithoutMark(s));
    if IsStream(s, lines, rest) {
      LinesAreParsed(WithoutMark(s), lines, rest);
    }
  }

  /** A mark stays in front of the first line, or of the rest. */
  lemma MarkedBreak(t: string)
    ensures NextBreak([MARK] + t)
         == if NextBreak(t).None? then None else Some(Break(NextBreak(t).value.pos + 1, NextBreak(t).value.skip))
  {
    hide Find;
    FindAppend([MARK], t, '\r');
    FindAppend([MARK], t, '\n');
    FindMeans([MARK], '\r');
    FindMeans([MARK], '\n');
  }

  lemma MarkedLines(t: string)
    ensures var cut := Lines(t);
            Lines([MARK] + t) == if cut.lines == [] then Cut([], [MARK] + t)
                                 else Cut([[MARK] + cut.lines[0]] + cut.lines[1..], cut.rest)
  {
    hide NextBreak, Lines;
    var s := [MARK] + t;
    MarkedBreak(t);
    match NextBreak(t) {
      case None =>
        LinesEnd(t);
        LinesEnd(s);
      case Some(b) =>
        assert s[b.pos + 1 + b.skip..] == t[b.pos + b.skip..] && s[..b.pos + 1] == [MARK] + t[..b.pos];
        LinesUnfold(t, b);
        LinesUnfold(s, Break(b.pos + 1, b.skip));
    }
  }

  /** The parser keeps the mark: it reads the lines of the stream exactly when there is none. */
  lemma ParserReadsStreamIff(s: string)
    ensures IsStream(s, Lines(s).lines, Lines(s).rest) <==> !HasMark(s)
  {
    LinesAreTheStream(s, Lines(s).lines, Lines(s).rest);
    if HasMark(s) {
      assert s == [MARK] + s[1..];
      MarkedLines(s[1..]);
      var cut := Lines(s[1..]);
      if cut.lines == [] {
        assert Lines(s).rest == s && |cut.rest| <= |s[1..]|;
      } else {
        assert |Lines(s).lines[0]| == |cut.lines[0]| + 1;
      }
    }
  }

  // ---------- what a block of lines makes ----------

  /** The acceptable values that the lines give a field, in order. */
  function Values(lines: seq<string>, field: string, ok: string -> bool): seq<string> {
    if lines == [] then []
    else
      var line := lines[|lines| - 1];
      Values(lines[..|lines| - 1], field, ok)
      + (if FieldName(line) == field && ok(FieldValue(line)) then [FieldValue(line)] else [])
  }

  function LastOf(values: seq<string>): Option<string> {
    if values == [] then None else Some(values[|values| - 1])
  }

  function RetryOf(num: ReadInt, value: Option<string>): Option<int> {
    if value.Some? && num(value.value).Value? then Some(num(value.value).n) else None
  }

  /** The data lines in order, and the last event name, the last id without NUL and the last readable retry. */
  function FieldsOf(num: ReadInt, lines: seq<string>): Fields {
    Fields(
      LastOf(Values(lines, "event", v => true)),
      Values(lines, "data", v => true),
      LastOf(Values(lines, "id", v => '\0' !in v)),
      RetryOf(num, LastOf(Values(lines, "retry", v => num(v).Value?))))
  }

  lemma ProcessLinesSnoc(num: ReadInt, f: Fields, lines: seq<string>, line: string)
    ensures var x := ProcessLines(num, f, lines);
            var y := ProcessLine(num, x.state, line);
            ProcessLines(num, f, lines + [line]) == Outcome(y.state, x.events + y.events)
  {
    ProcessLinesAppend(num, f, lines, [line]);
    var x := ProcessLines(num, f, lines);
    assert ProcessLines(num, x.state, [line]).events == ProcessLine(num, x.state, line).events + [];
  }

  lemma ProcessSets(num: ReadInt, f: Fields, line: string)
    requires line != ""
    ensures ProcessLine(num, f, line) == Outcome(SetField(num, f, FieldName(line), FieldValue(line)), [])
  {
    FindMeans(line, ':');
    if line[0] == ':' {
      assert Find(line, ':') == 0 && line[..0] == "";
    }
  }

  lemma ValuesSnoc(lines: seq<string>, line: string, field: string, ok: string -> bool)
    ensures Values(lines + [line], field, ok)
         == Values(lines, field, ok) + (if FieldName(line) == field && ok(FieldValue(line)) then [FieldValue(line)] else [])
  {
    assert (lines + [line])[..|lines|] == lines;
  }

  lemma FieldsSnoc(num: ReadInt, lines: seq<string>, line: string)
    ensures FieldsOf(num, lines + [line]) == SetField(num, FieldsOf(num, lines), FieldName(line), FieldValue(line))
  {
    ValuesSnoc(lines, line, "event", v => true);
    ValuesSnoc(lines, line, "data", v => true);
    ValuesSnoc(lines, line, "id", v => '\0' !in v);
    ValuesSnoc(lines, line, "retry", v => num(v).Value?);
  }

  /** Fields that were pending, and those that further lines give. */
  function Over(f: Fields, g: Fields): Fields {
    Fields(
      if g.event.Some? then g.event else f.event,
      f.dataLines + g.dataLines,
      if g.id.Some? then g.id else f.id,
      if g.retry.Some? then g.retry else f.retry)
  }

  lemma OverSnoc(num: ReadInt, f: Fields, g: Fields, field: string, value: string)
    ensures Over(f, SetField(num, g, field, value)) == SetField(num, Over(f, g), field, value)
  {
    assert f.dataLines + (g.dataLines + [value]) == f.dataLines + g.dataLines + [value];
  }

  /** Whatever is pending, the lines of a block add their fields to it, in any order, and emit nothing yet. */
  lemma {:induction false} BlockFields(num: ReadInt, f: Fields, lines: seq<string>)
    requires "" !in lines
    ensures ProcessLines(num, f, lines) == Outcome(Over(f, FieldsOf(num, lines)), [])
  {
    hide ProcessLine, SetField, FieldName, FieldValue;
    if lines == [] {
      assert f.dataLines + [] == f.dataLines;
    } else {
      var init, last := lines[..|lines| - 1], lines[|lines| - 1];
      BlockFields(num, f, init);
      assert lines == init + [last];
      ProcessLinesSnoc(num, f, init, last);
      ProcessSets(num, Over(f, FieldsOf(num, init)), last);
      FieldsSnoc(num, init, last);
      OverSnoc(num, f, FieldsOf(num, init), FieldName(last), FieldValue(last));
    }
  }

  predicate Emits(f: Fields) {
    f.dataLines != [] || f.event.Some?
  }

  /**
   * A blank line ends the block: it emits one event exactly when the block has a data line or names an
   * event, and with it forgets everything pending; a block that emits nothing leaves its id and retry pending.
   */
  lemma BlockEvent(num: ReadInt, f: Fields, lines: seq<string>)
    requires "" !in lines
    ensures var g, out := Over(f, FieldsOf(num, lines)), ProcessLines(num, f, lines + [""]);
            if !Emits(g) then out == Outcome(g, [])
            else
              && out.state == NO_FIELDS && |out.events| == 1
              && out.events[0].data == JoinLines(f.dataLines + Values(lines, "data", v => true))
              && out.events[0].event == (if g.event.Some? && g.event.value != "" then g.event.value else "message")
              && out.events[0].id == g.id && out.events[0].retry == g.retry
  {
    BlockFields(num, f, lines);
    ProcessLinesSnoc(num, f, lines, "");
  }

  // ---------- what single lines say ----------

  /**
   * A field line: the value is what follows the colon, without one space if there is one. A line without a colon has the
   * empty value, and a comment says nothing.
   */
  lemma FieldLine(num: ReadInt, f: Fields, field: string, value: string)
    requires field != "" && ':' !in field
    ensures ProcessLine(num, f, field + ": " + value) == Outcome(SetField(num, f, field, value), [])
    ensures value == "" || value[0] != ' ' ==> ProcessLine(num, f, field + ":" + value) == Outcome(SetField(num, f, field, value), [])
    ensures ProcessLine(num, f, field) == Outcome(SetField(num, f, field, ""), [])
    ensures ProcessLine(num, f, ":" + value) == Outcome(f, [])
    ensures LineRaises(num, field + ": " + value) <==> field == "retry" && num(value).Unreadable?
  {
    hide SetField;
    FindMeans(field, ':');
    FindAppend(field, ": " + value, ':');
    FindAppend(field, ":" + value, ':');
    assert field + ": " + value == field + (": " + value) && field + ":" + value == field + (":" + value);
    ColonCut(field, ": " + value);
    ColonCut(field, ":" + value);
    assert (": " + value)[1..] == " " + value && (" " + value)[1..] == value && (":" + value)[1..] == value;
    assert Find(": " + value, ':') == 0 && Find(":" + value, ':') == 0;
  }

  lemma ColonCut(field: string, rest: string)
    requires rest != ""
    ensures (field + rest)[..|field|] == field && (field + rest)[|field| + 1..] == rest[1..] && (field + rest)[0..|field|] == field
  {
  }

  lemma DataFieldLine(num: ReadInt, f: Fields, value: string)
    ensures ProcessLine(num, f, "data: " + value) == Outcome(f.(dataLines := f.dataLines + [value]), [])
  {
    hide ProcessLine;
    FieldLine(num, f, "data", value);
    assert "data" + ": " + value == "data: " + value;
  }

  lemma EventFieldLine(num: ReadInt, f: Fields, value: string)
    ensures ProcessLine(num, f, "event: " + value) == Outcome(f.(event := Some(value)), [])
  {
    hide ProcessLine;
    FieldLine(num, f, "event", value);
    assert "event" + ": " + value == "event: " + value;
  }

  lemma IdFieldLine(num: ReadInt, f: Fields, value: string)
    ensures ProcessLine(num, f, "id: " + value) == Outcome(if '\0' in value then f else f.(id := Some(value)), [])
  {
    hide ProcessLine;
    FieldLine(num, f, "id", value);
    assert "id" + ": " + value == "id: " + value;
  }

  lemma RetryFieldLine(num: ReadInt, f: Fields, value: string)
    ensures ProcessLine(num, f, "retry: " + value)
         == Outcome(match num(value) case Value(n) => f.(retry := Some(n)) case _ => f, [])
  {
    hide ProcessLine;
    FieldLine(num, f, "retry", value);
    assert "retry" + ": " + value == "retry: " + value;
  }

  lemma OtherFieldLine(num: ReadInt, f: Fields, field: string, value: string)
    requires field != "" && ':' !in field && field !in {"data", "event", "id", "retry"}
    ensures ProcessLine(num, f, field + ": " + value) == Outcome(f, [])
  {
    hide ProcessLine;
    FieldLine(num, f, field, value);
  }

  /** No data line is lost in an event: read as lines, its data gives back the data lines that it was joined from. */
  lemma {:induction false} JoinedDataReads(lines: seq<string>)
    requires lines != [] && forall i :: 0 <= i < |lines| ==> NoBreakIn(lines[i])
    ensures Lines(JoinLines(lines) + "\n") == Cut(lines, "")
  {
    hide NoBreakIn;
    var s := JoinLines(lines) + "\n";
    var tail := if |lines| == 1 then "" else JoinLines(lines[1..]) + "\n";
    assert s == lines[0] + "\n" + tail;
    OneMoreLine(lines[0], tail);
    if |lines| == 1 {
      NoBreakMeans("");
      LinesEnd("");
      assert lines == [lines[0]] + [];
    } else {
      JoinedDataReads(lines[1..]);
      assert lines == [lines[0]] + lines[1..];
    }
  }

  lemma OneMoreLine(line: string, rest: string)
    requires NoBreakIn(line)
    ensures Lines(line + "\n" + rest) == Cut([line] + Lines(rest).lines, Lines(rest).rest)
  {
    var s := line + "\n" + rest;
    assert s[..|line|] == line && s[|line| + 1..] == rest;
    FirstBreakAt(s, |line|);
    LinesUnfold(s, Break(|line|, 1));
  }

  // ---------- closing ----------

  /** A character at which str.splitlines breaks and the stream format does not. */
  predicate IsExtraSeparator(c: char) {
    IsSeparator(c) && c != '\n' && c != '\r'
  }

  ghost predicate NoExtraSeparator(s: string) {
    forall i :: 0 <= i < |s| ==> !IsExtraSeparator(s[i])
  }

  /** The one line that a rest holds: all of it but a carriage return at its end. */
  function LastLine(rest: string): string {
    if rest != "" && rest[|rest| - 1] == '\r' then rest[..|rest| - 1] else rest
  }

  lemma {:induction false} LineEndAt(s: string, n: nat)
    requires n <= |s| && (forall i :: 0 <= i < n ==> !IsSeparator(s[i])) && (n < |s| ==> IsSeparator(s[n]))
    ensures LineEnd(s) == n
  {
    if n > 0 {
      assert forall i :: 0 <= i < n - 1 ==> s[1..][i] == s[i + 1];
      LineEndAt(s[1..], n - 1);
    }
  }

  lemma {:induction false} LineEndIsFirst(s: string, i: nat)
    requires i < |s| && IsSeparator(s[i])
    ensures LineEnd(s) <= i
  {
    if !IsSeparator(s[0]) {
      LineEndIsFirst(s[1..], i - 1);
    }
  }

  /** Closing reads what the parser has left as its last line exactly when it holds no separator of splitlines alone. */
  lemma CloseReadsLastLine(rest: string)
    requires NextBreak(rest).None? && rest != ""
    ensures SplitLines(rest) == [LastLine(rest)] <==> NoExtraSeparator(LastLine(rest))
  {
    NoBreakMeans(rest);
    var line := LastLine(rest);
    assert forall i :: 0 <= i < |line| ==> line[i] == rest[i] && rest[i] != '\n' && rest[i] != '\r';
    if NoExtraSeparator(line) {
      forall i | 0 <= i < |line| ensures !IsSeparator(rest[i]) { assert !IsExtraSeparator(line[i]); }
      LineEndAt(rest, |line|);
      assert rest[..|line|] == line;
      assert SplitLines("") == [];
    } else {
      var i :| 0 <= i < |line| && IsExtraSeparator(line[i]);
      LineEndIsFirst(rest, i);
      assert |SplitLines(rest)[0]| < |line|;
    }
  }

  /** A line that the stream ends in the middle of, as ending it with a line feed would read it. */
  lemma EndedLine(rest: string)
    requires NextBreak(rest).None? && rest != ""
    ensures Lines(rest + "\n") == Cut([LastLine(rest)], "")
  {
    NoBreakMeans(rest);
    var s, line := rest + "\n", LastLine(rest);
    assert s[..|line|] == line && NoBreakIn(line);
    FirstBreakAt(s, |line|);
    var k := NextBreak(s).value;
    LinesNext(s, "", k);
    assert s + "" == s && s[k.pos + k.skip..] + "" == "";
    assert Find("", '\r') == -1 && Find("", '\n') == -1;
    assert Lines("") == Cut([], "");
  }

  /** Then closing gives the events and the state of ending the last line and dispatching. */
  lemma CloseEndsTheLine(num: ReadInt, st: State)
    requires Drained(st) && NoExtraSeparator(st.buffer)
    ensures var ended := if st.buffer == "" then Fed(st, [], false) else Ingest(num, st, "\n");
            var last := Dispatch(ended.state.fields);
            CloseStream(num, st) == if ended.raised then ended
                                    else Fed(State("", last.state), ended.events + last.events, false)
  {
    if st.buffer == "" {
      assert SplitLines("") == [] && ProcessLines(num, st.fields, []) == Outcome(st.fields, []);
    } else {
      CloseReadsLastLine(st.buffer);
      EndedLine(st.buffer);
      var b := NextBreak(st.buffer + "\n").value;
      LinesUnfold(st.buffer + "\n", b);
      assert AfterLines(st.buffer + "\n", 1) == AfterLines((st.buffer + "\n")[b.pos + b.skip..], 0);
      assert Lines(st.buffer + "\n").rest == "" && |Lines((st.buffer + "\n")[b.pos + b.skip..]).lines| == 0;
    }
  }

  lemma DataLine(num: ReadInt, f: Fields, value: string)
    requires value != "" && value[0] != ' '
    ensures ProcessLine(num, f, "data:" + value) == Outcome(f.(dataLines := f.dataLines + [value]), [])
    ensures !LineRaises(num, "data:" + value)
  {
    var line := "data:" + value;
    FindMeans("data", ':');
    FindAppend("data", ":" + value, ':');
    assert line == "data" + (":" + value);
    assert line[..4] == "data" && line[5..] == value;
  }

  lemma OtherLine(num: ReadInt, f: Fields, line: string)
    requires line != "" && ':' !in line && line !in {"event", "data", "id", "retry"}
    ensures ProcessLine(num, f, line) == Outcome(f, []) && !LineRaises(num, line)
  {
    FindMeans(line, ':');
  }

  ghost predicate NoSeparator(s: string) {
    forall i :: 0 <= i < |s| ==> !IsSeparator(s[i])
  }

  /** With any of the eight separators it does not: an unterminated data line is cut off at it. */
  lemma ExtraSeparatorCutsData(num: ReadInt, a: string, b: string, c: char)
    requires c in {'\U{B}', '\U{C}', '\U{1C}', '\U{1D}', '\U{1E}', '\U{85}', '\U{2028}', '\U{2029}'}
    requires a != "" && a[0] != ' ' && NoSeparator(a) && b != "" && NoSeparator(b)
    requires ':' !in b && b !in {"event", "data", "id", "retry"}
    ensures var st := State("data:" + (a + [c] + b), NO_FIELDS);
            && Drained(st)
            && CloseStream(num, st).events == [SSEEvent("message", a, None, None)]
            && Dispatch(Ingest(num, st, "\n").state.fields).events == [SSEEvent("message", a + [c] + b, None, None)]
  {
    hide ProcessLine, ProcessLines, SplitLines, Lines, NextBreak, LineRaises;
    var whole, line := a + [c] + b, "data:" + a;
    var rest := "data:" + whole;
    assert rest == line + [c] + b;
    assert NoSeparator(line) by {
      assert forall i :: 5 <= i < |line| ==> line[i] == a[i - 5];
    }
    assert forall i :: 0 <= i < |rest| ==> rest[i] != '\n' && rest[i] != '\r';
    NoBreakMeans(rest);
    EndedLine(rest);
    DataLine(num, NO_FIELDS, whole);
    OneLine(num, NO_FIELDS, rest);
    IngestLines(num, State(rest, NO_FIELDS), "\n", [rest]);
    SplitInTwo(line, b, c);
    DataLine(num, NO_FIELDS, a);
    OneLine(num, NO_FIELDS, line);
    var read := Fields(None, [a], None, None);
    OtherLine(num, read, b);
    ProcessLinesSnoc(num, NO_FIELDS, [line], b);
    assert NO_FIELDS.dataLines + [a] == [a] && NO_FIELDS.dataLines + [whole] == [whole];
    CloseLines(num, State(rest, NO_FIELDS), [line] + [b]);
    assert ProcessLines(num, NO_FIELDS, [line] + [b]) == Outcome(read, [] + []);
    assert Dispatch(read).events == [SSEEvent("message", a, None, None)];
  }

  lemma AllReadable(num: ReadInt, lines: seq<string>)
    requires forall i :: 0 <= i < |lines| ==> !LineRaises(num, lines[i])
    ensures Readable(num, lines) == |lines|
  {
  }

  /** Feeding when no line raises. */
  lemma IngestLines(num: ReadInt, st: State, text: string, lines: seq<string>)
    requires Lines(st.buffer + text).lines == lines
    requires forall i :: 0 <= i < |lines| ==> !LineRaises(num, lines[i])
    ensures var out := ProcessLines(num, st.fields, lines);
            Ingest(num, st, text) == Fed(State(Lines(st.buffer + text).rest, out.state), out.events, false)
  {
    AllReadable(num, lines);
    assert lines[..|lines|] == lines;
  }

  /** Closing when no line raises. */
  lemma CloseLines(num: ReadInt, st: State, lines: seq<string>)
    requires SplitLines(st.buffer) == lines
    requires forall i :: 0 <= i < |lines| ==> !LineRaises(num, lines[i])
    ensures var out := ProcessLines(num, st.fields, lines);
            var last := Dispatch(out.state);
            CloseStream(num, st) == Fed(State("", last.state), out.events + last.events, false)
  {
    AllReadable(num, lines);
    assert lines[..|lines|] == lines;
  }

  lemma SplitInTwo(a: string, b: string, c: char)
    requires b != "" && NoSeparator(a) && NoSeparator(b) && IsSeparator(c) && c != '\r'
    ensures SplitLines(a + [c] + b) == [a] + [b]
  {
    var s := a + [c] + b;
    LineEndAt(s, |a|);
    LineEndAt(b, |b|);
    assert s[..|a|] == a && s[|a| + 1..] == b && b[..|b|] == b && b[|b|..] == "";
    assert SplitLines("") == [] && SplitLines(b) == [b] + [];
  }

  lemma OneLine(num: ReadInt, f: Fields, line: string)
    ensures ProcessLines(num, f, [line]) == ProcessLine(num, f, line)
  {
    ProcessLinesSnoc(num, f, [], line);
    assert [] + [line] == [line];
  }

  // ---------- the parser as an object ----------

  /** What a call returns that has found some events before; they are lost if the rest of the call raises. */
  function Then(events: seq<SSEEvent>, f: Fed): Fed {
    f.(events := if f.raised then [] else events + f.events)
  }

  lemma ReadableCons(num: ReadInt, line: string, lines: seq<string>)
    ensures Readable(num, [line] + lines) == if LineRaises(num, line) then 0 else 1 + Readable(num, lines)
  {
    assert ([line] + lines)[1..] == lines;
  }

  lemma RaisingChangesNothing(num: ReadInt, f: Fields, line: string)
    requires LineRaises(num, line)
    ensures ProcessLine(num, f, line) == Outcome(f, [])
  {
    FindMeans(line, ':');
  }

  /** One turn of the loop of feed. */
  lemma DrainLine(num: ReadInt, st: State, b: Break)
    requires NextBreak(st.buffer) == Some(b)
    ensures var line, rest := st.buffer[..b.pos], st.buffer[b.pos + b.skip..];
            Drain(num, st) == if LineRaises(num, line) then Fed(State(rest, st.fields), [], true)
                              else
                                var out := ProcessLine(num, st.fields, line);
                                Then(out.events, Drain(num, State(rest, out.state)))
  {
    hide NextBreak, LineRaises, ProcessLine;
    var line, rest := st.buffer[..b.pos], st.buffer[b.pos + b.skip..];
    var lines, k := Lines(rest).lines, Readable(num, Lines(rest).lines);
    LinesUnfold(st.buffer, b);
    ReadableCons(num, line, lines);
    assert ([line] + lines)[..0] == [] && ([line] + lines)[..k + 1] == [line] + lines[..k];
    assert ProcessLines(num, st.fields, []) == Outcome(st.fields, []);
    assert ([line] + lines[..k])[1..] == lines[..k];
    assert AfterLines(st.buffer, 1) == AfterLines(rest, 0) && AfterLines(st.buffer, k + 2) == AfterLines(rest, k + 1);
  }

  lemma DrainDone(num: ReadInt, st: State)
    requires Drained(st)
    ensures Drain(num, st) == Fed(st, [], false)
  {
    assert Lines(st.buffer) == Cut([], st.buffer);
  }

  class SSEParser {
    const num: ReadInt
    var buffer: string
    var currentEvent: Option<string>
    var dataLines: seq<string>
    var currentId: Option<string>
    var currentRetry: Option<int>

    constructor (num: ReadInt)
      ensures this.num == num && Value() == State("", NO_FIELDS) && Drained(Value())
    {
      this.num := num;
      buffer, currentEvent, dataLines, currentId, currentRetry := "", None, [], None, None;
      new;
      assert Find("", '\r') == -1 && Find("", '\n') == -1;
    }

    function Pending(): Fields
      reads this
    {
      Fields(currentEvent, dataLines, currentId, currentRetry)
    }

    function Value(): State
      reads this
    {
      State(buffer, Pending())
    }

    method DispatchPending() returns (event: seq<SSEEvent>)
      modifies this
      ensures Outcome(Pending(), event) == Dispatch(old(Pending()))
      ensures buffer == old(buffer)
    {
      if dataLines == [] && currentEvent.None? {
        return [];
      }
      var name := if currentEvent.Some? && currentEvent.value != "" then currentEvent.value else "message";
      event := [SSEEvent(name, JoinLines(dataLines), currentId, currentRetry)];
      currentEvent, dataLines, currentId, currentRetry := None, [], None, None;
    }

    /** _process_line, which raises when int does. */
    method Process(line: string) returns (event: seq<SSEEvent>, raised: bool)
      modifies this
      ensures raised <==> LineRaises(num, line)
      ensures Outcome(Pending(), event) == ProcessLine(num, old(Pending()), line)
      ensures buffer == old(buffer)
    {
      event, raised := [], false;
      FindMeans(line, ':');
      if line == "" {
        event := DispatchPending();
        return;
      }
      if line[0] == ':' {
        return;
      }
      var colon := Find(line, ':');
      var field, value := line, "";
      if colon != -1 {
        field, value := line[..colon], line[colon + 1..];
        if value != "" && value[0] == ' ' {
          value := value[1..];
        }
      }
      if field == "event" {
        currentEvent := Some(value);
      } else if field == "data" {
        dataLines := dataLines + [value];
      } else if field == "id" {
        if '\0' !in value {
          currentId := Some(value);
        }
      } else if field == "retry" {
        match num(value) {
          case Ignored =>
          case Value(n) => currentRetry := Some(n);
          case Unreadable => raised := true;
        }
      }
    }

    /** Takes the next complete line off the buffer, if there is one. */
    method TakeLine() returns (line: Option<string>)
      modifies this`buffer
      ensures match NextBreak(old(buffer))
              case None => line == None && buffer == old(buffer)
              case Some(b) => line == Some(old(buffer)[..b.pos]) && buffer == old(buffer)[b.pos + b.skip..]
    {
      var cr, lf := Find(buffer, '\r'), Find(buffer, '\n');
      var end, skip;
      if cr != -1 && (lf == -1 || cr < lf) {
        if cr == |buffer| - 1 {
          return None;
        }
        end, skip := cr, if buffer[cr + 1] == '\n' then 2 else 1;
      } else if lf != -1 {
        end, skip := lf, 1;
      } else {
        return None;
      }
      line := Some(buffer[..end]);
      buffer := buffer[end + skip..];
    }

    /** feed on a piece of text that is not the end of the stream. */
    method IngestText(text: string) returns (events: seq<SSEEvent>, raised: bool)
      modifies this
      ensures Fed(Value(), events, raised) == Ingest(num, old(Value()), text)
      ensures raised ==> events == []
    {
      hide Drain, Lines, ProcessLine, LineRaises;
      buffer := buffer + text;
      events, raised := [], false;
      ghost var whole := Drain(num, Value());
      assert [] + whole.events == whole.events;
      while true
        invariant whole == Then(events, Drain(num, Value())) && !raised
        decreases |buffer|
      {
        ghost var before := Value();
        var line := TakeLine();
        if line.None? {
          DrainDone(num, before);
          break;
        }
        DrainLine(num, before, NextBreak(before.buffer).value);
        var event, failed := Process(line.value);
        if failed {
          RaisingChangesNothing(num, before.fields, line.value);
          return [], true;
        }
        assert events + event + Drain(num, Value()).events == events + (event + Drain(num, Value()).events);
        events := events + event;
      }
    }

    /** close, which splits what is left as str.splitlines does. */
    method Close() returns (events: seq<SSEEvent>, raised: bool)
      modifies this
      ensures Fed(Value(), events, raised) == CloseStream(num, old(Value()))
      ensures raised ==> events == []
    {
      hide ProcessLine, LineRaises, SplitLines;
      var lines := SplitLines(buffer);
      events, raised := [], false;
      buffer := "";
      for i := 0 to |lines|
        invariant buffer == "" && !raised && i <= Readable(num, lines)
        invariant Outcome(Pending(), events) == ProcessLines(num, old(Pending()), lines[..i])
      {
        ProcessLinesSnoc(num, old(Pending()), lines[..i], lines[i]);
        assert lines[..i + 1] == lines[..i] + [lines[i]];
        var event, failed := Process(lines[i]);
        if failed {
          RaisingChangesNothing(num, ProcessLines(num, old(Pending()), lines[..i]).state, lines[i]);
          assert Readable(num, lines) == i;
          return [], true;
        }
        events := events + event;
      }
      assert lines[..|lines|] == lines;
      var last := DispatchPending();
      events := events + last;
    }

    /** feed: an empty chunk closes the stream. */
    method Feed(chunk: string) returns (events: seq<SSEEvent>, raised: bool)
      modifies this
      ensures Fed(Value(), events, raised)
           == if chunk == "" then CloseStream(num, old(Value())) else Ingest(num, old(Value()), chunk)
      ensures raised ==> events == []
    {
      if chunk == "" {
        events, raised := Close();
      } else {
        events, raised := IngestText(chunk);
      }
    }
  }
}

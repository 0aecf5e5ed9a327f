/** Reading one text in different pieces, when a line or the handling of an event can raise. */
module SseReading {
  import opened Collections
  import opened Sse

  // ---------- readings ----------

  /** The events that a caller handles when handling a bad one raises: up to the first bad one, that one included. */
  function Handled(bad: SSEEvent -> bool, events: seq<SSEEvent>): seq<SSEEvent> {
    if events == [] then []
    else if bad(events[0]) then [events[0]]
    else [events[0]] + Handled(bad, events[1..])
  }

  /** One call: the parser's state after it and the events handled; the exception goes to a caller that goes on. */
  function ReadOne(num: ReadInt, bad: SSEEvent -> bool, st: State, text: string): Outcome<State> {
    var fed := Ingest(num, st, text);
    Outcome(fed.state, Handled(bad, fed.events))
  }

  function ReadMore(num: ReadInt, bad: SSEEvent -> bool, out: Outcome<State>, text: string): Outcome<State> {
    var more := ReadOne(num, bad, out.state, text);
    Outcome(more.state, out.events + more.events)
  }

  function ReadAll(num: ReadInt, bad: SSEEvent -> bool, st: State, texts: seq<string>): Outcome<State> {
    if texts == [] then Outcome(st, [])
    else ReadMore(num, bad, ReadAll(num, bad, st, texts[..|texts| - 1]), texts[|texts| - 1])
  }

  /** No event but the last one is bad. */
  ghost predicate BadOnlyLast(bad: SSEEvent -> bool, events: seq<SSEEvent>) {
    forall i :: 0 <= i < |events| - 1 ==> !bad(events[i])
  }

  /**
   * No complete line raises and no event but the last one is bad; or just the last complete line raises and
   * the lines before it emit nothing.
   */
  ghost predicate Harmless(num: ReadInt, bad: SSEEvent -> bool, st: State, text: string) {
    var lines := Lines(st.buffer + text).lines;
    var k := Readable(num, lines);
    var events := ProcessLines(num, st.fields, lines[..k]).events;
    if k == |lines| then BadOnlyLast(bad, events) else k == |lines| - 1 && events == []
  }

  // ---------- lines and what comes after them ----------

  lemma {:induction false} AfterLinesMeans(s: string, k: nat)
    requires k <= |Lines(s).lines|
    ensures Lines(AfterLines(s, k)) == Cut(Lines(s).lines[k..], Lines(s).rest)
    decreases k
  {
    hide NextBreak, Lines;
    if k == 0 {
      assert Lines(s).lines[0..] == Lines(s).lines;
    } else {
      HasBreak(s);
      var b := NextBreak(s).value;
      var tail := s[b.pos + b.skip..];
      LinesUnfold(s, b);
      AfterLinesMeans(tail, k - 1);
      assert ([s[..b.pos]] + Lines(tail).lines)[k..] == Lines(tail).lines[k - 1..];
    }
  }

  lemma {:induction false} AfterLinesAppend(a: string, b: string, k: nat)
    requires k <= |Lines(a).lines|
    ensures AfterLines(a + b, k) == AfterLines(a, k) + b
    decreases k
  {
    hide NextBreak;
    if k > 0 {
      var n := NextBreak(a).value;
      BreakStays(a, b);
      LinesUnfold(a, n);
      assert (a + b)[n.pos + n.skip..] == a[n.pos + n.skip..] + b;
      AfterLinesAppend(a[n.pos + n.skip..], b, k - 1);
    }
  }

  lemma {:induction false} AfterLinesTwice(s: string, j: nat, k: nat)
    requires j <= |Lines(s).lines|
    ensures AfterLines(s, j + k) == AfterLines(AfterLines(s, j), k)
    decreases j
  {
    hide NextBreak;
    if j > 0 {
      var b := NextBreak(s).value;
      LinesUnfold(s, b);
      AfterLinesTwice(s[b.pos + b.skip..], j - 1, k);
    }
  }

  /** After all complete lines comes the rest. */
  lemma {:induction false} AfterAllLines(s: string)
    ensures AfterLines(s, |Lines(s).lines|) == Lines(s).rest
    decreases |s|
  {
    match NextBreak(s) {
      case None =>
      case Some(b) =>
        LinesUnfold(s, b);
        AfterAllLines(s[b.pos + b.skip..]);
    }
  }

  lemma {:induction false} ReadableAppend(num: ReadInt, a: seq<string>, b: seq<string>)
    ensures Readable(num, a + b) == if Readable(num, a) < |a| then Readable(num, a) else |a| + Readable(num, b)
  {
    if a == [] {
      assert a + b == b;
    } else {
      assert (a + b)[0] == a[0] && (a + b)[1..] == a[1..] + b;
      ReadableAppend(num, a[1..], b);
    }
  }

  lemma {:induction false} HandledAll(bad: SSEEvent -> bool, events: seq<SSEEvent>)
    requires BadOnlyLast(bad, events)
    ensures Handled(bad, events) == events
  {
    if events != [] {
      HandledAll(bad, events[1..]);
    }
  }

  lemma HandledSome(bad: SSEEvent -> bool, events: seq<SSEEvent>)
    requires events != []
    ensures Handled(bad, events) != []
  {
  }

  // ---------- harmless texts ----------

  /** The lines of a longer text. */
  lemma LongerLines(st: State, a: string, b: string)
    ensures var x := Lines(st.buffer + a);
            Lines(st.buffer + (a + b)) == Cut(x.lines + Lines(x.rest + b).lines, Lines(x.rest + b).rest)
  {
    assert st.buffer + (a + b) == (st.buffer + a) + b;
    LinesAppend(st.buffer + a, b);
  }

  /** When no line raises, a call is the processing of its lines. */
  lemma ReadClean(num: ReadInt, bad: SSEEvent -> bool, st: State, text: string)
    requires Readable(num, Lines(st.buffer + text).lines) == |Lines(st.buffer + text).lines|
    ensures var cut := Lines(st.buffer + text);
            var out := ProcessLines(num, st.fields, cut.lines);
            ReadOne(num, bad, st, text) == Outcome(State(cut.rest, out.state), Handled(bad, out.events))
  {
    var lines := Lines(st.buffer + text).lines;
    assert lines[..|lines|] == lines;
  }

  lemma CleanStep(num: ReadInt, bad: SSEEvent -> bool, st: State, a: string, b: string)
    requires var lines := Lines(st.buffer + (a + b)).lines;
             Readable(num, lines) == |lines| && BadOnlyLast(bad, ProcessLines(num, st.fields, lines).events)
    ensures Harmless(num, bad, st, a)
    ensures ReadOne(num, bad, st, a + b) == ReadMore(num, bad, ReadOne(num, bad, st, a), b)
  {
    hide ProcessLines, Lines;
    var x, f := Lines(st.buffer + a), st.fields;
    var y := Lines(x.rest + b);
    LongerLines(st, a, b);
    ReadableAppend(num, x.lines, y.lines);
    ProcessLinesAppend(num, f, x.lines, y.lines);
    var first := ProcessLines(num, f, x.lines);
    var more := ProcessLines(num, first.state, y.lines);
    assert x.lines[..|x.lines|] == x.lines;
    BadSplit(bad, first.events, more.events);
    HandledAll(bad, first.events);
    HandledAll(bad, more.events);
    HandledAll(bad, first.events + more.events);
    ReadClean(num, bad, st, a);
    ReadClean(num, bad, st, a + b);
    ReadClean(num, bad, State(x.rest, first.state), b);
  }

  lemma BadSplit(bad: SSEEvent -> bool, a: seq<SSEEvent>, b: seq<SSEEvent>)
    requires BadOnlyLast(bad, a + b)
    ensures BadOnlyLast(bad, a) && BadOnlyLast(bad, b)
  {
    assert forall i :: 0 <= i < |a| ==> (a + b)[i] == a[i];
    assert forall i :: 0 <= i < |b| ==> (a + b)[|a| + i] == b[i];
  }

  /** A call whose line k raises. */
  lemma ReadRaising(num: ReadInt, bad: SSEEvent -> bool, st: State, text: string)
    requires Readable(num, Lines(st.buffer + text).lines) < |Lines(st.buffer + text).lines|
    ensures var lines := Lines(st.buffer + text).lines;
            var k := Readable(num, lines);
            ReadOne(num, bad, st, text)
            == Outcome(State(AfterLines(st.buffer + text, k + 1), ProcessLines(num, st.fields, lines[..k]).state), [])
  {
  }

  /** Just the last line raises, and it is complete in the first piece. */
  lemma RaisedStep(num: ReadInt, bad: SSEEvent -> bool, st: State, a: string, b: string)
    requires Harmless(num, bad, st, a + b)
    requires var lines := Lines(st.buffer + (a + b)).lines;
             Readable(num, lines) < |lines| && Readable(num, lines) < |Lines(st.buffer + a).lines|
    ensures Harmless(num, bad, st, a)
    ensures ReadOne(num, bad, st, a + b) == ReadMore(num, bad, ReadOne(num, bad, st, a), b)
  {
    hide ProcessLines, Lines, AfterLines;
    var s, x := st.buffer + a, Lines(st.buffer + a);
    var y := Lines(x.rest + b);
    LongerLines(st, a, b);
    ReadableAppend(num, x.lines, y.lines);
    assert y.lines == [] && x.lines + y.lines == x.lines;
    var k := |x.lines| - 1;
    ReadRaising(num, bad, st, a);
    ReadRaising(num, bad, st, a + b);
    AfterLinesAppend(s, b, k + 1);
    assert st.buffer + (a + b) == s + b;
    AfterAllLines(s);
    var next := State(x.rest, ProcessLines(num, st.fields, x.lines[..k]).state);
    assert ReadOne(num, bad, st, a) == Outcome(next, []);
    DrainDone(num, State(x.rest + b, next.fields)) by {
      NothingLeft(x.rest + b);
    }
    assert [] + Handled(bad, []) == [];
  }

  lemma NothingLeft(s: string)
    requires Lines(s).lines == []
    ensures NextBreak(s).None? && Lines(s).rest == s
  {
  }

  /** What follows all the lines of a text and some of the next ones. */
  lemma AfterBoth(s: string, b: string, k: nat)
    ensures AfterLines(s + b, |Lines(s).lines| + k) == AfterLines(Lines(s).rest + b, k)
  {
    hide Lines, AfterLines;
    AfterLinesAppend(s, b, |Lines(s).lines|);
    AfterAllLines(s);
    LinesAppend(s, b);
    AfterLinesTwice(s + b, |Lines(s).lines|, k);
  }

  /** Just the last line raises, and it is completed by the second piece. */
  lemma RaisingStep(num: ReadInt, bad: SSEEvent -> bool, st: State, a: string, b: string)
    requires Harmless(num, bad, st, a + b)
    requires var lines := Lines(st.buffer + (a + b)).lines;
             Readable(num, lines) < |lines| && Readable(num, lines) >= |Lines(st.buffer + a).lines|
    ensures Harmless(num, bad, st, a)
    ensures ReadOne(num, bad, st, a + b) == ReadMore(num, bad, ReadOne(num, bad, st, a), b)
  {
    hide ReadOne, LineRaises;
    hide ProcessLines, Lines, AfterLines, Readable;
    var s, x, f := st.buffer + a, Lines(st.buffer + a), st.fields;
    var y := Lines(x.rest + b);
    LongerLines(st, a, b);
    ReadableAppend(num, x.lines, y.lines);
    var k := |y.lines| - 1;
    var lines := x.lines + y.lines;
    assert lines[..|x.lines| + k] == x.lines + y.lines[..k];
    ProcessLinesAppend(num, f, x.lines, y.lines[..k]);
    var first := ProcessLines(num, f, x.lines);
    assert x.lines[..|x.lines|] == x.lines && first.events == [];
    ReadClean(num, bad, st, a);
    ReadRaising(num, bad, st, a + b);
    ReadRaising(num, bad, State(x.rest, first.state), b);
    assert st.buffer + (a + b) == s + b;
    AfterBoth(s, b, k + 1);
    assert [] + Handled(bad, []) == [];
  }

  /** A harmless text can be read in two pieces, and the first is harmless. */
  lemma HarmlessStep(num: ReadInt, bad: SSEEvent -> bool, st: State, a: string, b: string)
    requires Harmless(num, bad, st, a + b)
    ensures Harmless(num, bad, st, a)
    ensures ReadOne(num, bad, st, a + b) == ReadMore(num, bad, ReadOne(num, bad, st, a), b)
  {
    hide ProcessLines, Lines, ReadOne, ReadMore;
    var lines := Lines(st.buffer + (a + b)).lines;
    if Readable(num, lines) == |lines| {
      assert lines[..|lines|] == lines;
      CleanStep(num, bad, st, a, b);
    } else if Readable(num, lines) < |Lines(st.buffer + a).lines| {
      RaisedStep(num, bad, st, a, b);
    } else {
      RaisingStep(num, bad, st, a, b);
    }
  }

  /** However a harmless text is read, the parser ends in the same state and the same events are handled. */
  lemma {:induction false} ChunkInvariance(num: ReadInt, bad: SSEEvent -> bool, st: State, texts: seq<string>)
    requires Drained(st) && Harmless(num, bad, st, Flatten(texts))
    ensures ReadAll(num, bad, st, texts) == ReadOne(num, bad, st, Flatten(texts))
  {
    hide Harmless, ReadOne, ReadMore, Drained;
    if texts == [] {
      ReadNothing(num, bad, st);
    } else {
      var init, last := texts[..|texts| - 1], texts[|texts| - 1];
      assert texts == init + [last];
      FlattenSnoc(init, last);
      HarmlessStep(num, bad, st, Flatten(init), last);
      ChunkInvariance(num, bad, st, init);
    }
  }

  lemma ReadNothing(num: ReadInt, bad: SSEEvent -> bool, st: State)
    requires Drained(st)
    ensures ReadOne(num, bad, st, "") == Outcome(st, [])
  {
    assert st.buffer + "" == st.buffer;
    DrainDone(num, st);
  }

  /** The same through the close. */
  lemma ChunkInvarianceThroughClose(num: ReadInt, bad: SSEEvent -> bool, st: State, texts: seq<string>, other: seq<string>)
    requires Drained(st) && Flatten(texts) == Flatten(other) && Harmless(num, bad, st, Flatten(texts))
    ensures ReadAll(num, bad, st, texts) == ReadAll(num, bad, st, other)
    ensures CloseStream(num, ReadAll(num, bad, st, texts).state) == CloseStream(num, ReadAll(num, bad, st, other).state)
  {
    ChunkInvariance(num, bad, st, texts);
    ChunkInvariance(num, bad, st, other);
  }

  // ---------- cutting a text after some of its lines ----------

  /** A position at which a prefix has exactly the first k complete lines. */
  function CutAt(s: string, k: nat): (n: nat)
    requires k <= |Lines(s).lines|
    ensures n <= |s|
    decreases k
  {
    if k == 0 then 0
    else
      var b := NextBreak(s).value;
      LinesUnfold(s, b);
      if k == 1 && s[b.pos] == '\r' && b.skip == 1 then
        NextBreakMeans(s, b);
        b.pos + 2
      else b.pos + b.skip + CutAt(s[b.pos + b.skip..], k - 1)
  }

  lemma BreakOfPrefix(s: string, b: Break, n: nat)
    requires NextBreak(s) == Some(b) && b.pos + b.skip <= n <= |s|
    requires s[b.pos] == '\r' && b.skip == 1 ==> b.pos + 2 <= n
    ensures NextBreak(s[..n]) == Some(b)
  {
    NextBreakMeans(s, b);
    assert s[..n][..b.pos] == s[..b.pos];
    FirstBreakAt(s[..n], b.pos);
  }

  lemma OneCharHasNoLine(s: string)
    requires |s| <= 1 && '\n' !in s
    ensures Lines(s).lines == []
  {
    NoBreakMeans(s);
  }

  lemma HasBreak(s: string)
    ensures Lines(s).lines != [] <==> NextBreak(s).Some?
  {
  }

  /** The lines of a prefix that goes far enough to show the first break. */
  lemma PrefixLines(s: string, b: Break, n: nat)
    requires NextBreak(s) == Some(b) && b.pos + b.skip <= n <= |s|
    requires s[b.pos] == '\r' && b.skip == 1 ==> b.pos + 2 <= n
    ensures Lines(s[..n]).lines == [s[..b.pos]] + Lines(s[b.pos + b.skip..n]).lines
  {
    hide NextBreak, Lines;
    BreakOfPrefix(s, b, n);
    LinesUnfold(s[..n], b);
    assert s[..n][..b.pos] == s[..b.pos] && s[..n][b.pos + b.skip..] == s[b.pos + b.skip..n];
  }

  lemma NoCut(s: string)
    ensures CutAt(s, 0) == 0
  {
  }

  lemma CutAtStep(s: string, k: nat)
    requires 0 < k <= |Lines(s).lines| && NextBreak(s).Some?
    ensures var b := NextBreak(s).value;
            && b.pos < |s| && |Lines(s[b.pos + b.skip..]).lines| == |Lines(s).lines| - 1
            && CutAt(s, k) == if k == 1 && s[b.pos] == '\r' && b.skip == 1 then b.pos + 2
                              else b.pos + b.skip + CutAt(s[b.pos + b.skip..], k - 1)
  {
    hide Lines;
    LinesUnfold(s, NextBreak(s).value);
    NextBreakMeans(s, NextBreak(s).value);
  }

  lemma {:induction false} CutAtMeans(s: string, k: nat)
    requires k <= |Lines(s).lines|
    ensures Lines(s[..CutAt(s, k)]).lines == Lines(s).lines[..k]
    decreases k
  {
    hide NextBreak, Find, Lines, CutAt;
    if k == 0 {
      assert s[..0] == "" && CutAt(s, 0) == 0 by { NoCut(s); }
      OneCharHasNoLine("");
    } else {
      HasBreak(s);
      CutAtStep(s, k);
      var b, n := NextBreak(s).value, CutAt(s, k);
      var next, tail := b.pos + b.skip, s[b.pos + b.skip..];
      LinesUnfold(s, b);
      NextBreakMeans(s, b);
      assert ([s[..b.pos]] + Lines(tail).lines)[..k] == [s[..b.pos]] + Lines(tail).lines[..k - 1];
      if k == 1 && s[b.pos] == '\r' && b.skip == 1 {
        OneCharHasNoLine(s[next..n]);
      } else {
        CutAtMeans(tail, k - 1);
        if k > 1 { CutAtPositive(tail, k - 1); }
        assert s[next..n] == tail[..CutAt(tail, k - 1)];
      }
      PrefixLines(s, b, n);
    }
  }

  lemma CutAtPositive(s: string, k: nat)
    requires 0 < k <= |Lines(s).lines|
    ensures CutAt(s, k) > 0
  {
  }

  /** No prefix of a text without a complete line has one. */
  lemma PrefixHasNoLine(a: string, b: string, n: nat)
    requires NextBreak(a).None? && n <= |a + b|
    ensures n <= |a| ==> Lines((a + b)[..n]).lines == []
    ensures n == |a + b| ==> Lines((a + b)[..n]) == Lines(a + b)
  {
    if n <= |a| {
      assert (a + b)[..n] == a[..n] && a == a[..n] + a[n..];
      if NextBreak(a[..n]).Some? { BreakStays(a[..n], a[n..]); }
    }
    assert n == |a + b| ==> (a + b)[..n] == a + b;
  }

  /** A parser with no complete line waiting can be given the first k lines of a text alone. */
  lemma CutText(st: State, text: string, k: nat) returns (p: string, q: string)
    requires Drained(st) && 0 < k < |Lines(st.buffer + text).lines|
    ensures p != "" && q != "" && p + q == text
    ensures Lines(st.buffer + p).lines == Lines(st.buffer + text).lines[..k]
  {
    hide Lines, NextBreak, CutAt;
    var s := st.buffer + text;
    var n := CutAt(s, k);
    CutAtMeans(s, k);
    PrefixHasNoLine(st.buffer, text, n);
    p, q := s[|st.buffer|..n], s[n..];
    assert st.buffer + p == s[..n];
    assert p + q == text;
  }

  // ---------- when the reading matters ----------

  lemma ReadSingle(num: ReadInt, bad: SSEEvent -> bool, st: State, text: string)
    ensures ReadAll(num, bad, st, [text]) == ReadOne(num, bad, st, text)
  {
    assert [text][..0] == [];
    assert ReadAll(num, bad, st, []) == Outcome(st, []);
    assert [] + ReadOne(num, bad, st, text).events == ReadOne(num, bad, st, text).events;
  }

  lemma ReadTwo(num: ReadInt, bad: SSEEvent -> bool, st: State, p: string, q: string)
    ensures ReadAll(num, bad, st, [p, q]) == ReadMore(num, bad, ReadOne(num, bad, st, p), q)
    ensures Flatten([p, q]) == p + q
  {
    assert [p, q][..1] == [p] && [p][..0] == [];
    assert ReadAll(num, bad, st, []) == Outcome(st, []);
    assert [] + ReadOne(num, bad, st, p).events == ReadOne(num, bad, st, p).events;
    assert Flatten([p, q]) == p + Flatten([q]) && Flatten([q]) == q + Flatten([]);
  }

  lemma NoLinesNoEvents(num: ReadInt, f: Fields, lines: seq<string>, k: nat)
    requires k <= |lines| && ProcessLines(num, f, lines[..k]).events != []
    ensures k > 0
  {
  }

  lemma NotAllLines(num: ReadInt, f: Fields, lines: seq<string>, k: nat)
    requires k <= |lines| && ProcessLines(num, f, lines[..k]).events != ProcessLines(num, f, lines).events
    ensures k < |lines|
  {
    assert lines[..|lines|] == lines;
  }

  /** Events before a raising line are lost in one call and handled in two. */
  lemma EventsLost(num: ReadInt, bad: SSEEvent -> bool, st: State, text: string) returns (p: string, q: string)
    requires Drained(st)
    requires var lines := Lines(st.buffer + text).lines;
             var k := Readable(num, lines);
             k < |lines| && ProcessLines(num, st.fields, lines[..k]).events != []
    ensures p != "" && q != "" && p + q == text
    ensures ReadAll(num, bad, st, [p, q]).events != ReadOne(num, bad, st, text).events
  {
    hide Lines;
    var lines := Lines(st.buffer + text).lines;
    var k := Readable(num, lines);
    NoLinesNoEvents(num, st.fields, lines, k);
    p, q := CutText(st, text, k);
    AllReadable(num, lines[..k]);
    ReadClean(num, bad, st, p);
    HandledSome(bad, ProcessLines(num, st.fields, lines[..k]).events);
    ReadRaising(num, bad, st, text);
    ReadTwo(num, bad, st, p, q);
  }

  lemma DrainShorter(num: ReadInt, st: State)
    requires NextBreak(st.buffer).Some?
    ensures |Drain(num, st).state.buffer| < |st.buffer|
  {
    var b := NextBreak(st.buffer).value;
    DrainLine(num, st, b);
    var rest := st.buffer[b.pos + b.skip..];
    DrainNotLonger(num, State(rest, ProcessLine(num, st.fields, st.buffer[..b.pos]).state));
  }

  lemma {:induction false} DrainNotLonger(num: ReadInt, st: State)
    ensures |Drain(num, st).state.buffer| <= |st.buffer|
    decreases |st.buffer|
  {
    match NextBreak(st.buffer) {
      case None => DrainDone(num, st);
      case Some(b) =>
        DrainLine(num, st, b);
        DrainNotLonger(num, State(st.buffer[b.pos + b.skip..], ProcessLine(num, st.fields, st.buffer[..b.pos]).state));
    }
  }

  /** Lines after a raising one are left in the buffer by one call and read by the second of two. */
  lemma LinesLeft(num: ReadInt, bad: SSEEvent -> bool, st: State, text: string) returns (p: string, q: string)
    requires Drained(st)
    requires var lines := Lines(st.buffer + text).lines; Readable(num, lines) + 1 < |lines|
    ensures p != "" && q != "" && p + q == text
    ensures ReadAll(num, bad, st, [p, q]).state != ReadOne(num, bad, st, text).state
  {
    hide Drain, LineRaises;
    hide Lines, ProcessLines, AfterLines;
    var s, lines := st.buffer + text, Lines(st.buffer + text).lines;
    var k := Readable(num, lines);
    p, q := CutText(st, text, k + 1);
    assert lines == lines[..k + 1] + lines[k + 1..];
    ReadableAppend(num, lines[..k + 1], lines[k + 1..]);
    assert lines[..k + 1][..k] == lines[..k];
    ReadRaising(num, bad, st, p);
    ReadRaising(num, bad, st, text);
    ReadTwo(num, bad, st, p, q);
    assert (st.buffer + p) + q == s;
    AfterLinesAppend(st.buffer + p, q, k + 1);
    AfterLinesMeans(s, k + 1);
    var left := AfterLines(s, k + 1);
    assert Lines(left).lines != [] && NextBreak(left).Some? by { HasBreak(left); }
    DrainShorter(num, State(left, ProcessLines(num, st.fields, lines[..k]).state));
  }

  /** The lines up to the one that emits event j. */
  lemma {:induction false} EventCut(num: ReadInt, f: Fields, lines: seq<string>, j: nat) returns (k: nat)
    requires j < |ProcessLines(num, f, lines).events|
    ensures 0 < k <= |lines| && ProcessLines(num, f, lines[..k]).events == ProcessLines(num, f, lines).events[..j + 1]
  {
    var init, last := lines[..|lines| - 1], lines[|lines| - 1];
    assert lines == init + [last];
    ProcessLinesSnoc(num, f, init, last);
    var before := ProcessLines(num, f, init).events;
    if j < |before| {
      k := EventCut(num, f, init, j);
      assert init[..k] == lines[..k];
      assert ProcessLines(num, f, lines).events[..j + 1] == before[..j + 1];
    } else {
      k := |lines|;
      assert lines[..k] == lines;
    }
  }

  /** Events after a bad one are dropped by one call and handled by the second of two. */
  lemma EventsDropped(num: ReadInt, bad: SSEEvent -> bool, st: State, text: string) returns (p: string, q: string)
    requires Drained(st)
    requires var lines := Lines(st.buffer + text).lines;
             Readable(num, lines) == |lines| && !BadOnlyLast(bad, ProcessLines(num, st.fields, lines).events)
    ensures p != "" && q != "" && p + q == text
    ensures ReadAll(num, bad, st, [p, q]).events != ReadOne(num, bad, st, text).events
  {
    hide Lines;
    var lines, f := Lines(st.buffer + text).lines, st.fields;
    var events := ProcessLines(num, f, lines).events;
    var j := FirstBad(bad, events);
    var k := EventCut(num, f, lines, j);
    NotAllLines(num, f, lines, k);
    p, q := CutText(st, text, k);
    LongerLines(st, p, q);
    var x := Lines(st.buffer + p);
    var y := Lines(x.rest + q).lines;
    ReadableAppend(num, x.lines, y);
    ProcessLinesAppend(num, f, x.lines, y);
    var first := ProcessLines(num, f, x.lines);
    var more := ProcessLines(num, first.state, y).events;
    assert events == first.events + more && |first.events| == j + 1;
    ReadClean(num, bad, st, p);
    ReadClean(num, bad, st, text);
    ReadClean(num, bad, State(x.rest, first.state), q);
    HandledTo(bad, events, j);
    HandledAll(bad, first.events);
    HandledSome(bad, more);
    ReadTwo(num, bad, st, p, q);
  }

  lemma FirstBad(bad: SSEEvent -> bool, events: seq<SSEEvent>) returns (j: nat)
    requires !BadOnlyLast(bad, events)
    ensures j < |events| - 1 && bad(events[j]) && forall i :: 0 <= i < j ==> !bad(events[i])
  {
    j := 0;
    while !bad(events[j])
      invariant j < |events| - 1 && forall i :: 0 <= i < j ==> !bad(events[i])
      decreases |events| - j
    {
      j := j + 1;
    }
  }

  lemma {:induction false} HandledTo(bad: SSEEvent -> bool, events: seq<SSEEvent>, j: nat)
    requires j < |events| && bad(events[j]) && forall i :: 0 <= i < j ==> !bad(events[i])
    ensures Handled(bad, events) == events[..j + 1]
  {
    if j > 0 {
      HandledTo(bad, events[1..], j - 1);
      assert events[..j + 1] == [events[0]] + events[1..][..j];
    }
  }

  /**
   * All readings of a text leave the parser in the same state and handle the same events if and only if the
   * text is harmless.
   */
  lemma ReadingMattersIff(num: ReadInt, bad: SSEEvent -> bool, st: State, text: string)
    requires Drained(st)
    ensures (forall texts: seq<string> :: Flatten(texts) == text && "" !in texts
               ==> ReadAll(num, bad, st, texts) == ReadOne(num, bad, st, text))
       <==> Harmless(num, bad, st, text)
  {
    hide ReadAll, ReadOne, Drained;
    if Harmless(num, bad, st, text) {
      forall texts: seq<string> | Flatten(texts) == text && "" !in texts
        ensures ReadAll(num, bad, st, texts) == ReadOne(num, bad, st, text)
      {
        ChunkInvariance(num, bad, st, texts);
      }
    } else {
      var p, q := Distinguish(num, bad, st, text);
      ReadTwo(num, bad, st, p, q);
      assert Flatten([p, q]) == text && "" !in [p, q];
    }
  }

  lemma Distinguish(num: ReadInt, bad: SSEEvent -> bool, st: State, text: string) returns (p: string, q: string)
    requires Drained(st) && !Harmless(num, bad, st, text)
    ensures p != "" && q != "" && p + q == text
    ensures ReadAll(num, bad, st, [p, q]) != ReadOne(num, bad, st, text)
  {
    hide ReadAll, ReadOne, Lines, ProcessLines;
    var lines := Lines(st.buffer + text).lines;
    var k := Readable(num, lines);
    if k == |lines| {
      assert lines[..k] == lines;
      p, q := EventsDropped(num, bad, st, text);
    } else if ProcessLines(num, st.fields, lines[..k]).events != [] {
      p, q := EventsLost(num, bad, st, text);
    } else {
      p, q := LinesLeft(num, bad, st, text);
    }
  }

  /** For the parser alone: all readings give the same events and state exactly in these texts. */
  lemma ParserReadingMattersIff(num: ReadInt, st: State, text: string)
    requires Drained(st)
    ensures var lines := Lines(st.buffer + text).lines;
            var k := Readable(num, lines);
            (forall texts: seq<string> :: Flatten(texts) == text && "" !in texts
               ==> ReadAll(num, NeverBad, st, texts) == ReadOne(num, NeverBad, st, text))
            <==> k == |lines| || (k == |lines| - 1 && ProcessLines(num, st.fields, lines[..k]).events == [])
  {
    ReadingMattersIff(num, NeverBad, st, text);
  }

  function NeverBad(e: SSEEvent): bool {
    false
  }

  // ---------- closing twice ----------

  /** A second close finds nothing to do exactly when the first has left nothing pending, as it does unless it raised. */
  lemma SecondCloseIff(num: ReadInt, st: State)
    ensures var once := CloseStream(num, st);
            && (CloseStream(num, once.state) == Fed(once.state, [], false) <==> !Emits(once.state.fields))
            && (Emits(once.state.fields) ==> once.raised)
  {
    var once := CloseStream(num, st).state;
    assert SplitLines(once.buffer) == [] && ProcessLines(num, once.fields, []) == Outcome(once.fields, []);
    var none: seq<string> := [];
    assert none[..0] == none;
  }

  // ---------- texts on which a retry raises ----------

  lemma RetryLine(num: ReadInt, v: string)
    requires num(v).Unreadable? && v != "" && v[0] != ' '
    ensures LineRaises(num, "retry:" + v)
  {
    var line := "retry:" + v;
    FindMeans("retry", ':');
    FindAppend("retry", ":" + v, ':');
    assert line == "retry" + (":" + v);
    assert line[..5] == "retry" && line[6..] == v;
  }

  /** A message with one data line, named unless the name is empty, and the blank line that ends it. */
  function OneMessage(name: string, data: string): string {
    (if name == "" then "" else "event:" + name + "\n") + ("data:" + data + "\n" + ("" + "\n" + ""))
  }

  function MessageLines(name: string, data: string): seq<string> {
    (if name == "" then [] else ["event:" + name]) + ["data:" + data, ""]
  }

  function MessageEvent(name: string, data: string): SSEEvent {
    SSEEvent(if name == "" then "message" else name, data, None, None)
  }

  /** One line, not empty and with no leading space, that can be the value of a field. */
  ghost predicate IsValue(s: string) {
    s != "" && s[0] != ' ' && NoBreakIn(s)
  }

  lemma ValueIsNotEmpty(s: string)
    requires IsValue(s)
    ensures s != ""
  {
  }

  lemma BlankLine(num: ReadInt, f: Fields)
    ensures ProcessLine(num, f, "") == Dispatch(f) && !LineRaises(num, "")
  {
    FindMeans("", ':');
  }

  lemma EventLine(num: ReadInt, f: Fields, value: string)
    requires value != "" && value[0] != ' '
    ensures ProcessLine(num, f, "event:" + value) == Outcome(f.(event := Some(value)), [])
    ensures !LineRaises(num, "event:" + value)
  {
    var line := "event:" + value;
    FindMeans("event", ':');
    FindAppend("event", ":" + value, ':');
    assert line == "event" + (":" + value);
    assert line[..5] == "event" && line[6..] == value;
  }

  lemma UnnamedMessage(num: ReadInt, f: Fields, data: string)
    requires IsValue(data) && f.dataLines == []
    ensures Lines("data:" + data + "\n" + ("" + "\n" + "")) == Cut(["data:" + data, ""], "")
    ensures ProcessLines(num, f, ["data:" + data, ""]) == Dispatch(f.(dataLines := [data]))
    ensures Readable(num, ["data:" + data, ""]) == 2
  {
    hide ProcessLine, LineRaises, Lines;
    OneCharHasNoLine("");
    NothingLeft("");
    OneMoreLine("", "");
    OneMoreLine("data:" + data, "" + "\n" + "");
    assert ["data:" + data] + ([""] + []) == ["data:" + data, ""];
    DataLine(num, f, data);
    ProcessLinesSnoc(num, f, [], "data:" + data);
    ProcessLinesSnoc(num, f, [] + ["data:" + data], "");
    assert f.dataLines + [data] == [data];
    BlankLine(num, f.(dataLines := [data]));
    assert [] + ["data:" + data] + [""] == ["data:" + data, ""];
    AllReadable(num, ["data:" + data, ""]);
  }

  lemma MessageMeans(num: ReadInt, name: string, data: string)
    requires (name == "" || IsValue(name)) && IsValue(data)
    ensures Lines(OneMessage(name, data)) == Cut(MessageLines(name, data), "")
    ensures ProcessLines(num, NO_FIELDS, MessageLines(name, data)) == Outcome(NO_FIELDS, [MessageEvent(name, data)])
    ensures Readable(num, MessageLines(name, data)) == |MessageLines(name, data)|
  {
    hide ProcessLine, LineRaises, Lines;
    var tail := ["data:" + data, ""];
    if name == "" {
      UnnamedMessage(num, NO_FIELDS, data);
      assert "" + ("data:" + data + "\n" + ("" + "\n" + "")) == "data:" + data + "\n" + ("" + "\n" + "");
      assert [] + tail == tail;
    } else {
      var named := NO_FIELDS.(event := Some(name));
      UnnamedMessage(num, named, data);
      EventLine(num, NO_FIELDS, name);
      OneMoreLine("event:" + name, "data:" + data + "\n" + ("" + "\n" + ""));
      OneLine(num, NO_FIELDS, "event:" + name);
      ProcessLinesAppend(num, NO_FIELDS, ["event:" + name], tail);
      ReadableCons(num, "event:" + name, tail);
    }
  }

  lemma MessageRead(num: ReadInt, bad: SSEEvent -> bool, name: string, data: string)
    requires (name == "" || IsValue(name)) && IsValue(data)
    ensures ReadOne(num, bad, State("", NO_FIELDS), OneMessage(name, data))
         == Outcome(State("", NO_FIELDS), [MessageEvent(name, data)])
  {
    hide Lines, ProcessLines, OneMessage;
    MessageMeans(num, name, data);
    assert "" + OneMessage(name, data) == OneMessage(name, data);
    ReadClean(num, bad, State("", NO_FIELDS), OneMessage(name, data));
  }

  /** An event and then a raising retry: one call loses the event, two calls handle it. */
  lemma RaisingRetryLosesEvent(num: ReadInt, bad: SSEEvent -> bool, data: string, v: string)
    requires IsValue(data) && IsValue(v) && num(v).Unreadable?
    ensures var first, second := OneMessage("", data), "retry:" + v + "\n" + "";
            && ReadOne(num, bad, State("", NO_FIELDS), first + second).events == []
            && ReadAll(num, bad, State("", NO_FIELDS), [first, second]).events == [MessageEvent("", data)]
  {
    hide ProcessLines, LineRaises, Lines, OneMessage, MessageLines;
    var st, first, second := State("", NO_FIELDS), OneMessage("", data), "retry:" + v + "\n" + "";
    MessageMeans(num, "", data);
    MessageRead(num, bad, "", data);
    OneCharHasNoLine("");
    NothingLeft("");
    OneMoreLine("retry:" + v, "");
    RetryLine(num, v);
    assert ["retry:" + v] + [] == ["retry:" + v];
    assert "" + second == second && "" + first == first;
    ReadRaising(num, bad, st, second);
    LongerLines(st, first, second);
    ReadableAppend(num, MessageLines("", data), ["retry:" + v]);
    ReadRaising(num, bad, st, first + second);
    ReadTwo(num, bad, st, first, second);
    assert [MessageEvent("", data)] + [] == [MessageEvent("", data)];
  }

  /** Two events, the first of them bad: one call handles the first only, two calls handle both. */
  lemma BadEventDropsNext(num: ReadInt, bad: SSEEvent -> bool, name: string, data: string, more: string)
    requires (name == "" || IsValue(name)) && IsValue(data) && IsValue(more)
    requires bad(MessageEvent(name, data))
    ensures var first, second := OneMessage(name, data), OneMessage(name, more);
            && ReadOne(num, bad, State("", NO_FIELDS), first + second).events == [MessageEvent(name, data)]
            && ReadAll(num, bad, State("", NO_FIELDS), [first, second]).events
               == [MessageEvent(name, data), MessageEvent(name, more)]
  {
    hide ProcessLines, LineRaises, Lines, OneMessage, MessageLines;
    var st, first, second := State("", NO_FIELDS), OneMessage(name, data), OneMessage(name, more);
    MessageMeans(num, name, data);
    MessageMeans(num, name, more);
    MessageRead(num, bad, name, data);
    MessageRead(num, bad, name, more);
    LongerLines(st, first, second);
    assert "" + first == first && "" + second == second;
    var a, b := MessageLines(name, data), MessageLines(name, more);
    ReadableAppend(num, a, b);
    ProcessLinesAppend(num, NO_FIELDS, a, b);
    ReadClean(num, bad, st, first + second);
    assert Handled(bad, [MessageEvent(name, data)] + [MessageEvent(name, more)]) == [MessageEvent(name, data)];
    ReadTwo(num, bad, st, first, second);
    assert [MessageEvent(name, data)] + [MessageEvent(name, more)] == [MessageEvent(name, data), MessageEvent(name, more)];
  }

  /** An event and a raising retry left to the close: the first close raises, the second emits the event. */
  lemma SecondCloseEmits(num: ReadInt, v: string)
    requires num(v).Unreadable? && v != "" && v[0] != ' ' && NoSeparator(v)
    ensures var st := State("retry:" + v, Fields(None, ["a"], None, None));
            && CloseStream(num, st) == Fed(State("", st.fields), [], true)
            && CloseStream(num, State("", st.fields)).events == [SSEEvent("message", "a", None, None)]
  {
    hide LineRaises, ProcessLine;
    var line := "retry:" + v;
    RetryLine(num, v);
    assert forall i :: 6 <= i < |line| ==> line[i] == v[i - 6];
    LineEndAt(line, |line|);
    assert line[..|line|] == line && line[|line|..] == "" && SplitLines("") == [];
    assert SplitLines(line) == [line] + [];
    assert [line][..0] == [];
    assert ProcessLines(num, Fields(None, ["a"], None, None), []) == Outcome(Fields(None, ["a"], None, None), []);
  }
}

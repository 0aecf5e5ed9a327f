/** Stripping comments from JSONC text (src/core/store/jsonc_exporter.py). */
module Jsonc {
  // ---------- the scanner on values ----------

  /** What is left of a text from a position inside a line comment: the newline stays. */
  function AfterLine(s: string): (r: string)
    ensures |r| <= |s|
  {
    if s == "" || s[0] == '\n' then s else AfterLine(s[1..])
  }

  /** What is left of a text from a position inside a block comment: nothing if it is never closed. */
  function AfterBlock(s: string): (r: string)
    ensures |r| <= |s|
  {
    if |s| < 2 then "" else if s[0] == '*' && s[1] == '/' then s[2..] else AfterBlock(s[1..])
  }

  /** The text without its comments, from a position outside strings. */
  function Strip(s: string): string
    decreases |s|
  {
    if s == "" then ""
    else if s[0] == '"' then "\"" + StripString(s[1..])
    else if s[0] == '/' && |s| > 1 && s[1] == '/' then Strip(AfterLine(s[2..]))
    else if s[0] == '/' && |s| > 1 && s[1] == '*' then Strip(AfterBlock(s[2..]))
    else [s[0]] + Strip(s[1..])
  }

  /** The same from a position inside a string that is not just after a backslash. */
  function StripString(s: string): string
    decreases |s|
  {
    if s == "" then ""
    else if s[0] == '\\' then
      if |s| == 1 then s else s[..2] + StripString(s[2..])
    else if s[0] == '"' then "\"" + Strip(s[1..])
    else [s[0]] + StripString(s[1..])
  }

  // ---------- the loop ----------

  /** What the loop still has to produce from a position, by its flags. */
  function Remaining(s: string, inString: bool, escape: bool): string {
    if !inString then Strip(s)
    else if escape then if s == "" then "" else [s[0]] + StripString(s[1..])
    else StripString(s)
  }

  predicate OpensComment(s: string, c: char) {
    |s| > 1 && s[0] == '/' && s[1] == c
  }

  /** A character that is copied to the output, and the flags after it. */
  lemma CopyStep(s: string, inString: bool, escape: bool)
    requires s != "" && (escape ==> inString)
    requires !inString ==> !OpensComment(s, '/') && !OpensComment(s, '*')
    ensures var inString' := if inString then escape || s[0] != '"' else s[0] == '"';
            var escape' := inString && !escape && s[0] == '\\';
            Remaining(s, inString, escape) == [s[0]] + Remaining(s[1..], inString', escape')
  {
    if inString && !escape && s[0] == '\\' {
      if |s| > 1 {
        assert s[..2] == [s[0]] + [s[1]] && s[1..][1..] == s[2..];
      } else {
        assert s == [s[0]] + "";
      }
    }
  }

  lemma QuoteStep(s: string)
    requires s != "" && s[0] == '"'
    ensures Strip(s) == "\"" + StripString(s[1..])
  {
  }

  lemma LineStep(s: string)
    requires OpensComment(s, '/')
    ensures Strip(s) == Strip(AfterLine(s[2..]))
  {
  }

  lemma BlockStep(s: string)
    requires OpensComment(s, '*')
    ensures Strip(s) == Strip(AfterBlock(s[2..]))
  {
  }

  /** Where the scanner stands: how far it is, what it has produced, and its two flags. */
  ghost predicate Scanned(s: string, i: nat, result: string, inString: bool, escape: bool) {
    && (escape ==> inString)
    && Strip(s) == result + (if i <= |s| then Remaining(s[i..], inString, escape) else "")
  }

  lemma ScanCopy(s: string, i: nat, result: string, inString: bool, escape: bool)
    requires i < |s| && Scanned(s, i, result, inString, escape)
    requires !inString ==> !OpensComment(s[i..], '/') && !OpensComment(s[i..], '*')
    ensures Scanned(s, i + 1, result + [s[i]], if inString then escape || s[i] != '"' else s[i] == '"',
                    inString && !escape && s[i] == '\\')
  {
    hide Strip, StripString;
    var rest, next := s[i..], s[i + 1..];
    assert rest[1..] == next && rest[0] == s[i];
    var inString' := if inString then escape || s[i] != '"' else s[i] == '"';
    var more := Remaining(next, inString', inString && !escape && s[i] == '\\');
    assert Remaining(rest, inString, escape) == [s[i]] + more by { CopyStep(rest, inString, escape); }
    assert result + ([s[i]] + more) == result + [s[i]] + more;
  }

  lemma ScanComment(s: string, i: nat, j: nat, result: string)
    requires i + 1 < |s| && Scanned(s, i, result, false, false)
    requires || (OpensComment(s[i..], '/') && j <= |s| && s[j..] == AfterLine(s[i + 2..]))
             || (OpensComment(s[i..], '*') && (if j <= |s| then s[j..] else "") == AfterBlock(s[i + 2..]))
    ensures Scanned(s, j, result, false, false)
  {
    assert s[i..][2..] == s[i + 2..];
    if OpensComment(s[i..], '/') { LineStep(s[i..]); } else { BlockStep(s[i..]); }
    assert Strip("") == "";
  }

  method StripComments(s: string) returns (result: string)
    ensures result == Strip(s)
  {
    result := "";
    var i, n := 0, |s|;
    var inString, escape := false, false;
    assert s[0..] == s;
    while i < n
      invariant 0 <= i
      invariant Scanned(s, i, result, inString, escape)
      decreases n - i
    {
      var c := s[i];
      if inString {
        ScanCopy(s, i, result, inString, escape);
        result := result + [c];
        if escape {
          escape := false;
        } else if c == '\\' {
          escape := true;
        } else if c == '"' {
          inString := false;
        }
        i := i + 1;
      } else if c == '"' {
        ScanCopy(s, i, result, inString, escape);
        inString := true;
        result := result + [c];
        i := i + 1;
      } else if c == '/' && i + 1 < n && s[i + 1] == '/' {
        var j := SkipLine(s, i + 2);
        ScanComment(s, i, j, result);
        i := j;
      } else if c == '/' && i + 1 < n && s[i + 1] == '*' {
        var j := SkipBlock(s, i + 2);
        ScanComment(s, i, j, result);
        i := j;
      } else {
        ScanCopy(s, i, result, inString, escape);
        result := result + [c];
        i := i + 1;
      }
    }
    assert i == n ==> s[i..] == "";
  }

  method SkipLine(s: string, from: nat) returns (i: nat)
    requires from <= |s|
    ensures from <= i <= |s| && s[i..] == AfterLine(s[from..])
  {
    i := from;
    while i < |s| && s[i] != '\n'
      invariant from <= i <= |s|
      invariant AfterLine(s[from..]) == AfterLine(s[i..])
    {
      assert s[i..][1..] == s[i + 1..];
      i := i + 1;
    }
  }

  method SkipBlock(s: string, from: nat) returns (i: nat)
    requires from <= |s|
    ensures from < i && (if i <= |s| then s[i..] else "") == AfterBlock(s[from..])
  {
    i := from;
    while i + 1 < |s| && !(s[i] == '*' && s[i + 1] == '/')
      invariant from <= i <= |s|
      invariant AfterBlock(s[from..]) == AfterBlock(s[i..])
    {
      assert s[i..][1..] == s[i + 1..];
      i := i + 1;
    }
    assert i + 1 < |s| ==> s[i..][2..] == s[i + 2..];
    i := i + 2;
  }

  // ---------- segmented text ----------

  // The last two kinds can only close a text: a string or a block comment that is never ended.
  datatype Segment =
    | Plain(text: string)
    | Quoted(body: string)
    | LineComment(text: string)
    | BlockComment(text: string)
    | OpenString(body: string)
    | OpenBlock(text: string)

  function Render(seg: Segment): string {
    match seg
    case Plain(t) => t
    case Quoted(b) => "\"" + b + "\""
    case LineComment(t) => "//" + t
    case BlockComment(t) => "/*" + t + "*/"
    case OpenString(b) => "\"" + b
    case OpenBlock(t) => "/*" + t
  }

  function RenderAll(segs: seq<Segment>): string {
    if segs == [] then "" else Render(segs[0]) + RenderAll(segs[1..])
  }

  /** The segments that are not comments, put together. */
  function Kept(segs: seq<Segment>): string {
    if segs == [] then ""
    else (if segs[0].Plain? || segs[0].Quoted? || segs[0].OpenString? then Render(segs[0]) else "") + Kept(segs[1..])
  }

  /** A string body: every backslash takes the next character with it and no bare quote occurs. */
  predicate IsBody(b: string) {
    if b == "" then true
    else if b[0] == '\\' then |b| > 1 && IsBody(b[2..])
    else b[0] != '"' && IsBody(b[1..])
  }

  /** The body of a string cut off by the end of the text, possibly just after a backslash. */
  predicate IsOpenBody(b: string) {
    if b == "" || b == "\\" then true
    else if b[0] == '\\' then IsOpenBody(b[2..])
    else b[0] != '"' && IsOpenBody(b[1..])
  }

  /** No comment opens and no string begins in the text. */
  predicate IsPlain(t: string) {
    && '"' !in t
    && forall i :: 0 <= i < |t| - 1 && t[i] == '/' ==> t[i + 1] != '/' && t[i + 1] != '*'
  }

  predicate Closes(t: string, i: nat) {
    i + 1 < |t| && t[i] == '*' && t[i + 1] == '/'
  }

  predicate IsSegment(seg: Segment) {
    match seg
    case Plain(t) => t != "" && IsPlain(t)
    case Quoted(b) => IsBody(b)
    case LineComment(t) => '\n' !in t
    case BlockComment(t) => forall i :: 0 <= i < |t| ==> !Closes(t, i)
    case OpenString(b) => IsOpenBody(b)
    case OpenBlock(t) => forall i :: 0 <= i < |t| ==> !Closes(t, i)
  }

  /** Two segments can stand side by side: the second does not change the reading of the first. */
  predicate CanFollow(a: Segment, b: Segment) {
    match a
    case Plain(t) => if t == "" || t[|t| - 1] == '/' then b.Quoted? || b.OpenString? else !b.Plain?
    case LineComment(_) => b.Plain? && b.text != "" && b.text[0] == '\n'
    case OpenString(_) => false
    case OpenBlock(_) => false
    case _ => true
  }

  /** A well-formed segmentation. */
  predicate WellFormed(segs: seq<Segment>) {
    segs == []
    || (IsSegment(segs[0]) && (|segs| > 1 ==> CanFollow(segs[0], segs[1])) && WellFormed(segs[1..]))
  }

  // ---------- stripping keeps exactly the segments that are not comments ----------

  lemma {:induction false} StripQuoted(b: string, rest: string)
    requires IsBody(b)
    ensures StripString(b + "\"" + rest) == b + "\"" + Strip(rest)
  {
    var s := b + "\"" + rest;
    if b == "" {
      assert s == "\"" + rest && s[1..] == rest;
    } else if b[0] == '\\' {
      StripQuoted(b[2..], rest);
      assert s[..2] == b[..2] && s[2..] == b[2..] + "\"" + rest;
      assert b == b[..2] + b[2..];
    } else {
      StripQuoted(b[1..], rest);
      assert s[1..] == b[1..] + "\"" + rest && b == [b[0]] + b[1..];
    }
  }

  lemma {:induction false} StripOpenString(b: string)
    requires IsOpenBody(b)
    ensures StripString(b) == b
  {
    if b == "" || b == "\\" {
    } else if b[0] == '\\' {
      StripOpenString(b[2..]);
      assert b == b[..2] + b[2..];
    } else {
      StripOpenString(b[1..]);
      assert b == [b[0]] + b[1..];
    }
  }

  lemma PlainTail(t: string)
    requires IsPlain(t) && t != ""
    ensures IsPlain(t[1..])
  {
    assert forall i :: 0 <= i < |t| - 1 ==> t[1..][i] == t[i + 1];
  }

  /** Plain text is copied, as long as its last character opens no comment with what follows. */
  lemma {:induction false} StripPlain(t: string, rest: string)
    requires IsPlain(t)
    requires t != "" && t[|t| - 1] == '/' && rest != "" ==> rest[0] != '/' && rest[0] != '*'
    ensures Strip(t + rest) == t + Strip(rest)
  {
    hide Strip, StripString;
    if t == "" {
      assert t + rest == rest;
    } else {
      var s := t + rest;
      assert s[1..] == t[1..] + rest && t == [t[0]] + t[1..];
      assert !OpensComment(s, '/') && !OpensComment(s, '*');
      CopyStep(s, false, false);
      PlainTail(t);
      StripPlain(t[1..], rest);
      assert [t[0]] + (t[1..] + Strip(rest)) == t + Strip(rest);
    }
  }

  lemma {:induction false} AfterLineComment(t: string, rest: string)
    requires '\n' !in t && (rest == "" || rest[0] == '\n')
    ensures AfterLine(t + rest) == rest
  {
    if t == "" {
      assert t + rest == rest;
    } else {
      assert (t + rest)[1..] == t[1..] + rest;
      AfterLineComment(t[1..], rest);
    }
  }

  lemma {:induction false} AfterBlockComment(t: string, rest: string)
    requires forall i :: 0 <= i < |t| ==> !Closes(t, i)
    ensures AfterBlock(t + "*/" + rest) == rest
  {
    var s := t + "*/" + rest;
    if t == "" {
      assert s == "*/" + rest && s[2..] == rest;
    } else {
      assert !(s[0] == '*' && s[1] == '/') by { assert !Closes(t, 0); }
      assert s[1..] == t[1..] + "*/" + rest;
      forall i | 0 <= i < |t[1..]| ensures !Closes(t[1..], i) { assert !Closes(t, i + 1); }
      AfterBlockComment(t[1..], rest);
    }
  }

  lemma {:induction false} AfterOpenBlock(t: string)
    requires forall i :: 0 <= i < |t| ==> !Closes(t, i)
    ensures AfterBlock(t) == ""
  {
    if |t| >= 2 {
      assert !Closes(t, 0);
      forall i | 0 <= i < |t[1..]| ensures !Closes(t[1..], i) { assert !Closes(t, i + 1); }
      AfterOpenBlock(t[1..]);
    }
  }

  /** The first character of what follows a segment. */
  lemma RenderStart(segs: seq<Segment>)
    requires WellFormed(segs) && segs != []
    ensures RenderAll(segs) != ""
    ensures segs[0].Plain? ==> RenderAll(segs)[0] == segs[0].text[0]
    ensures segs[0].Quoted? || segs[0].OpenString? ==> RenderAll(segs)[0] == '"'
  {
  }

  /** What may come after a segment, as far as the scanner can see. */
  predicate Accepts(seg: Segment, r: string) {
    match seg
    case Plain(t) => t != "" && t[|t| - 1] == '/' && r != "" ==> r[0] != '/' && r[0] != '*'
    case LineComment(_) => r == "" || r[0] == '\n'
    case OpenString(_) => r == ""
    case OpenBlock(_) => r == ""
    case _ => true
  }

  lemma WellFormedAccepts(seg: Segment, rest: seq<Segment>)
    requires WellFormed([seg] + rest)
    ensures IsSegment(seg) && WellFormed(rest) && Accepts(seg, RenderAll(rest))
  {
    var segs := [seg] + rest;
    assert segs[0] == seg && segs[1..] == rest;
    if rest != [] {
      assert segs[1] == rest[0] && CanFollow(seg, rest[0]);
      RenderStart(rest);
    }
  }

  lemma StripComment(seg: Segment, r: string)
    requires IsSegment(seg) && Accepts(seg, r) && (seg.LineComment? || seg.BlockComment? || seg.OpenBlock?)
    ensures Strip(Render(seg) + r) == Strip(r)
  {
    hide Strip;
    var s := Render(seg) + r;
    match seg {
      case LineComment(t) =>
        LineStep(s);
        assert s[2..] == t + r;
        AfterLineComment(t, r);
      case BlockComment(t) =>
        BlockStep(s);
        assert s[2..] == t + "*/" + r;
        AfterBlockComment(t, r);
      case OpenBlock(t) =>
        BlockStep(s);
        assert s[2..] == t;
        AfterOpenBlock(t);
    }
  }

  lemma QuotedKept(b: string, r: string)
    requires IsBody(b)
    ensures Strip("\"" + b + "\"" + r) == "\"" + b + "\"" + Strip(r)
  {
    var s := "\"" + b + "\"" + r;
    assert s[1..] == b + "\"" + r;
    QuoteStep(s);
    StripQuoted(b, r);
    assert "\"" + (b + "\"" + Strip(r)) == "\"" + b + "\"" + Strip(r);
  }

  lemma OpenStringKept(b: string)
    requires IsOpenBody(b)
    ensures Strip("\"" + b) == "\"" + b
  {
    var s := "\"" + b;
    assert s[1..] == b;
    QuoteStep(s);
    StripOpenString(b);
  }

  lemma StripKept(seg: Segment, r: string)
    requires IsSegment(seg) && Accepts(seg, r) && (seg.Plain? || seg.Quoted? || seg.OpenString?)
    ensures Strip(Render(seg) + r) == Render(seg) + Strip(r)
  {
    match seg {
      case Plain(t) => StripPlain(t, r);
      case Quoted(b) => QuotedKept(b, r);
      case OpenString(b) =>
        OpenStringKept(b);
        assert Render(seg) + r == Render(seg) && Strip(r) == "";
    }
  }

  /** For every well-formed text, stripping gives the concatenation of the segments that are not comments. */
  lemma {:induction false} StripKeepsNonComments(segs: seq<Segment>)
    requires WellFormed(segs)
    ensures Strip(RenderAll(segs)) == Kept(segs)
  {
    if segs != [] {
      StripKeepsNonComments(segs[1..]);
      assert segs == [segs[0]] + segs[1..];
      WellFormedAccepts(segs[0], segs[1..]);
      if segs[0].Plain? || segs[0].Quoted? || segs[0].OpenString? {
        StripKept(segs[0], RenderAll(segs[1..]));
      } else {
        StripComment(segs[0], RenderAll(segs[1..]));
      }
    }
  }

  // ---------- every text is a well-formed segmentation ----------

  /** Length of the plain text at the front. */
  function PlainLength(s: string): (n: nat)
    ensures n <= |s|
  {
    if s == "" || s[0] == '"' || OpensComment(s, '/') || OpensComment(s, '*') then 0 else 1 + PlainLength(s[1..])
  }

  /** Length of the string body at the front: up to its closing quote, or all of the text. */
  function BodyLength(s: string): (n: nat)
    ensures n <= |s| && (n < |s| ==> s[n] == '"')
    decreases |s|
  {
    if s == "" || s[0] == '"' then 0
    else if s[0] == '\\' then if |s| == 1 then 1 else 2 + BodyLength(s[2..])
    else 1 + BodyLength(s[1..])
  }

  function LineLength(s: string): (n: nat)
    ensures n <= |s| && (n < |s| ==> s[n] == '\n') && '\n' !in s[..n]
  {
    if s == "" || s[0] == '\n' then 0
    else
      var n := LineLength(s[1..]);
      assert s[..n + 1] == [s[0]] + s[1..][..n];
      n + 1
  }

  /** Length of the block comment's text at the front: up to its end, or all of the text. */
  function BlockLength(s: string): (n: nat)
    ensures n <= |s| && (n < |s| ==> Closes(s, n)) && forall i :: 0 <= i < n ==> !Closes(s, i)
  {
    if |s| < 2 then |s|
    else if Closes(s, 0) then 0
    else
      var n := BlockLength(s[1..]);
      assert forall i :: 0 < i < |s| ==> Closes(s, i) == Closes(s[1..], i - 1);
      n + 1
  }

  function FirstSegment(s: string): Segment
    requires s != ""
  {
    if s[0] == '"' then
      var n := BodyLength(s[1..]);
      if n < |s| - 1 then Quoted(s[1..n + 1]) else OpenString(s[1..])
    else if OpensComment(s, '/') then
      LineComment(s[2..LineLength(s[2..]) + 2])
    else if OpensComment(s, '*') then
      var n := BlockLength(s[2..]);
      if n < |s| - 2 then BlockComment(s[2..n + 2]) else OpenBlock(s[2..])
    else Plain(s[..PlainLength(s)])
  }

  lemma {:induction false} BodyIsBody(s: string)
    ensures var n := BodyLength(s); if n < |s| then IsBody(s[..n]) else IsOpenBody(s)
    decreases |s|
  {
    var n := BodyLength(s);
    if s == "" || s[0] == '"' {
    } else if s[0] == '\\' {
      if |s| > 1 {
        BodyIsBody(s[2..]);
        assert n < |s| ==> s[..n][2..] == s[2..][..n - 2];
      } else {
        assert s == "\\";
      }
    } else {
      BodyIsBody(s[1..]);
      assert n < |s| ==> s[..n][1..] == s[1..][..n - 1];
    }
  }

  lemma {:induction false} PlainIsPlain(s: string)
    ensures var n := PlainLength(s);
            && IsPlain(s[..n])
            && (n > 0 && n < |s| && s[n - 1] == '/' ==> s[n] != '/' && s[n] != '*')
            && (n < |s| ==> s[n] == '"' || OpensComment(s[n..], '/') || OpensComment(s[n..], '*'))
  {
    var n := PlainLength(s);
    if n > 0 {
      PlainIsPlain(s[1..]);
      assert s[..n] == [s[0]] + s[1..][..n - 1];
      assert s[1..][n - 1..] == s[n..];
    }
  }

  /** seg is a segment that starts s and accepts what follows it. */
  predicate StartsWith(s: string, seg: Segment) {
    IsSegment(seg) && Render(seg) <= s && 0 < |Render(seg)| && Accepts(seg, s[|Render(seg)|..])
  }

  lemma StringFits(s: string)
    requires s != "" && s[0] == '"'
    ensures StartsWith(s, FirstSegment(s))
  {
    var n := BodyLength(s[1..]);
    BodyIsBody(s[1..]);
    if n < |s| - 1 {
      assert s[1..][..n] == s[1..n + 1];
      assert s[..n + 2] == "\"" + s[1..n + 1] + "\"";
    } else {
      assert s == "\"" + s[1..];
    }
  }

  lemma LineFits(s: string)
    requires OpensComment(s, '/')
    ensures StartsWith(s, FirstSegment(s))
  {
    var n := LineLength(s[2..]);
    assert s[2..][..n] == s[2..n + 2];
    assert s[..n + 2] == "//" + s[2..n + 2];
  }

  lemma BlockFits(s: string)
    requires OpensComment(s, '*')
    ensures StartsWith(s, FirstSegment(s))
  {
    var n := BlockLength(s[2..]);
    if n < |s| - 2 {
      var t := s[2..n + 2];
      assert Closes(s[2..], n);
      assert s[..n + 4] == "/*" + t + "*/";
      forall i {:trigger Closes(t, i)} | 0 <= i < |t| ensures !Closes(t, i) {
        assert !Closes(s[2..], i);
      }
    } else {
      assert s == "/*" + s[2..];
    }
  }

  lemma PlainFits(s: string)
    requires s != "" && s[0] != '"' && !OpensComment(s, '/') && !OpensComment(s, '*')
    ensures StartsWith(s, FirstSegment(s)) && FirstSegment(s).Plain?
    ensures |FirstSegment(s).text| < |s| ==> !FirstSegment(s[|FirstSegment(s).text|..]).Plain?
  {
    PlainIsPlain(s);
    assert PlainLength(s) > 0;
  }

  /** The first segment is one, is a proper start of the text, and accepts what follows. */
  lemma FirstSegmentFits(s: string)
    requires s != ""
    ensures var seg := FirstSegment(s);
            && StartsWith(s, seg)
            && (seg.Plain? && |seg.text| < |s| ==> !FirstSegment(s[|seg.text|..]).Plain?)
  {
    if s[0] == '"' {
      StringFits(s);
    } else if OpensComment(s, '/') {
      LineFits(s);
    } else if OpensComment(s, '*') {
      BlockFits(s);
    } else {
      PlainFits(s);
    }
  }

  function Segments(s: string): seq<Segment>
    decreases |s|
  {
    if s == "" then []
    else
      FirstSegmentFits(s);
      [FirstSegment(s)] + Segments(s[|Render(FirstSegment(s))|..])
  }

  /** Every text is the rendering of a well-formed segmentation. */
  lemma {:induction false} EveryTextIsSegmented(s: string)
    ensures WellFormed(Segments(s)) && RenderAll(Segments(s)) == s
    decreases |s|
  {
    if s != "" {
      FirstSegmentFits(s);
      var seg := FirstSegment(s);
      var r := s[|Render(seg)|..];
      EveryTextIsSegmented(r);
      assert Segments(s) == [seg] + Segments(r);
      assert Segments(s)[1..] == Segments(r);
      if r != "" {
        FirstSegmentFits(r);
        assert Segments(r)[0] == FirstSegment(r);
        FirstSegmentStart(r);
      }
    }
  }

  lemma FirstSegmentStart(s: string)
    requires s != ""
    ensures var seg := FirstSegment(s);
            && (seg.Quoted? || seg.OpenString? <==> s[0] == '"')
            && (seg.Plain? ==> seg.text != "" && seg.text[0] == s[0])
            && (seg.LineComment? || seg.BlockComment? || seg.OpenBlock? ==> s[0] == '/')
  {
    FirstSegmentFits(s);
  }

  /** On any text at all, stripping keeps exactly the segments that are not comments. */
  lemma StripIsKept(s: string)
    ensures Strip(s) == Kept(Segments(s))
  {
    EveryTextIsSegmented(s);
    StripKeepsNonComments(Segments(s));
  }

  // ---------- stripping twice ----------

  lemma StripKeepsHead(s: string)
    requires s != "" && s[0] != '/'
    ensures Strip(s) != "" && Strip(s)[0] == s[0]
  {
  }

  /** A text that has been stripped has nothing left to strip. */
  lemma {:induction false} StripTwice(s: string)
    ensures Strip(Strip(s)) == Strip(s)
    decreases |s|
  {
    if s == "" {
    } else if s[0] == '"' {
      StripStringTwice(s[1..]);
      QuoteStep(s);
      QuoteStep(Strip(s));
      assert Strip(s)[1..] == StripString(s[1..]);
    } else if OpensComment(s, '/') {
      StripTwice(AfterLine(s[2..]));
      LineStep(s);
    } else if OpensComment(s, '*') {
      StripTwice(AfterBlock(s[2..]));
      BlockStep(s);
    } else {
      var rest := Strip(s[1..]);
      StripTwice(s[1..]);
      if s[0] == '/' && |s| > 1 {
        StripKeepsHead(s[1..]);
      }
      CopyStep(s, false, false);
      CopyStep([s[0]] + rest, false, false);
      assert ([s[0]] + rest)[1..] == rest;
    }
  }

  lemma {:induction false} StripStringTwice(s: string)
    ensures StripString(StripString(s)) == StripString(s)
    decreases |s|
  {
    if s == "" {
    } else if s[0] == '\\' {
      if |s| > 1 {
        StripStringTwice(s[2..]);
        var r := s[..2] + StripString(s[2..]);
        assert r[..2] == s[..2] && r[2..] == StripString(s[2..]);
      }
    } else if s[0] == '"' {
      StripTwice(s[1..]);
      assert ("\"" + Strip(s[1..]))[1..] == Strip(s[1..]);
    } else {
      StripStringTwice(s[1..]);
      assert ([s[0]] + StripString(s[1..]))[1..] == StripString(s[1..]);
    }
  }
}

/** What the event parser emits against the dispatch of section 9.2.6 of the HTML Living Standard. */
module SseStandard {
  import opened Collections
  import opened Sse
  import opened SseReading

  // ---------- the standard's interpretation of lines ----------

  // The data buffer, the event type buffer and the last event ID buffer.
  datatype Buffers = Buffers(data: string, eventType: string, lastId: string)

  const START := Buffers("", "", "")

  datatype Message = Message(event: string, data: string, lastId: string)
  datatype Reading = Reading(buffers: Buffers, messages: seq<Message>)

  function StandardField(b: Buffers, field: string, value: string): Buffers {
    if field == "event" then b.(eventType := value)
    else if field == "data" then b.(data := b.data + value + "\n")
    else if field == "id" && '\0' !in value then b.(lastId := value)
    else b
  }

  function StandardDispatch(b: Buffers): Reading {
    var cleared := b.(data := "", eventType := "");
    if b.data == "" then Reading(cleared, [])
    else
      var data := if b.data[|b.data| - 1] == '\n' then b.data[..|b.data| - 1] else b.data;
      Reading(cleared, [Message(if b.eventType == "" then "message" else b.eventType, data, b.lastId)])
  }

  /** Collecting the characters before the first colon, ... */
  function BeforeColon(line: string): string {
    if line == "" || line[0] == ':' then "" else [line[0]] + BeforeColon(line[1..])
  }

  /** ... and those after it, without a space that comes first. */
  function AfterColon(line: string): string {
    if line == "" then ""
    else if line[0] != ':' then AfterColon(line[1..])
    else if |line| > 1 && line[1] == ' ' then line[2..]
    else line[1..]
  }

  function StandardLine(b: Buffers, line: string): Reading {
    if line == "" then StandardDispatch(b)
    else if line[0] == ':' then Reading(b, [])
    else Reading(StandardField(b, BeforeColon(line), AfterColon(line)), [])
  }

  function StandardLines(lines: seq<string>): Reading {
    if lines == [] then Reading(START, [])
    else
      var before := StandardLines(lines[..|lines| - 1]);
      var last := StandardLine(before.buffers, lines[|lines| - 1]);
      Reading(last.buffers, before.messages + last.messages)
  }

  // ---------- the parser's state against the standard's ----------

  function TextOf(s: Option<string>): string {
    if s.Some? then s.value else ""
  }

  /** What an event shows of itself to the standard; a missing id is the empty one. */
  function AsMessage(e: SSEEvent): Message {
    Message(e.event, e.data, TextOf(e.id))
  }

  function AsMessages(events: seq<SSEEvent>): (r: seq<Message>)
    ensures |r| == |events| && forall i :: 0 <= i < |r| ==> r[i] == AsMessage(events[i])
  {
    seq(|events|, i requires 0 <= i < |events| => AsMessage(events[i]))
  }

  /** The lines since the parser last emitted an event. */
  function Since(num: ReadInt, lines: seq<string>): seq<string> {
    if lines == [] then []
    else
      var before, last := Since(num, lines[..|lines| - 1]), lines[|lines| - 1];
      if last == "" && Emits(FieldsOf(num, before)) then [] else before + [last]
  }

  function IdsOf(lines: seq<string>): seq<string> {
    Values(lines, "id", v => '\0' !in v)
  }

  /** The last id that the lines set. */
  function LastId(lines: seq<string>): string {
    TextOf(LastOf(IdsOf(lines)))
  }

  lemma BlankSetsNothing(num: ReadInt, f: Fields)
    ensures FieldName("") == "" && SetField(num, f, FieldName(""), FieldValue("")) == f
  {
    assert Find("", ':') == -1;
  }

  lemma SinceSnoc(num: ReadInt, lines: seq<string>, line: string)
    ensures Since(num, lines + [line])
         == if line == "" && Emits(FieldsOf(num, Since(num, lines))) then [] else Since(num, lines) + [line]
  {
    assert (lines + [line])[..|lines|] == lines;
  }

  /** What the parser has pending is what the lines since its last event amount to. */
  lemma {:induction false} PendingIsSince(num: ReadInt, lines: seq<string>)
    ensures ProcessLines(num, NO_FIELDS, lines).state == FieldsOf(num, Since(num, lines))
  {
    hide SetField, FieldName, FieldValue, Dispatch, ProcessLine, FieldsOf;
    NothingPending(num);
    if lines != [] {
      var init, last := lines[..|lines| - 1], lines[|lines| - 1];
      var f := FieldsOf(num, Since(num, init));
      PendingIsSince(num, init);
      assert lines == init + [last];
      ProcessLinesSnoc(num, NO_FIELDS, init, last);
      FieldsSnoc(num, Since(num, init), last);
      if last == "" {
        BlankSetsNothing(num, f);
        BlankEmits(num, f);
      } else {
        ProcessSets(num, f, last);
      }
    }
  }

  lemma BlankEmits(num: ReadInt, f: Fields)
    ensures ProcessLine(num, f, "").state == if Emits(f) then NO_FIELDS else f
  {
  }

  // ---------- a byte order mark ----------

  /** The lines as the standard has them: a mark before the first one is gone. */
  function Unmarked(lines: seq<string>): seq<string> {
    if lines != [] && HasMark(lines[0]) then [lines[0][1..]] + lines[1..] else lines
  }

  /** The fields of a first line that a mark before it keeps from the parser. */
  function Lost(num: ReadInt, lines: seq<string>): Fields {
    if lines != [] && HasMark(lines[0]) then FieldsOf(num, [lines[0][1..]]) else NO_FIELDS
  }

  /** Up to the first blank line the standard still has the data and the name that are lost. */
  function LostData(num: ReadInt, lines: seq<string>): seq<string> {
    if "" in lines then [] else Lost(num, lines).dataLines
  }

  function LostName(num: ReadInt, lines: seq<string>): string {
    if "" in lines then "" else TextOf(Lost(num, lines).event)
  }

  lemma UnmarkedSnoc(num: ReadInt, lines: seq<string>, line: string)
    requires lines != []
    ensures Unmarked(lines + [line]) == Unmarked(lines) + [line] && Lost(num, lines + [line]) == Lost(num, lines)
  {
    assert (lines + [line])[0] == lines[0] && (lines + [line])[1..] == lines[1..] + [line];
  }

  lemma UnmarkedLength(lines: seq<string>)
    ensures |Unmarked(lines)| == |lines|
  {
  }

  // ---------- both side by side ----------

  /** The standard's data buffer after the given data lines. */
  function DataBuffer(values: seq<string>): string {
    if values == [] then "" else DataBuffer(values[..|values| - 1]) + values[|values| - 1] + "\n"
  }

  lemma {:induction false} JoinSnoc(values: seq<string>, v: string)
    ensures JoinLines(values + [v]) == if values == [] then v else JoinLines(values) + "\n" + v
  {
    if values == [] {
      assert values + [v] == [v];
    } else {
      assert (values + [v])[0] == values[0] && (values + [v])[1..] == values[1..] + [v];
      JoinSnoc(values[1..], v);
      if |values| > 1 {
        assert values[0] + "\n" + (JoinLines(values[1..]) + "\n" + v) == values[0] + "\n" + JoinLines(values[1..]) + "\n" + v;
      }
    }
  }

  lemma {:induction false} DataBufferIsJoin(values: seq<string>)
    requires values != []
    ensures DataBuffer(values) == JoinLines(values) + "\n"
  {
    var init, v := values[..|values| - 1], values[|values| - 1];
    assert values == init + [v];
    JoinSnoc(init, v);
    if init == [] {
      assert DataBuffer(init) + v + "\n" == v + "\n";
    } else {
      DataBufferIsJoin(init);
    }
  }

  /** The standard's buffers hold the data and the name of the parser's fields, with those lost, and the last id. */
  ghost predicate Alike(b: Buffers, f: Fields, data: seq<string>, name: string, lastId: string) {
    && b.data == DataBuffer(data + f.dataLines)
    && b.eventType == (if f.event.Some? then f.event.value else name)
    && b.lastId == lastId
  }

  lemma SetAlike(num: ReadInt, b: Buffers, f: Fields, data: seq<string>, lost: string, lastId: string, name: string, value: string)
    requires Alike(b, f, data, lost, lastId)
    ensures Alike(StandardField(b, name, value), SetField(num, f, name, value), data, lost,
                  if name == "id" && '\0' !in value then value else lastId)
  {
    if name == "data" {
      assert data + (f.dataLines + [value]) == data + f.dataLines + [value];
      assert (data + f.dataLines + [value])[..|data + f.dataLines|] == data + f.dataLines;
    }
  }

  /** The parser's search for the colon reads the same name and value. */
  lemma {:induction false} SameNameAndValue(line: string)
    ensures BeforeColon(line) == FieldName(line) && AfterColon(line) == FieldValue(line)
  {
    if line != "" && line[0] != ':' {
      SameNameAndValue(line[1..]);
      if Find(line, ':') != -1 {
        assert line[..Find(line, ':')] == [line[0]] + line[1..][..Find(line[1..], ':')];
        assert line[Find(line, ':') + 1..] == line[1..][Find(line[1..], ':') + 1..];
      }
    }
  }

  lemma LineIsField(b: Buffers, line: string)
    requires line != ""
    ensures StandardLine(b, line).buffers == StandardField(b, FieldName(line), FieldValue(line))
  {
    SameNameAndValue(line);
    FindMeans(line, ':');
    if line[0] == ':' {
      assert Find(line, ':') == 0 && line[..0] == "";
    }
  }

  /** A field line after the first line. */
  lemma FieldAlike(num: ReadInt, b: Buffers, f: Fields, data: seq<string>, lost: string, lines: seq<string>, line: string)
    requires Alike(b, f, data, lost, LastId(lines)) && line != ""
    ensures Alike(StandardLine(b, line).buffers, SetField(num, f, FieldName(line), FieldValue(line)), data, lost,
                  LastId(lines + [line]))
  {
    hide Alike, StandardLine, StandardField, SetField, Find;
    ValuesSnoc(lines, line, "id", v => '\0' !in v);
    LineIsField(b, line);
    SetAlike(num, b, f, data, lost, LastId(lines), FieldName(line), FieldValue(line));
  }

  /** A blank line after other lines. */
  lemma BlankAlike(num: ReadInt, b: Buffers, f: Fields, data: seq<string>, lost: string, lines: seq<string>)
    requires Alike(b, f, data, lost, LastId(lines))
    ensures Alike(StandardLine(b, "").buffers, if Emits(f) then NO_FIELDS else f, [], "", LastId(lines + [""]))
  {
    ValuesSnoc(lines, "", "id", v => '\0' !in v);
    BlankSetsNothing(num, f);
  }

  /** The parser takes nothing from a marked line. */
  lemma MarkedSetsNothing(num: ReadInt, f: Fields, line: string)
    requires HasMark(line)
    ensures SetField(num, f, FieldName(line), FieldValue(line)) == f
    ensures ProcessLine(num, f, line) == Outcome(f, [])
  {
    FindMeans(line, ':');
    assert Find(line, ':') != -1 ==> Find(line, ':') > 0 && FieldName(line)[0] == MARK;
    ProcessSets(num, f, line);
  }

  /** A first line without a mark. */
  lemma FirstAlike(num: ReadInt, line: string)
    ensures Alike(StandardLines([line]).buffers, FieldsOf(num, [line]), [], "", LastId([line]))
  {
    hide Alike, StandardLine, SetField, FieldName, FieldValue, FieldsOf, StandardLines, LastId, Emits;
    StartsAlike(num);
    NothingPending(num);
    OneStandardLine(line);
    FieldsSnoc(num, [], line);
    assert [] + [line] == [line] && Unmarked([]) == [];
    if line != "" {
      FieldAlike(num, START, NO_FIELDS, [], "", [], line);
    } else {
      BlankSetsNothing(num, NO_FIELDS);
      BlankAlike(num, START, NO_FIELDS, [], "", []);
      EmptyEmitsNothing();
    }
  }

  lemma EmptyEmitsNothing()
    ensures !Emits(NO_FIELDS)
  {
  }

  /** Fields that only the standard has. */
  lemma LostAlike(b: Buffers, f: Fields, lastId: string)
    requires Alike(b, f, [], "", lastId)
    ensures Alike(b, NO_FIELDS, f.dataLines, TextOf(f.event), lastId)
  {
    assert f.dataLines + NO_FIELDS.dataLines == f.dataLines && [] + f.dataLines == f.dataLines;
  }

  lemma FirstLineAlike(num: ReadInt, line: string)
    ensures Alike(StandardLines(Unmarked([line])).buffers, FieldsOf(num, Since(num, [line])),
                  LostData(num, [line]), LostName(num, [line]), LastId(Unmarked([line])))
  {
    hide Alike, SetField, FieldName, FieldValue, FieldsOf, StandardLines, LastId, Emits, Since;
    var theirs := if HasMark(line) then line[1..] else line;
    assert Unmarked([line]) == [theirs];
    FirstAlike(num, theirs);
    FirstSince(num, line);
    if HasMark(line) {
      MarkedSetsNothing(num, NO_FIELDS, line);
      LostAlike(StandardLines([theirs]).buffers, FieldsOf(num, [theirs]), LastId([theirs]));
    }
  }

  lemma FirstSince(num: ReadInt, line: string)
    ensures Since(num, [line]) == [line]
    ensures FieldsOf(num, [line]) == SetField(num, NO_FIELDS, FieldName(line), FieldValue(line))
  {
    hide SetField, FieldName, FieldValue;
    assert [] + [line] == [line];
    SinceSnoc(num, [], line);
    FieldsSnoc(num, [], line);
    NothingPending(num);
  }

  lemma OneStandardLine(line: string)
    ensures StandardLines([] + [line]) == Reading(StandardLine(START, line).buffers, StandardLine(START, line).messages)
  {
    assert ([] + [line])[..0] == [];
    assert StandardLines([]) == Reading(START, []);
    assert [] + StandardLine(START, line).messages == StandardLine(START, line).messages;
  }

  lemma StandardSnoc(lines: seq<string>, line: string)
    ensures var last := StandardLine(StandardLines(lines).buffers, line);
            StandardLines(lines + [line]) == Reading(last.buffers, StandardLines(lines).messages + last.messages)
  {
    assert (lines + [line])[..|lines|] == lines;
  }

  lemma {:induction false} BuffersAlike(num: ReadInt, lines: seq<string>)
    ensures Alike(StandardLines(Unmarked(lines)).buffers, FieldsOf(num, Since(num, lines)),
                  LostData(num, lines), LostName(num, lines), LastId(Unmarked(lines)))
  {
    hide Alike, StandardLine, SetField, FieldName, FieldValue, FieldsOf, StandardLines, LastId;
    if lines == [] {
      StartsAlike(num);
    } else {
      var init, last := lines[..|lines| - 1], lines[|lines| - 1];
      assert lines == init + [last];
      if init == [] {
        assert lines == [last];
        FirstLineAlike(num, last);
      } else {
        var b, f := StandardLines(Unmarked(init)).buffers, FieldsOf(num, Since(num, init));
        BuffersAlike(num, init);
        UnmarkedSnoc(num, init, last);
        StandardSnoc(Unmarked(init), last);
        SinceSnoc(num, init, last);
        FieldsSnoc(num, Since(num, init), last);
        if last == "" {
          BlankSetsNothing(num, f);
          BlankAlike(num, b, f, LostData(num, init), LostName(num, init), Unmarked(init));
          NothingPending(num);
          assert "" in lines;
        } else {
          FieldAlike(num, b, f, LostData(num, init), LostName(num, init), Unmarked(init), last);
          assert "" in lines <==> "" in init;
        }
      }
    }
  }

  lemma StartsAlike(num: ReadInt)
    ensures Alike(START, NO_FIELDS, [], "", LastId([]))
    ensures Alike(StandardLines(Unmarked([])).buffers, FieldsOf(num, Since(num, [])),
                  LostData(num, []), LostName(num, []), LastId(Unmarked([])))
  {
  }

  lemma NothingPending(num: ReadInt)
    ensures FieldsOf(num, []) == NO_FIELDS
  {
  }

  /** One more line sets the id of the fields and the last id alike, or neither. */
  lemma IdSnoc(num: ReadInt, recent: seq<string>, lines: seq<string>, line: string)
    ensures var (field, value) := (FieldName(line), FieldValue(line));
            if field == "id" && '\0' !in value
            then FieldsOf(num, recent + [line]).id == Some(value) && LastId(lines + [line]) == value
            else FieldsOf(num, recent + [line]).id == FieldsOf(num, recent).id && LastId(lines + [line]) == LastId(lines)
  {
    hide FieldName, FieldValue;
    ValuesSnoc(recent, line, "id", v => '\0' !in v);
    ValuesSnoc(lines, line, "id", v => '\0' !in v);
  }

  /** An id set since the last event is the last id of the stream. */
  lemma {:induction false} RecentIdIsLast(num: ReadInt, lines: seq<string>)
    ensures var id := FieldsOf(num, Since(num, lines)).id; id.Some? ==> id.value == LastId(Unmarked(lines))
  {
    hide FieldName, FieldValue, FieldsOf, LastId, SetField;
    NothingPending(num);
    if lines != [] {
      var init, last := lines[..|lines| - 1], lines[|lines| - 1];
      RecentIdIsLast(num, init);
      assert lines == init + [last];
      SinceSnoc(num, init, last);
      if init == [] && HasMark(last) {
        FirstSince(num, last);
        MarkedSetsNothing(num, NO_FIELDS, last);
        assert lines == [last];
      } else {
        if init != [] { UnmarkedSnoc(num, init, last); }
        assert Unmarked(lines) == Unmarked(init) + [last];
        IdSnoc(num, Since(num, init), Unmarked(init), last);
      }
    }
  }

  // ---------- when they emit the same ----------

  /**
   * At a blank line after these lines: an event that is named has data, and an event with data has the name the
   * standard gives it and sets an id (itself or in the silent blocks just before it), unless the stream's last
   * one is empty. If a mark keeps a data line of this block from the parser, then that line is empty and all
   * the others only name the event.
   */
  ghost predicate BlankMeets(num: ReadInt, before: seq<string>) {
    var f, data := FieldsOf(num, Since(num, before)), LostData(num, before);
    var sameId := f.id.Some? || LastId(Unmarked(before)) == "";
    if data == [] then
      && (f.event.Some? ==> f.dataLines != [])
      && (f.dataLines != [] ==> sameId && (f.event.Some? || LostName(num, before) in {"", "message"}))
    else data == [""] && f.dataLines == [] && f.event.Some? && sameId
  }

  ghost predicate MeetsStandard(num: ReadInt, lines: seq<string>) {
    forall n :: 0 <= n < |lines| && lines[n] == "" ==> BlankMeets(num, lines[..n])
  }

  lemma MeetsSnoc(num: ReadInt, lines: seq<string>, line: string)
    ensures MeetsStandard(num, lines + [line]) <==> MeetsStandard(num, lines) && (line == "" ==> BlankMeets(num, lines))
  {
    var longer := lines + [line];
    assert longer[|lines|] == line && longer[..|lines|] == lines;
    assert forall n :: 0 <= n < |lines| ==> longer[n] == lines[n] && longer[..n] == lines[..n];
  }

  lemma LongerJoin(data: seq<string>, more: seq<string>)
    requires data != [] && more != []
    ensures |JoinLines(data + more)| > |JoinLines(more)|
  {
    if |data| == 1 {
      assert (data + more)[0] == data[0] && (data + more)[1..] == more;
    } else {
      assert (data + more)[0] == data[0] && (data + more)[1..] == data[1..] + more;
      LongerJoin(data[1..], more);
    }
  }

  lemma {:induction false} FieldsHaveOneLine(num: ReadInt, line: string)
    ensures |FieldsOf(num, [line]).dataLines| <= 1
  {
    assert [line][..0] == [];
    assert Values([], "data", v => true) == [];
  }

  lemma OneMessageEach(mine: seq<SSEEvent>, theirs: seq<Message>)
    requires |mine| == |theirs| == 1
    ensures AsMessages(mine) == theirs <==> AsMessage(mine[0]) == theirs[0]
  {
  }

  /** What both emit at a blank line, when no data line is lost. */
  lemma BlankWithoutLoss(num: ReadInt, b: Buffers, f: Fields, name: string, lastId: string)
    requires Alike(b, f, [], name, lastId) && (f.id.Some? ==> f.id.value == lastId)
    ensures var mine, theirs := Dispatch(f).events, StandardDispatch(b).messages;
            && |theirs| <= |mine|
            && (AsMessages(mine) == theirs <==>
                  && (f.event.Some? ==> f.dataLines != [])
                  && (f.dataLines != [] ==> (f.id.Some? || lastId == "") && (f.event.Some? || name in {"", "message"})))
  {
    assert [] + f.dataLines == f.dataLines;
    var mine, theirs := Dispatch(f).events, StandardDispatch(b).messages;
    if f.dataLines != [] {
      DataBufferIsJoin(f.dataLines);
      assert b.data[..|b.data| - 1] == JoinLines(f.dataLines);
      OneMessageEach(mine, theirs);
    } else {
      assert b.data == "";
      assert AsMessages([]) == [];
    }
  }

  /** What both emit at a blank line, when a data line is lost. */
  lemma BlankWithLoss(num: ReadInt, b: Buffers, f: Fields, v: string, lastId: string)
    requires Alike(b, f, [v], "", lastId) && (f.id.Some? ==> f.id.value == lastId)
    ensures AsMessages(Dispatch(f).events) == StandardDispatch(b).messages
       <==> v == "" && f.dataLines == [] && f.event.Some? && (f.id.Some? || lastId == "")
  {
    var all := [v] + f.dataLines;
    DataBufferIsJoin(all);
    assert b.data[..|b.data| - 1] == JoinLines(all);
    var mine, theirs := Dispatch(f).events, StandardDispatch(b).messages;
    if f.dataLines != [] {
      LongerJoin([v], f.dataLines);
      OneMessageEach(mine, theirs);
    } else {
      assert all == [v];
      if f.event.Some? { OneMessageEach(mine, theirs); }
    }
  }

  /** One blank line. */
  lemma BlankAgrees(num: ReadInt, before: seq<string>)
    ensures var mine := Dispatch(FieldsOf(num, Since(num, before))).events;
            var theirs := StandardDispatch(StandardLines(Unmarked(before)).buffers).messages;
            && (AsMessages(mine) == theirs <==> BlankMeets(num, before))
            && (LostData(num, before) == [] ==> |theirs| <= |mine|)
  {
    hide Alike, FieldsOf, StandardLines, LastId, Dispatch, StandardDispatch;
    var f, b := FieldsOf(num, Since(num, before)), StandardLines(Unmarked(before)).buffers;
    var data := LostData(num, before);
    BuffersAlike(num, before);
    RecentIdIsLast(num, before);
    if data == [] {
      BlankWithoutLoss(num, b, f, LostName(num, before), LastId(Unmarked(before)));
    } else {
      DataOrName(num, before);
      assert data == [data[0]];
      BlankWithLoss(num, b, f, data[0], LastId(Unmarked(before)));
    }
  }

  /** A lost line is a data line or names the event, not both. */
  lemma DataOrName(num: ReadInt, lines: seq<string>)
    requires LostData(num, lines) != []
    ensures |LostData(num, lines)| == 1 && LostName(num, lines) == ""
  {
    var line := lines[0][1..];
    FieldsHaveOneLine(num, line);
    FieldsSnoc(num, [], line);
    NothingPending(num);
    assert [] + [line] == [line];
  }

  lemma PairwiseEqual<T>(a: seq<T>, b: seq<T>, x: seq<T>, y: seq<T>)
    requires |b| <= |a| && |y| <= |x|
    ensures a + x == b + y <==> a == b && x == y
  {
    if a + x == b + y {
      assert |a| == |b|;
      assert a == (a + x)[..|a|] && b == (b + y)[..|b|] && x == (a + x)[|a|..] && y == (b + y)[|b|..];
    }
  }

  lemma AsMessagesAppend(a: seq<SSEEvent>, b: seq<SSEEvent>)
    ensures AsMessages(a + b) == AsMessages(a) + AsMessages(b)
  {
  }

  /** The messages the parser emits line by line, and those of the standard. */
  function MineAt(num: ReadInt, lines: seq<string>): seq<seq<Message>> {
    if lines == [] then []
    else
      var init := lines[..|lines| - 1];
      MineAt(num, init)
      + [AsMessages(ProcessLine(num, ProcessLines(num, NO_FIELDS, init).state, lines[|lines| - 1]).events)]
  }

  function TheirsAt(lines: seq<string>): seq<seq<Message>> {
    if lines == [] then []
    else
      var init := lines[..|lines| - 1];
      TheirsAt(init) + [StandardLine(StandardLines(init).buffers, lines[|lines| - 1]).messages]
  }

  /** What both emit at one more line. */
  lemma LineAgrees(num: ReadInt, before: seq<string>, line: string)
    ensures var theirs := Unmarked(before + [line]);
            var m := ProcessLine(num, FieldsOf(num, Since(num, before)), line).events;
            var t := StandardLine(StandardLines(Unmarked(before)).buffers, theirs[|before|]).messages;
            && |theirs| == |before| + 1 && theirs[..|before|] == Unmarked(before)
            && (AsMessages(m) == t <==> (line == "" ==> BlankMeets(num, before)))
            && (LostData(num, before) == [] ==> |t| <= |m|)
  {
    var theirs, f := Unmarked(before + [line]), FieldsOf(num, Since(num, before));
    UnmarkedLength(before + [line]);
    assert AsMessages([]) == [];
    if before == [] {
      assert before + [line] == [line];
      assert theirs[..0] == Unmarked(before) == [];
      if line == "" {
        BlankAgrees(num, []);
      } else {
        ProcessSets(num, f, line);
        assert StandardLines([]).buffers == START;
      }
    } else {
      UnmarkedSnoc(num, before, line);
      UnmarkedLength(before);
      if line == "" {
        BlankAgrees(num, before);
      } else {
        ProcessSets(num, f, line);
      }
    }
  }

  /** On any lines, the parser emits the standard's messages line by line exactly when every blank line meets the condition. */
  lemma {:induction false} SameAtEachLineIff(num: ReadInt, lines: seq<string>)
    ensures MineAt(num, lines) == TheirsAt(Unmarked(lines)) <==> MeetsStandard(num, lines)
  {
    hide BlankMeets, FieldsOf, ProcessLine, ProcessLines, StandardLine, StandardLines, Unmarked, MineAt, TheirsAt;
    if lines == [] {
      NothingAtStart(num);
    } else {
      var init, last := lines[..|lines| - 1], lines[|lines| - 1];
      SameAtEachLineIff(num, init);
      assert lines == init + [last];
      MineSnoc(num, init, last);
      UnmarkedLength(lines);
      TheirsLast(Unmarked(lines), |init|);
      MeetsSnoc(num, init, last);
      PendingIsSince(num, init);
      LineAgrees(num, init, last);
      LastEqual(MineAt(num, init), TheirsAt(Unmarked(init)),
                AsMessages(ProcessLine(num, ProcessLines(num, NO_FIELDS, init).state, last).events),
                StandardLine(StandardLines(Unmarked(init)).buffers, Unmarked(lines)[|init|]).messages);
    }
  }

  lemma NothingAtStart(num: ReadInt)
    ensures MineAt(num, []) == TheirsAt(Unmarked([])) == []
  {
  }

  lemma MineSnoc(num: ReadInt, lines: seq<string>, line: string)
    ensures MineAt(num, lines + [line])
         == MineAt(num, lines) + [AsMessages(ProcessLine(num, ProcessLines(num, NO_FIELDS, lines).state, line).events)]
  {
    assert (lines + [line])[..|lines|] == lines;
  }

  lemma TheirsLast(lines: seq<string>, n: nat)
    requires |lines| == n + 1
    ensures TheirsAt(lines) == TheirsAt(lines[..n]) + [StandardLine(StandardLines(lines[..n]).buffers, lines[n]).messages]
  {
  }

  lemma LastEqual<T>(a: seq<T>, b: seq<T>, x: T, y: T)
    ensures a + [x] == b + [y] <==> a == b && x == y
  {
    if a + [x] == b + [y] {
      assert a == (a + [x])[..|a|] && b == (b + [y])[..|b|] && (a + [x])[|a|] == (b + [y])[|b|];
    }
  }

  lemma NoLossBefore(num: ReadInt, lines: seq<string>, line: string)
    requires Lost(num, lines + [line]).dataLines == []
    ensures Lost(num, lines).dataLines == []
  {
    if lines != [] { UnmarkedSnoc(num, lines, line); }
  }

  /** Unless the first line is a marked data line, the messages are the same altogether exactly then. */
  lemma {:induction false} SameMessagesIff(num: ReadInt, lines: seq<string>)
    requires Lost(num, lines).dataLines == []
    ensures |StandardLines(Unmarked(lines)).messages| <= |ProcessLines(num, NO_FIELDS, lines).events|
    ensures AsMessages(ProcessLines(num, NO_FIELDS, lines).events) == StandardLines(Unmarked(lines)).messages
       <==> MeetsStandard(num, lines)
  {
    hide BlankMeets, FieldsOf, ProcessLine, StandardLine, Unmarked, Lost;
    if lines == [] {
      UnmarkedLength(lines);
    } else {
      var init, last := lines[..|lines| - 1], lines[|lines| - 1];
      assert lines == init + [last];
      NoLossBefore(num, init, last);
      SameMessagesIff(num, init);
      MeetsSnoc(num, init, last);
      PendingIsSince(num, init);
      ProcessLinesSnoc(num, NO_FIELDS, init, last);
      LineAgrees(num, init, last);
      var before, f := ProcessLines(num, NO_FIELDS, init).events, FieldsOf(num, Since(num, init));
      var mine := ProcessLine(num, f, last).events;
      var theirs := StandardLine(StandardLines(Unmarked(init)).buffers, Unmarked(lines)[|init|]).messages;
      AsMessagesAppend(before, mine);
      PairwiseEqual(AsMessages(before), StandardLines(Unmarked(init)).messages, AsMessages(mine), theirs);
    }
  }

  /** In every case the same messages follow from the condition. */
  lemma {:induction false} MeetsMeansSame(num: ReadInt, lines: seq<string>)
    requires MeetsStandard(num, lines)
    ensures AsMessages(ProcessLines(num, NO_FIELDS, lines).events) == StandardLines(Unmarked(lines)).messages
  {
    hide BlankMeets, FieldsOf, ProcessLine, StandardLine, Unmarked;
    if lines == [] {
      UnmarkedLength(lines);
    } else {
      var init, last := lines[..|lines| - 1], lines[|lines| - 1];
      assert lines == init + [last];
      MeetsSnoc(num, init, last);
      MeetsMeansSame(num, init);
      PendingIsSince(num, init);
      ProcessLinesSnoc(num, NO_FIELDS, init, last);
      LineAgrees(num, init, last);
      AsMessagesAppend(ProcessLines(num, NO_FIELDS, init).events, ProcessLine(num, FieldsOf(num, Since(num, init)), last).events);
    }
  }

  // ---------- whole streams ----------

  /**
   * The lines of a stream that has ended: without its mark, a carriage return at the end closes its line, and
   * a rest is discarded.
   */
  function EndedLines(text: string): seq<string> {
    var cut := Lines(WithoutMark(text));
    cut.lines + (if cut.rest != "" && cut.rest[|cut.rest| - 1] == '\r' then [LastLine(cut.rest)] else [])
  }

  /** The lines on which both can emit: the complete ones, and a blank one that only the end completes. */
  function SharedLines(text: string): seq<string> {
    Lines(text).lines + (if Lines(text).rest == "\r" then [""] else [])
  }

  /** The lines that closing adds for the parser alone. */
  function LeftLines(text: string): seq<string> {
    if Lines(text).rest == "\r" then [] else SplitLines(Lines(text).rest)
  }

  /** Everything a new parser emits for a text, up to and including the close. */
  function Emitted(num: ReadInt, text: string): seq<SSEEvent> {
    var fed := Ingest(num, State("", NO_FIELDS), text);
    fed.events + CloseStream(num, fed.state).events
  }

  predicate NoneRaises(num: ReadInt, lines: seq<string>) {
    Readable(num, lines) == |lines|
  }

  lemma SplitCr()
    ensures SplitLines("\r") == [""]
  {
    LineEndAt("\r", 0);
    assert "\r"[..0] == "" && "\r"[1..] == "" && SplitLines("") == [];
  }

  lemma EmittedIsProcessed(num: ReadInt, text: string)
    requires NoneRaises(num, SharedLines(text) + LeftLines(text))
    ensures var out := ProcessLines(num, NO_FIELDS, SharedLines(text) + LeftLines(text));
            Emitted(num, text) == out.events + Dispatch(out.state).events
  {
    hide ProcessLines, Lines, Readable, SplitLines, Dispatch, SharedLines, LeftLines;
    var cut := Lines(text);
    var tail := SplitLines(cut.rest);
    SharedAndLeft(text);
    ReadableAppend(num, cut.lines, tail);
    assert "" + text == text && cut.lines[..|cut.lines|] == cut.lines && tail[..|tail|] == tail;
    ProcessLinesAppend(num, NO_FIELDS, cut.lines, tail);
    var x := ProcessLines(num, NO_FIELDS, cut.lines);
    var y := ProcessLines(num, x.state, tail);
    assert x.events + (y.events + Dispatch(y.state).events) == x.events + y.events + Dispatch(y.state).events;
  }

  lemma SharedAndLeft(text: string)
    ensures SharedLines(text) + LeftLines(text) == Lines(text).lines + SplitLines(Lines(text).rest)
  {
    hide Lines, SplitLines;
    SplitCr();
  }

  lemma SilentLine(lines: seq<string>, line: string)
    requires line != ""
    ensures StandardLines(lines + [line]).messages == StandardLines(lines).messages
  {
    StandardSnoc(lines, line);
    assert StandardLines(lines).messages + [] == StandardLines(lines).messages;
  }

  lemma FirstLineSilent(line: string)
    ensures StandardLines([line]).messages == [] && StandardLines([]).messages == []
  {
    OneStandardLine(line);
    assert [] + [line] == [line];
  }

  /** The standard's messages of the stream are those of the shared lines. */
  lemma EndedIsShared(text: string)
    ensures StandardLines(EndedLines(text)).messages == StandardLines(Unmarked(SharedLines(text))).messages
  {
    hide StandardLines, Lines, Unmarked, LastLine;
    var cut := Lines(WithoutMark(text));
    if HasMark(text) && cut.lines == [] {
      OnlyAMarkedRest(text);
    } else {
      var shared := cut.lines + (if cut.rest == "\r" then [""] else []);
      UnmarkedShared(text);
      OnlyCr(cut.rest);
      if cut.rest != "" && cut.rest[|cut.rest| - 1] == '\r' && cut.rest != "\r" {
        SilentLine(cut.lines, LastLine(cut.rest));
        assert shared == cut.lines;
      }
    }
  }

  lemma OnlyCr(rest: string)
    ensures LastLine(rest) == "" <==> rest == "" || rest == "\r"
  {
    assert rest != "" ==> rest == rest[..|rest| - 1] + [rest[|rest| - 1]];
  }

  /** A mark and one unfinished line: neither has a message. */
  lemma OnlyAMarkedRest(text: string)
    requires HasMark(text) && Lines(WithoutMark(text)).lines == []
    ensures StandardLines(EndedLines(text)).messages == StandardLines(Unmarked(SharedLines(text))).messages
  {
    hide StandardLines, Lines, LastLine;
    assert text == [MARK] + WithoutMark(text);
    MarkedLines(WithoutMark(text));
    assert SharedLines(text) == [];
    assert Lines(WithoutMark(text)).lines + [] == [];
    FirstLineSilent("");
    if EndedLines(text) != [] {
      assert EndedLines(text) == [EndedLines(text)[0]];
      FirstLineSilent(EndedLines(text)[0]);
    }
  }

  lemma UnmarkedShared(text: string)
    requires HasMark(text) ==> Lines(WithoutMark(text)).lines != []
    ensures var cut := Lines(WithoutMark(text));
            Unmarked(SharedLines(text)) == cut.lines + (if cut.rest == "\r" then [""] else [])
  {
    hide Lines;
    if HasMark(text) {
      var cut := Lines(WithoutMark(text));
      assert text == [MARK] + WithoutMark(text);
      MarkedLines(WithoutMark(text));
      MarkGoes(cut.lines, if cut.rest == "\r" then [""] else []);
    } else {
      NoMarkedLine(text);
    }
  }

  lemma MarkGoes(lines: seq<string>, more: seq<string>)
    requires lines != []
    ensures Unmarked([[MARK] + lines[0]] + lines[1..] + more) == lines + more
  {
    var all := [[MARK] + lines[0]] + lines[1..] + more;
    assert all[0] == [MARK] + lines[0] && all[0][1..] == lines[0];
    assert all[1..] == lines[1..] + more;
    assert [lines[0]] + (lines[1..] + more) == lines + more;
  }

  lemma NoMarkedLine(text: string)
    requires !HasMark(text)
    ensures Unmarked(SharedLines(text)) == SharedLines(text)
  {
    var cut := Lines(text);
    if cut.lines != [] {
      var b := NextBreak(text).value;
      LinesUnfold(text, b);
      assert cut.lines[0] == text[..b.pos];
    }
  }

  /** Nothing is emitted at the lines after the first ones. */
  ghost predicate QuietLines(num: ReadInt, lines: seq<string>, left: seq<string>) {
    forall n :: 0 <= n < |left| && left[n] == "" ==> !Emits(FieldsOf(num, Since(num, lines + left[..n])))
  }

  /** And nothing is pending after all of them. */
  ghost predicate Silent(num: ReadInt, lines: seq<string>, left: seq<string>) {
    QuietLines(num, lines, left) && !Emits(FieldsOf(num, Since(num, lines + left)))
  }

  lemma QuietAtStart(num: ReadInt, lines: seq<string>)
    ensures QuietLines(num, lines, [])
  {
  }

  lemma QuietSnoc(num: ReadInt, lines: seq<string>, left: seq<string>, line: string)
    ensures QuietLines(num, lines, left + [line])
       <==> QuietLines(num, lines, left) && (line == "" ==> !Emits(FieldsOf(num, Since(num, lines + left))))
  {
    hide FieldsOf, Since, Emits;
    var all := left + [line];
    assert all[..|left|] == left && all[|left|] == line;
    assert forall n :: 0 <= n < |left| ==> all[..n] == left[..n] && all[n] == left[n];
  }

  lemma {:induction false} QuietIff(num: ReadInt, lines: seq<string>, left: seq<string>)
    ensures ProcessLines(num, ProcessLines(num, NO_FIELDS, lines).state, left).events == [] <==> QuietLines(num, lines, left)
  {
    hide ProcessLine, FieldsOf, Since;
    var f := ProcessLines(num, NO_FIELDS, lines).state;
    if left != [] {
      var init, last := left[..|left| - 1], left[|left| - 1];
      assert left == init + [last];
      QuietIff(num, lines, init);
      ProcessLinesSnoc(num, f, init, last);
      ProcessLinesAppend(num, NO_FIELDS, lines, init);
      PendingIsSince(num, lines + init);
      EmitsAtBlank(num, FieldsOf(num, Since(num, lines + init)), last);
      QuietSnoc(num, lines, init, last);
    }
  }

  lemma EmitsAtBlank(num: ReadInt, f: Fields, line: string)
    ensures ProcessLine(num, f, line).events == [] <==> line != "" || !Emits(f)
  {
    if line != "" { ProcessSets(num, f, line); }
  }

  /** What the parser emits for the shared lines, and what it emits alone. */
  lemma EmittedSplits(num: ReadInt, text: string)
    requires NoneRaises(num, SharedLines(text) + LeftLines(text))
    ensures exists alone ::
              && AsMessages(Emitted(num, text)) == AsMessages(ProcessLines(num, NO_FIELDS, SharedLines(text)).events) + AsMessages(alone)
              && (alone == [] <==> Silent(num, SharedLines(text), LeftLines(text)))
  {
    hide ProcessLines, FieldsOf, Since, SharedLines, LeftLines, Emitted;
    var shared, left := SharedLines(text), LeftLines(text);
    EmittedIsProcessed(num, text);
    ProcessLinesAppend(num, NO_FIELDS, shared, left);
    var x := ProcessLines(num, NO_FIELDS, shared);
    var y := ProcessLines(num, x.state, left);
    PendingIsSince(num, shared + left);
    QuietIff(num, shared, left);
    var alone := y.events + Dispatch(y.state).events;
    assert Emitted(num, text) == x.events + alone;
    AsMessagesAppend(x.events, alone);
    assert alone == [] <==> y.events == [] && Dispatch(y.state).events == [];
  }

  /**
   * Over a whole stream on which nothing raises, its end included, the parser emits the standard's messages
   * exactly when every shared blank line meets the condition and the parser emits nothing more at the end, where the
   * standard discards; unless the first line is a marked data line.
   */
  lemma SameStreamIff(num: ReadInt, text: string)
    requires NoneRaises(num, SharedLines(text) + LeftLines(text)) && Lost(num, SharedLines(text)).dataLines == []
    ensures AsMessages(Emitted(num, text)) == StandardLines(EndedLines(text)).messages
       <==> MeetsStandard(num, SharedLines(text)) && Silent(num, SharedLines(text), LeftLines(text))
  {
    hide MeetsStandard, Silent, StandardLines, ProcessLines, Emitted, SharedLines, LeftLines, Lost;
    var shared, left := SharedLines(text), LeftLines(text);
    EmittedSplits(num, text);
    SameMessagesIff(num, shared);
    EndedIsShared(text);
    var mine, theirs := AsMessages(ProcessLines(num, NO_FIELDS, shared).events), StandardLines(Unmarked(shared)).messages;
    var alone :| AsMessages(Emitted(num, text)) == mine + AsMessages(alone) && (alone == [] <==> Silent(num, shared, left));
    PairwiseEqual(mine, theirs, AsMessages(alone), []);
    assert theirs + [] == theirs;
  }

  /** For every stream on which nothing raises the same messages follow from the condition. */
  lemma MeetsMeansSameStream(num: ReadInt, text: string)
    requires NoneRaises(num, SharedLines(text) + LeftLines(text))
    requires MeetsStandard(num, SharedLines(text)) && Silent(num, SharedLines(text), LeftLines(text))
    ensures AsMessages(Emitted(num, text)) == StandardLines(EndedLines(text)).messages
  {
    hide MeetsStandard, Silent, StandardLines, ProcessLines, Emitted, SharedLines, LeftLines;
    var shared, left := SharedLines(text), LeftLines(text);
    EmittedSplits(num, text);
    MeetsMeansSame(num, shared);
    EndedIsShared(text);
    var mine := AsMessages(ProcessLines(num, NO_FIELDS, shared).events);
    var alone :| AsMessages(Emitted(num, text)) == mine + AsMessages(alone) && (alone == [] <==> Silent(num, shared, left));
    assert mine + [] == mine;
  }

  /** The same, line by line: what the parser emits at each line and at the close, ... */
  function EmittedAt(num: ReadInt, text: string): seq<seq<Message>> {
    var lines := SharedLines(text) + LeftLines(text);
    MineAt(num, lines) + [AsMessages(Dispatch(ProcessLines(num, NO_FIELDS, lines).state).events)]
  }

  function Nothings(n: nat): seq<seq<Message>> {
    seq(n, i => [])
  }

  /** ... and the standard's messages, of which there are none at the lines left over and at the end. */
  function StandardAt(text: string): seq<seq<Message>> {
    TheirsAt(Unmarked(SharedLines(text))) + Nothings(|LeftLines(text)| + 1)
  }

  lemma {:induction false} MineSumsUp(num: ReadInt, lines: seq<string>)
    ensures Flatten(MineAt(num, lines)) == AsMessages(ProcessLines(num, NO_FIELDS, lines).events)
  {
    hide ProcessLine;
    if lines != [] {
      var init, last := lines[..|lines| - 1], lines[|lines| - 1];
      MineSumsUp(num, init);
      assert lines == init + [last];
      var x := ProcessLines(num, NO_FIELDS, init);
      FlattenSnoc(MineAt(num, init), AsMessages(ProcessLine(num, x.state, last).events));
      ProcessLinesSnoc(num, NO_FIELDS, init, last);
      AsMessagesAppend(x.events, ProcessLine(num, x.state, last).events);
    }
  }

  lemma {:induction false} TheirsSumUp(lines: seq<string>)
    ensures Flatten(TheirsAt(lines)) == StandardLines(lines).messages
  {
    hide StandardLine;
    if lines != [] {
      var init, last := lines[..|lines| - 1], lines[|lines| - 1];
      TheirsSumUp(init);
      FlattenSnoc(TheirsAt(init), StandardLine(StandardLines(init).buffers, last).messages);
    }
  }

  lemma {:induction false} NothingSumsUp(n: nat)
    ensures Flatten(Nothings(n)) == []
  {
    if n > 0 {
      NothingSumsUp(n - 1);
      assert Nothings(n)[0] == [] && Nothings(n)[1..] == Nothings(n - 1);
    }
  }

  /** Line by line they amount to the events of the parser and to the standard's messages. */
  lemma EachLineSumsUp(num: ReadInt, text: string)
    requires NoneRaises(num, SharedLines(text) + LeftLines(text))
    ensures Flatten(EmittedAt(num, text)) == AsMessages(Emitted(num, text))
    ensures Flatten(StandardAt(text)) == StandardLines(EndedLines(text)).messages
  {
    hide StandardLines, ProcessLines, Emitted, SharedLines, LeftLines, EndedLines, MineAt, TheirsAt, Unmarked;
    var lines := SharedLines(text) + LeftLines(text);
    var out := ProcessLines(num, NO_FIELDS, lines);
    EmittedIsProcessed(num, text);
    MineSumsUp(num, lines);
    FlattenSnoc(MineAt(num, lines), AsMessages(Dispatch(out.state).events));
    AsMessagesAppend(out.events, Dispatch(out.state).events);
    EndedIsShared(text);
    TheirsSumUp(Unmarked(SharedLines(text)));
    NothingSumsUp(|LeftLines(text)| + 1);
    FlattenAppend(TheirsAt(Unmarked(SharedLines(text))), Nothings(|LeftLines(text)| + 1));
  }

  /** The parser's part of the lines left over. */
  lemma {:induction false} LeftMine(num: ReadInt, lines: seq<string>, left: seq<string>) returns (more: seq<seq<Message>>)
    ensures MineAt(num, lines + left) == MineAt(num, lines) + more && |more| == |left|
    ensures (forall n :: 0 <= n < |more| ==> more[n] == []) <==> QuietLines(num, lines, left)
  {
    hide ProcessLine, ProcessLines, FieldsOf, Since, MineAt, Emits, QuietLines;
    QuietAtStart(num, lines);
    if left == [] {
      more := [];
      assert lines + left == lines;
    } else {
      var init, last := left[..|left| - 1], left[|left| - 1];
      var before := LeftMine(num, lines, init);
      assert left == init + [last] && lines + left == lines + init + [last];
      MineSnoc(num, lines + init, last);
      PendingIsSince(num, lines + init);
      var f := FieldsOf(num, Since(num, lines + init));
      EmitsAtBlank(num, f, last);
      QuietSnoc(num, lines, init, last);
      more := before + [AsMessages(ProcessLine(num, f, last).events)];
      assert more[|before|] == AsMessages(ProcessLine(num, f, last).events);
      assert forall n :: 0 <= n < |before| ==> more[n] == before[n];
    }
  }

  /** For every stream on which nothing raises the condition decides whether each line emits the same. */
  lemma SameStreamAtEachLineIff(num: ReadInt, text: string)
    requires NoneRaises(num, SharedLines(text) + LeftLines(text))
    ensures EmittedAt(num, text) == StandardAt(text)
       <==> MeetsStandard(num, SharedLines(text)) && Silent(num, SharedLines(text), LeftLines(text))
  {
    hide MeetsStandard, QuietLines, ProcessLines, FieldsOf, Since, Emits, MineAt, TheirsAt, SharedLines, LeftLines, Unmarked;
    var shared, left := SharedLines(text), LeftLines(text);
    var f := ProcessLines(num, NO_FIELDS, shared + left).state;
    SameAtEachLineIff(num, shared);
    AsManyLines(num, shared);
    PendingIsSince(num, shared + left);
    EmitsAtBlank(num, f, "");
    BlankSetsNothing(num, f);
    var more := LeftMine(num, shared, left);
    SplitEqual(MineAt(num, shared), TheirsAt(Unmarked(shared)), more + [AsMessages(Dispatch(f).events)],
               Nothings(|left| + 1));
    assert EmittedAt(num, text) == MineAt(num, shared) + (more + [AsMessages(Dispatch(f).events)]);
    AllNothing(more, AsMessages(Dispatch(f).events));
  }

  lemma AsManyLines(num: ReadInt, lines: seq<string>)
    ensures |MineAt(num, lines)| == |lines| && |TheirsAt(Unmarked(lines))| == |lines|
  {
    UnmarkedLength(lines);
    MineLength(num, lines);
    TheirsLength(Unmarked(lines));
  }

  lemma MineLength(num: ReadInt, lines: seq<string>)
    ensures |MineAt(num, lines)| == |lines|
  {
  }

  lemma TheirsLength(lines: seq<string>)
    ensures |TheirsAt(lines)| == |lines|
  {
  }

  lemma SplitEqual<T>(a: seq<T>, b: seq<T>, x: seq<T>, y: seq<T>)
    requires |a| == |b| && |x| == |y|
    ensures a + x == b + y <==> a == b && x == y
  {
    PairwiseEqual(a, b, x, y);
  }

  lemma AllNothing(more: seq<seq<Message>>, last: seq<Message>)
    ensures more + [last] == Nothings(|more| + 1) <==> (forall n :: 0 <= n < |more| ==> more[n] == []) && last == []
  {
    var all := more + [last];
    assert all[|more|] == last && forall n :: 0 <= n < |more| ==> all[n] == more[n];
  }

  // ---------- streams on which they differ ----------

  /** After these lines the parser has f pending and the stream's last id is id. */
  ghost predicate Stands(num: ReadInt, lines: seq<string>, f: Fields, id: string) {
    FieldsOf(num, Since(num, lines)) == f && LastId(lines) == id && Unmarked(lines) == lines
  }

  lemma NameAndValue(field: string, value: string)
    requires ':' !in field && value != "" && value[0] != ' '
    ensures FieldName(field + ":" + value) == field && FieldValue(field + ":" + value) == value
  {
    var line := field + ":" + value;
    FindMeans(field, ':');
    FindAppend(field, ":" + value, ':');
    assert line == field + (":" + value);
    assert line[..|field|] == field && line[|field| + 1..] == value;
  }

  lemma StandsField(num: ReadInt, lines: seq<string>, f: Fields, id: string, field: string, value: string)
    requires Stands(num, lines, f, id) && ':' !in field && value != "" && value[0] != ' ' && field != "" && field[0] != MARK
    ensures Stands(num, lines + [field + ":" + value], SetField(num, f, field, value),
                   if field == "id" && '\0' !in value then value else id)
  {
    hide SetField, Find, FieldName, FieldValue;
    var line := field + ":" + value;
    NameAndValue(field, value);
    SinceSnoc(num, lines, line);
    FieldsSnoc(num, Since(num, lines), line);
    ValuesSnoc(lines, line, "id", v => '\0' !in v);
    if lines != [] { UnmarkedSnoc(num, lines, line); }
    assert (lines + [line])[0] == if lines == [] then line else lines[0];
  }

  lemma StandsBlank(num: ReadInt, lines: seq<string>, f: Fields, id: string)
    requires Stands(num, lines, f, id) && Emits(f)
    ensures Stands(num, lines + [""], NO_FIELDS, id)
  {
    SinceSnoc(num, lines, "");
    ValuesSnoc(lines, "", "id", v => '\0' !in v);
    BlankSetsNothing(num, f);
    if lines != [] { UnmarkedSnoc(num, lines, ""); }
  }

  ghost predicate Differs(num: ReadInt, lines: seq<string>) {
    AsMessages(ProcessLines(num, NO_FIELDS, lines).events) != StandardLines(Unmarked(lines)).messages
  }

  lemma StandsBreaks(num: ReadInt, lines: seq<string>, f: Fields, id: string)
    requires Stands(num, lines, f, id)
    requires (f.event.Some? && f.dataLines == []) || (f.dataLines != [] && f.id.None? && id != "")
    ensures Differs(num, lines + [""])
  {
    hide FieldsOf, Since, LastId;
    NotLost(num, lines);
    assert !BlankMeets(num, lines);
    MeetsSnoc(num, lines, "");
    SameMessagesIff(num, lines + [""]);
  }

  lemma NotLost(num: ReadInt, lines: seq<string>)
    requires Unmarked(lines) == lines
    ensures Lost(num, lines + [""]) == NO_FIELDS && LostData(num, lines) == []
  {
    MarkChanges(lines);
    if lines != [] { UnmarkedSnoc(num, lines, ""); }
  }

  lemma MarkChanges(lines: seq<string>)
    ensures lines != [] && HasMark(lines[0]) ==> Unmarked(lines)[0] != lines[0]
  {
    assert lines != [] && HasMark(lines[0]) ==> |Unmarked(lines)[0]| == |lines[0]| - 1;
  }

  lemma StandsAtStart(num: ReadInt)
    ensures Stands(num, [], NO_FIELDS, "")
  {
  }

  /** A named event without data is emitted, against the standard. */
  lemma NamedWithoutData(num: ReadInt, name: string)
    requires name != "" && name[0] != ' '
    ensures Differs(num, [] + ["event" + ":" + name] + [""])
  {
    hide FieldsOf, LastId, Differs;
    StandsAtStart(num);
    StandsField(num, [], NO_FIELDS, "", "event", name);
    StandsBreaks(num, [] + ["event" + ":" + name], SetField(num, NO_FIELDS, "event", name), "");
  }

  /** An event that follows one with an id, and sets none, has lost the id, against the standard. */
  lemma IdIsForgotten(num: ReadInt, id: string, data: string, more: string)
    requires id != "" && id[0] != ' ' && '\0' !in id && data != "" && data[0] != ' ' && more != "" && more[0] != ' '
    ensures Differs(num, [] + ["id" + ":" + id] + ["data" + ":" + data] + [""] + ["data" + ":" + more] + [""])
  {
    hide Stands, FieldsOf, LastId, Differs;
    var a := SetField(num, NO_FIELDS, "id", id);
    var b := SetField(num, a, "data", data);
    StandsAtStart(num);
    StandsField(num, [], NO_FIELDS, "", "id", id);
    var lines := [] + ["id" + ":" + id];
    StandsField(num, lines, a, id, "data", data);
    lines := lines + ["data" + ":" + data];
    StandsBlank(num, lines, b, id);
    lines := lines + [""];
    StandsField(num, lines, NO_FIELDS, id, "data", more);
    lines := lines + ["data" + ":" + more];
    StandsBreaks(num, lines, SetField(num, NO_FIELDS, "data", more), id);
  }

  /** A data line and a blank one: the standard has one message. */
  lemma DataIsMessage(data: string)
    requires data != "" && data[0] != ' '
    ensures StandardLines(["data" + ":" + data] + [""]).messages == [Message("message", data, "")]
  {
    hide Find, FieldName, FieldValue, StandardLine, StandardLines, StandardField;
    var line := "data" + ":" + data;
    NameAndValue("data", data);
    DataFieldIs(data);
    OneStandardLine(line);
    LineIsField(START, line);
    assert [] + [line] == [line];
    FirstLineSilent(line);
    StandardSnoc([line], "");
    DispatchMessage(data);
  }

  lemma DataFieldIs(data: string)
    ensures StandardField(START, "data", data) == Buffers(data + "\n", "", "")
  {
    assert "" + data + "\n" == data + "\n";
  }

  lemma DispatchMessage(data: string)
    ensures StandardLine(Buffers(data + "\n", "", ""), "").messages == [Message("message", data, "")]
  {
    assert (data + "\n")[..|data|] == data;
  }

  /** A mark before a data line: the standard emits the message, the parser emits nothing. */
  lemma MarkHidesData(num: ReadInt, data: string)
    requires data != "" && data[0] != ' '
    ensures var line := "data" + ":" + data;
            && ProcessLines(num, NO_FIELDS, [[MARK] + line] + [""]) == Outcome(NO_FIELDS, [])
            && StandardLines(Unmarked([[MARK] + line] + [""])).messages == [Message("message", data, "")]
  {
    hide SetField, FieldsOf, Find, StandardLines, ProcessLines, FieldName, FieldValue;
    var line := "data" + ":" + data;
    var marked := [MARK] + line;
    MarkedSetsNothing(num, NO_FIELDS, marked);
    OneLine(num, NO_FIELDS, marked);
    ProcessLinesSnoc(num, NO_FIELDS, [marked], "");
    assert ([marked] + [""])[1..] == [""] && marked[1..] == line;
    assert Unmarked([marked] + [""]) == [line] + [""];
    DataIsMessage(data);
  }
  lemma TwoLines(line: string)
    requires NoBreakIn(line)
    ensures Lines(line + "\n\n") == Cut([line, ""], "")
  {
    var s := line + "\n\n";
    assert s[..|line|] == line && s[|line| + 1..] == "\n" && "\n"[1..] == "" && "\n"[..0] == "";
    FirstBreakAt(s, |line|);
    FirstBreakAt("\n", 0);
    LinesUnfold(s, Break(|line|, 1));
    LinesUnfold("\n", Break(0, 1));
    assert NextBreak("") == None;
    assert [line] + [""] == [line, ""];
  }

  lemma MarkedReads(num: ReadInt, line: string)
    requires HasMark(line)
    ensures NoneRaises(num, [line, ""])
  {
    FindMeans(line, ':');
    assert Find(line, ':') != -1 ==> Find(line, ':') > 0 && FieldName(line)[0] == MARK;
    assert !LineRaises(num, line);
    BlankSetsNothing(num, NO_FIELDS);
    assert !LineRaises(num, "");
    assert [line, ""][1..] == [""];
  }

  /** As a whole stream. */
  lemma MarkedTextDiffers(num: ReadInt, data: string)
    requires data != "" && data[0] != ' ' && NoBreakIn(data)
    ensures var text := [MARK] + ("data" + ":" + data) + "\n\n";
            && Emitted(num, text) == []
            && StandardLines(EndedLines(text)).messages == [Message("message", data, "")]
  {
    hide ProcessLines, StandardLines, Lines, Find, SetField;
    var line := "data" + ":" + data;
    var text := [MARK] + line + "\n\n";
    MarkHidesData(num, data);
    TwoLines(line);
    TwoLines([MARK] + line);
    assert WithoutMark(text) == line + "\n\n";
    assert SharedLines(text) == [[MARK] + line, ""] == [[MARK] + line] + [""];
    assert EndedLines(text) == [line, ""] == [line] + [""];
    assert SharedLines(text) + LeftLines(text) == SharedLines(text);
    MarkedReads(num, [MARK] + line);
    EmittedIsProcessed(num, text);
    EndedIsShared(text);
  }
  lemma LastDataLine(data: string)
    requires NoBreakIn(data)
    ensures Lines("data:" + data) == Cut([], "data:" + data)
    ensures NoSeparator(data) ==> SplitLines("data:" + data) == ["data:" + data]
  {
    var line := "data:" + data;
    assert forall i :: 5 <= i < |line| ==> line[i] == data[i - 5];
    NoBreakMeans(line);
    LinesEnd(line);
    if NoSeparator(data) {
      LineEndAt(line, |line|);
      assert line[..|line|] == line && line[|line|..] == "" && SplitLines("") == [];
    }
  }

  lemma DataHasNoBreak(data: string)
    requires data != "" && NoBreakIn(data)
    ensures var line := "data:" + data;
            NoBreakIn(line) && NoBreakIn([MARK] + line) && line[|line| - 1] != '\r' && line != "\r"
  {
    var line := "data:" + data;
    assert line[|line| - 1] == data[|data| - 1];
  }

  lemma TwoLinesAndMore(first: string, rest: string)
    requires NoBreakIn(first) && Lines(rest) == Cut([], rest)
    ensures Lines(first + "\n\n" + rest) == Cut([first, ""], rest)
  {
    hide Lines, NoBreakIn;
    TwoLines(first);
    LinesAppend(first + "\n\n", rest);
    assert "" + rest == rest && [first, ""] + [] == [first, ""];
  }

  lemma AccidentalLines(data: string)
    requires data != "" && NoBreakIn(data) && NoSeparator(data)
    ensures var line := "data:" + data;
            var text := [MARK] + line + "\n\n" + line;
            && SharedLines(text) == [[MARK] + line] + [""] && LeftLines(text) == [line]
            && EndedLines(text) == ["data" + ":" + data] + [""]
  {
    hide Lines, SplitLines, NoSeparator, NoBreakIn;
    var line := "data:" + data;
    var text := [MARK] + line + "\n\n" + line;
    DataHasNoBreak(data);
    LastDataLine(data);
    TwoLinesAndMore(line, line);
    TwoLinesAndMore([MARK] + line, line);
    assert line == "data" + ":" + data && [line, ""] == [line] + [""];
    assert WithoutMark(text) == line + "\n\n" + line;
  }

  lemma AccidentalRun(num: ReadInt, data: string)
    requires data != "" && data[0] != ' '
    ensures var line := "data:" + data;
            var lines := [[MARK] + line] + [""] + [line];
            && NoneRaises(num, lines)
            && ProcessLines(num, NO_FIELDS, lines) == Outcome(NO_FIELDS.(dataLines := [data]), [])
            && Dispatch(NO_FIELDS.(dataLines := [data])).events == [SSEEvent("message", data, None, None)]
  {
    hide Find, SetField, ProcessLine, LineRaises, ProcessLines, Readable;
    var line := "data:" + data;
    assert line == "data" + ":" + data;
    MarkHidesData(num, data);
    MarkedReads(num, [MARK] + line);
    DataLine(num, NO_FIELDS, data);
    assert [[MARK] + line] + [""] == [[MARK] + line, ""];
    ProcessLinesSnoc(num, NO_FIELDS, [[MARK] + line] + [""], line);
    ReadableAppend(num, [[MARK] + line, ""], [line]);
    AllReadable(num, [line]);
    assert NO_FIELDS.dataLines + [data] == [data];
  }

  /** A second data line, pending at the end: the parser emits at the close what the standard emits before. */
  lemma SameByAccident(num: ReadInt, data: string)
    requires data != "" && data[0] != ' ' && NoBreakIn(data) && NoSeparator(data)
    ensures var text := [MARK] + ("data:" + data) + "\n\n" + ("data:" + data);
            && AsMessages(Emitted(num, text)) == StandardLines(EndedLines(text)).messages
            && EmittedAt(num, text) != StandardAt(text)
  {
    hide ProcessLines, StandardLines, Lines, Find, SetField, SplitLines, NoSeparator, NoBreakIn, Emitted, EmittedAt, StandardAt;
    hide ProcessLine, Since, FieldsOf;
    var line := "data:" + data;
    var marked, text := [MARK] + line, [MARK] + line + "\n\n" + line;
    AccidentalLines(data);
    var lines := [marked] + [""] + [line];
    AccidentalRun(num, data);
    EmittedIsProcessed(num, text);
    DataIsMessage(data);
    PendingIsSince(num, lines);
    SameStreamAtEachLineIff(num, text);
  }
}

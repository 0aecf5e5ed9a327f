/**
 * What an Anthropic stream comes to, read off its events and the entries of their JSON
 * (src/interceptor/stream/accumulators/anthropic.py).
 */
module AnthropicStream {
  import opened Collections
  import opened ContentBlocks
  import opened StreamFold
  import opened Anthropic
  import Sse
  import SseReading

  // An event that reaches the handlers: its name, and what becomes of its JSON.
  datatype Told = Told(name: string, decoded: Decoded)

  /** The events that reach the handlers. */
  function Received<D>(lib: Library<D>, events: seq<Sse.SSEEvent>): seq<Told> {
    if events == [] then []
    else
      var ev := events[|events| - 1];
      Received(lib, events[..|events| - 1])
      + (if ev.data == "" || ev.event == "ping" then [] else [Told(ev.event, lib.decode(ev.event, ev.data))])
  }

  function ItemsOf(t: Told): seq<Item> {
    var item := DecodedItem(t.name, t.decoded);
    if item.Some? then [item.value] else []
  }

  function AllItems(told: seq<Told>): seq<Item> {
    if told == [] then [] else AllItems(told[..|told| - 1]) + ItemsOf(told[|told| - 1])
  }

  lemma {:induction false} ReceivedItems<D>(lib: Library<D>, events: seq<Sse.SSEEvent>)
    ensures EventsItems(lib, events) == AllItems(Received(lib, events))
  {
    if events != [] {
      var init, ev := events[..|events| - 1], events[|events| - 1];
      ReceivedItems(lib, init);
      var before := Received(lib, init);
      if ev.data == "" || ev.event == "ping" {
        assert before + [] == before && AllItems(before) + [] == AllItems(before);
      } else {
        var t := Told(ev.event, lib.decode(ev.event, ev.data));
        assert (before + [t])[..|before|] == before;
      }
    }
  }

  // ---------- what the events say of an index ----------

  /** The event is handled and has the given name. */
  predicate Is(t: Told, name: string) {
    t.name == name && t.decoded.Handles?
  }

  /** The index whose block the event opens, or makes sure of, when there are count blocks. */
  function IndexOf(t: Told, count: nat): Option<int> {
    if Is(t, "content_block_start") then Some(IndexOr(t.decoded.payload.index, count))
    else if Is(t, "content_block_delta") then Some(IndexOr(t.decoded.payload.index, 0))
    else if t.decoded.Raises? && t.decoded.done.NewBlock? then Some(t.decoded.done.index)
    else None
  }

  function OpenIndexes(told: seq<Told>): set<int> {
    if told == [] then {}
    else
      var before := OpenIndexes(told[..|told| - 1]);
      var i := IndexOf(told[|told| - 1], |before|);
      if i.Some? then before + {i.value} else before
  }

  /** The last event is about the block at index i. */
  predicate Concerned(told: seq<Told>, i: int)
    requires told != []
  {
    IndexOf(told[|told| - 1], |OpenIndexes(told[..|told| - 1])|) == Some(i)
  }

  // How a block came to be: by its start, or by a delta of some kind whose start was missing.
  datatype Opening = Started(info: BlockStart) | Missing(kind: string)

  /** How the block at index i last came to be. */
  function OpeningOf(told: seq<Told>, i: int): Option<Opening> {
    if told == [] then None
    else
      var before, t := OpeningOf(told[..|told| - 1], i), told[|told| - 1];
      if !Concerned(told, i) then before
      else if Is(t, "content_block_start") then Some(Started(t.decoded.payload.start))
      else if before.Some? then before
      else if t.decoded.Handles? then Some(Missing(t.decoded.payload.deltaKind))
      else if t.decoded.Raises? && t.decoded.done.NewBlock? then Some(Missing(t.decoded.done.deltaKind))
      else None
  }

  /** The deltas that index i has been given since then, in order. */
  function DeltasSince(told: seq<Told>, i: int): seq<Payload> {
    if told == [] then []
    else
      var before, t := DeltasSince(told[..|told| - 1], i), told[|told| - 1];
      if !Concerned(told, i) then before
      else if Is(t, "content_block_start") then []
      else if t.decoded.Handles? then before + [t.decoded.payload]
      else before
  }

  // ---------- what a block should hold ----------

  /** The text entries of text deltas and the thinking entries of thinking deltas. */
  function TextEntries(ps: seq<Payload>): seq<string> {
    if ps == [] then []
    else
      var p := ps[|ps| - 1];
      TextEntries(ps[..|ps| - 1])
      + (if p.deltaKind == "text_delta" then [p.deltaText]
         else if p.deltaKind == "thinking_delta" then [p.deltaThinking]
         else [])
  }

  /** The partial JSON of input deltas. */
  function JsonEntries(ps: seq<Payload>): seq<string> {
    if ps == [] then []
    else JsonEntries(ps[..|ps| - 1]) + (if ps[|ps| - 1].deltaKind == "input_json_delta" then [ps[|ps| - 1].deltaJson] else [])
  }

  function OpeningType(o: Opening): string {
    match o
    case Started(info) => info.kind
    case Missing(kind) =>
      if kind == "input_json_delta" then "tool_use" else if kind == "thinking_delta" then "thinking" else "text"
  }

  function OpeningText(o: Opening): Option<string> {
    match o
    case Started(info) =>
      if info.kind == "text" then Some(OrEmpty(info.text))
      else if info.kind == "thinking" then Some(OrEmpty(info.thinking))
      else if info.kind == "tool_use" then None
      else info.text
    case Missing(kind) => if kind == "input_json_delta" then None else Some("")
  }

  function OpeningJson(o: Opening): Option<string> {
    if OpeningType(o) == "tool_use" then Some("") else None
  }

  /** What was there, followed by the entries, if there are any. */
  function With(opening: Option<string>, entries: seq<string>): Option<string> {
    if entries == [] then opening else Some(OrEmpty(opening) + Flatten(entries))
  }

  /** The block is what its opening and its deltas make it. */
  ghost predicate IsAsTold<D>(b: ContentBlock<D>, i: int, o: Opening, deltas: seq<Payload>) {
    && b.index == i && b.blockType == OpeningType(o)
    && b.text == With(OpeningText(o), TextEntries(deltas))
    && b.partialJson == With(OpeningJson(o), JsonEntries(deltas))
    && b.toolId == (if o.Started? && o.info.kind == "tool_use" then o.info.id else None)
    && b.toolName == (if o.Started? && o.info.kind == "tool_use" then o.info.name else None)
  }

  ghost predicate Tells<D>(cur: Option<ContentBlock<D>>, i: int, told: seq<Told>) {
    if OpeningOf(told, i).None? then cur.None?
    else cur.Some? && IsAsTold(cur.value, i, OpeningOf(told, i).value, DeltasSince(told, i))
  }

  // ---------- the blocks are as told ----------

  lemma WithOneMore(opening: Option<string>, entries: seq<string>, s: string)
    ensures With(opening, entries + [s]) == Some(OrEmpty(With(opening, entries)) + s)
    ensures With(opening, []) == opening && entries + [] == entries
  {
    FlattenSnoc(entries, s);
    assert OrEmpty(opening) + Flatten(entries) + s == OrEmpty(opening) + (Flatten(entries) + s);
    assert entries == [] ==> Flatten(entries) + s == s;
  }

  lemma EntriesSnoc(ps: seq<Payload>, p: Payload)
    ensures TextEntries(ps + [p]) == TextEntries(ps) + (if p.deltaKind == "text_delta" then [p.deltaText]
                                                        else if p.deltaKind == "thinking_delta" then [p.deltaThinking] else [])
    ensures JsonEntries(ps + [p]) == JsonEntries(ps) + (if p.deltaKind == "input_json_delta" then [p.deltaJson] else [])
  {
    assert (ps + [p])[..|ps|] == ps;
  }

  /** One delta on a block that is as told. */
  lemma DeltaTells<D>(b: ContentBlock<D>, i: int, o: Opening, deltas: seq<Payload>, p: Payload)
    requires IsAsTold(b, i, o, deltas) && IndexOr(p.index, 0) == i
    ensures IsAsTold(ExtendBlock(b, DeltaItem(p)), i, o, deltas + [p])
  {
    EntriesSnoc(deltas, p);
    var text, json := TextEntries(deltas), JsonEntries(deltas);
    WithOneMore(OpeningText(o), text, p.deltaText);
    WithOneMore(OpeningText(o), text, p.deltaThinking);
    WithOneMore(OpeningJson(o), json, p.deltaJson);
  }

  /** A block as it opens. */
  lemma OpeningTells<D>(i: int, info: BlockStart, item: Item)
    ensures IsAsTold<D>(OpenBlock(i, info), i, Started(info), [])
    ensures item.OtherDelta? && item.blockIndex == i ==> IsAsTold<D>(MissingBlock(item), i, Missing(item.kind), [])
  {
  }

  lemma MissingTells<D>(i: int, p: Payload)
    requires IndexOr(p.index, 0) == i
    ensures IsAsTold<D>(MissingBlock(DeltaItem(p)), i, Missing(p.deltaKind), [])
  {
  }

  lemma StopTells<D>(loads: string -> JsonText<D>, b: ContentBlock<D>, i: int, o: Opening, deltas: seq<Payload>)
    requires IsAsTold(b, i, o, deltas)
    ensures IsAsTold(StopBlock(loads, b), i, o, deltas) && IsAsTold(EndBlock(loads, b), i, o, deltas)
  {
  }

  lemma ToldSnoc(told: seq<Told>, t: Told)
    ensures AllItems(told + [t]) == AllItems(told) + ItemsOf(t)
    ensures var i := IndexOf(t, |OpenIndexes(told)|);
            OpenIndexes(told + [t]) == if i.Some? then OpenIndexes(told) + {i.value} else OpenIndexes(told)
  {
    assert (told + [t])[..|told|] == told;
  }

  /** The handled item of an event, and the indexes that have a block after it. */
  lemma DeltaIndexes(before: set<int>, t: Told)
    requires Is(t, "content_block_delta")
    ensures var i, items := IndexOf(t, |before|), ItemsOf(t);
            items != [] && i.Some? && IndexStep(before, items[0]) == before + {i.value}
  {
    hide DeltaItem;
    DeltaIsDelta(t.decoded.payload);
  }

  lemma StartIndexes(before: set<int>, t: Told)
    requires Is(t, "content_block_start")
    ensures var i, items := IndexOf(t, |before|), ItemsOf(t);
            items != [] && i.Some? && IndexStep(before, items[0]) == before + {i.value}
  {
  }

  lemma NoIndexes(before: set<int>, t: Told)
    requires t.decoded.Handles? && t.name !in {"content_block_delta", "content_block_start"}
    ensures IndexOf(t, |before|).None? && (ItemsOf(t) != [] ==> IndexStep(before, ItemsOf(t)[0]) == before)
  {
    hide DeltaItem;
  }

  lemma PartialIndexes(before: set<int>, t: Told)
    requires !t.decoded.Handles?
    ensures var i, items := IndexOf(t, |before|), ItemsOf(t);
            && (items == [] ==> i.None?)
            && (items != [] ==> IndexStep(before, items[0]) == if i.Some? then before + {i.value} else before)
  {
  }

  lemma ItemIndexes(before: set<int>, t: Told)
    ensures var i, items := IndexOf(t, |before|), ItemsOf(t);
            && (items == [] ==> i.None?)
            && (items != [] ==> IndexStep(before, items[0]) == if i.Some? then before + {i.value} else before)
  {
    hide ItemsOf, IndexOf, IndexStep;
    if Is(t, "content_block_delta") {
      DeltaIndexes(before, t);
    } else if Is(t, "content_block_start") {
      StartIndexes(before, t);
    } else if t.decoded.Handles? {
      NoIndexes(before, t);
    } else {
      PartialIndexes(before, t);
    }
  }

  lemma DeltaIsDelta(p: Payload)
    ensures var item := DeltaItem(p);
            && (item.TextDelta? || item.ThinkingDelta? || item.JsonDelta? || item.OtherDelta?)
            && item.blockIndex == IndexOr(p.index, 0)
  {
  }

  lemma ApplyOneTold<D>(loads: string -> JsonText<D>, told: seq<Told>, t: Told)
    ensures ApplyAll(loads, NewState(), AllItems(told + [t]))
         == (var st := ApplyAll(loads, NewState(), AllItems(told)); if ItemsOf(t) == [] then st else Apply(loads, st, ItemsOf(t)[0]))
  {
    ToldSnoc(told, t);
    FoldAppend(ApplyStep(loads), NewState(), AllItems(told), ItemsOf(t));
    if ItemsOf(t) != [] {
      FoldOne(ApplyStep(loads), ApplyAll(loads, NewState(), AllItems(told)), ItemsOf(t)[0]);
    }
  }

  lemma {:induction false} KeysAreOpen<D>(loads: string -> JsonText<D>, told: seq<Told>)
    ensures ApplyAll(loads, NewState(), AllItems(told)).blocks.Keys == OpenIndexes(told)
    ensures |ApplyAll(loads, NewState(), AllItems(told)).blocks| == |OpenIndexes(told)|
  {
    hide Apply, IndexStep, IndexOf, ItemsOf;
    var st := ApplyAll(loads, NewState(), AllItems(told));
    if told != [] {
      var init, t := told[..|told| - 1], told[|told| - 1];
      KeysAreOpen(loads, init);
      assert told == init + [t];
      ApplyOneTold(loads, init, t);
      ToldSnoc(init, t);
      ItemIndexes(OpenIndexes(init), t);
      if ItemsOf(t) != [] {
        StepKeys(loads, ApplyAll(loads, NewState(), AllItems(init)), ItemsOf(t)[0]);
      }
    }
    assert |st.blocks| == |st.blocks.Keys|;
  }

  lemma OpeningSnoc(told: seq<Told>, t: Told, i: int)
    ensures IndexOf(t, |OpenIndexes(told)|) != Some(i) ==>
              OpeningOf(told + [t], i) == OpeningOf(told, i) && DeltasSince(told + [t], i) == DeltasSince(told, i)
    ensures IndexOf(t, |OpenIndexes(told)|) == Some(i) && Is(t, "content_block_start") ==>
              OpeningOf(told + [t], i) == Some(Started(t.decoded.payload.start)) && DeltasSince(told + [t], i) == []
    ensures IndexOf(t, |OpenIndexes(told)|) == Some(i) && Is(t, "content_block_delta") ==>
              && OpeningOf(told + [t], i)
                 == (if OpeningOf(told, i).Some? then OpeningOf(told, i) else Some(Missing(t.decoded.payload.deltaKind)))
              && DeltasSince(told + [t], i) == DeltasSince(told, i) + [t.decoded.payload]
    ensures IndexOf(t, |OpenIndexes(told)|) == Some(i) && t.decoded.Raises? && t.decoded.done.NewBlock? ==>
              && OpeningOf(told + [t], i)
                 == (if OpeningOf(told, i).Some? then OpeningOf(told, i) else Some(Missing(t.decoded.done.deltaKind)))
              && DeltasSince(told + [t], i) == DeltasSince(told, i)
  {
    assert (told + [t])[..|told|] == told;
  }

  lemma {:induction false} NoOpeningNoDeltas(told: seq<Told>, i: int)
    requires OpeningOf(told, i).None?
    ensures DeltasSince(told, i) == []
  {
    if told != [] {
      NoOpeningNoDeltas(told[..|told| - 1], i);
    }
  }

  /** One handled item, given to the block at index i. */
  lemma BlockStepTells<D>(loads: string -> JsonText<D>, cur: Option<ContentBlock<D>>, told: seq<Told>, t: Told, i: int)
    requires Tells(cur, i, told) && ItemsOf(t) != []
    ensures Tells(BlockStep(loads, i, cur, ResolveItem(ItemsOf(t)[0], |OpenIndexes(told)|)), i, told + [t])
  {
    hide IsAsTold, OpeningOf, DeltasSince, OpenIndexes, DeltaItem, ExtendBlock, MissingBlock, OpenBlock, StopBlock, EndBlock;
    OpeningSnoc(told, t, i);
    if OpeningOf(told, i).None? { NoOpeningNoDeltas(told, i); }
    if Is(t, "content_block_delta") {
      DeltaIsDelta(t.decoded.payload);
      DeltaStepTells(loads, cur, told, t, i);
    } else if Is(t, "content_block_start") {
      OpeningTells<D>(i, t.decoded.payload.start, MessageStop);
    } else if t.decoded.Raises? && t.decoded.done.NewBlock? {
      NewBlockTells(loads, cur, told, t, i);
    } else if cur.Some? {
      StopTells(loads, cur.value, i, OpeningOf(told, i).value, DeltasSince(told, i));
    }
  }

  lemma DeltaStepTells<D>(loads: string -> JsonText<D>, cur: Option<ContentBlock<D>>, told: seq<Told>, t: Told, i: int)
    requires Tells(cur, i, told) && Is(t, "content_block_delta")
    ensures Tells(BlockStep(loads, i, cur, DeltaItem(t.decoded.payload)), i, told + [t])
  {
    hide IsAsTold, OpeningOf, DeltasSince, OpenIndexes, ExtendBlock, MissingBlock;
    var p := t.decoded.payload;
    OpeningSnoc(told, t, i);
    if IndexOr(p.index, 0) == i {
      if cur.Some? {
        DeltaTells(cur.value, i, OpeningOf(told, i).value, DeltasSince(told, i), p);
      } else {
        NoOpeningNoDeltas(told, i);
        MissingTells<D>(i, p);
        DeltaTells(MissingBlock<D>(DeltaItem(p)), i, Missing(p.deltaKind), [], p);
      }
    }
  }

  lemma NewBlockTells<D>(loads: string -> JsonText<D>, cur: Option<ContentBlock<D>>, told: seq<Told>, t: Told, i: int)
    requires Tells(cur, i, told) && t.decoded.Raises? && t.decoded.done.NewBlock?
    ensures var item := OtherDelta(t.decoded.done.index, t.decoded.done.deltaKind);
            Tells(BlockStep(loads, i, cur, item), i, told + [t])
  {
    hide IsAsTold, OpeningOf, DeltasSince, OpenIndexes, MissingBlock;
    OpeningSnoc(told, t, i);
    if t.decoded.done.index == i && cur.None? {
      NoOpeningNoDeltas(told, i);
      OpeningTells<D>(i, BlockStart("", None, None, None, None), OtherDelta(i, t.decoded.done.deltaKind));
    }
  }

  lemma NothingTells<D>(cur: Option<ContentBlock<D>>, told: seq<Told>, t: Told, i: int)
    requires Tells(cur, i, told) && ItemsOf(t) == []
    ensures Tells(cur, i, told + [t])
  {
    hide IsAsTold, OpeningOf, DeltasSince, OpenIndexes;
    OpeningSnoc(told, t, i);
  }

  /**
   * After any events, handled or raising: there is a block at an index exactly when an event opened one; it has the type,
   * the tool id and the tool name of its last start, and holds the text, or the partial JSON, of the deltas since then.
   */
  lemma {:induction false} BlocksAreAsTold<D>(loads: string -> JsonText<D>, told: seq<Told>, i: int)
    ensures Tells(Find(ApplyAll(loads, NewState(), AllItems(told)).blocks, i), i, told)
  {
    hide Tells, Apply, BlockStep, ItemsOf, ResolveItem;
    if told == [] {
      NothingTold(loads, i);
    } else {
      var init, t := told[..|told| - 1], told[|told| - 1];
      BlocksAreAsTold(loads, init, i);
      assert told == init + [t];
      ApplyOneTold(loads, init, t);
      var st := ApplyAll(loads, NewState(), AllItems(init));
      if ItemsOf(t) == [] {
        NothingTells(Find(st.blocks, i), init, t, i);
      } else {
        KeysAreOpen(loads, init);
        StepAssembles(loads, st, ItemsOf(t)[0], i);
        BlockStepTells(loads, Find(st.blocks, i), init, t, i);
      }
    }
  }

  lemma NothingTold<D>(loads: string -> JsonText<D>, i: int)
    ensures Tells(Find(ApplyAll<D>(loads, NewState(), AllItems([])).blocks, i), i, [])
  {
  }

  // ---------- inputs, usage and the stop reason ----------

  /** What the input of index i has been parsed to: at each stop of the block, and at the end if it has not been. */
  function ParsedAt<D>(loads: string -> JsonText<D>, told: seq<Told>, i: int): Option<ParsedInput<D>> {
    if told == [] then None
    else
      var init, t := told[..|told| - 1], told[|told| - 1];
      var before, o := ParsedAt(loads, init, i), OpeningOf(init, i);
      if Concerned(told, i) && (Is(t, "content_block_start") || o.None?) then None
      else if o.None? || OpeningType(o.value) != "tool_use" then before
      else
        var now := ParsePartial(loads, Flatten(JsonEntries(DeltasSince(init, i))));
        if Is(t, "content_block_stop") && IndexOr(t.decoded.payload.index, 0) == i then now
        else if Is(t, "message_stop") && before.None? then now
        else before
  }

  /** The last value that an event of the given name reports. */
  function LastReported(told: seq<Told>, name: string, entry: Payload -> Option<int>): Option<int> {
    if told == [] then None
    else
      var before, t := LastReported(told[..|told| - 1], name, entry), told[|told| - 1];
      if Is(t, name) && entry(t.decoded.payload).Some? then entry(t.decoded.payload) else before
  }

  function LastReason(told: seq<Told>): Option<string> {
    if told == [] then None
    else
      var before, t := LastReason(told[..|told| - 1]), told[|told| - 1];
      if Is(t, "message_delta") && t.decoded.payload.stopReason.Some? then t.decoded.payload.stopReason
      else if t.decoded.Raises? && t.decoded.done.Reason? then Some(t.decoded.done.reason)
      else before
  }

  function OrZero(n: Option<int>): int {
    if n.Some? then n.value else 0
  }

  /** Usage holds the last value reported for each count, and the stop reason is the last one given. */
  ghost predicate CountsAsTold<D>(st: State<D>, told: seq<Told>) {
    && st.usage.inputTokens == OrZero(LastReported(told, "message_start", (p: Payload) => p.inputTokens))
    && st.usage.cacheCreationInputTokens == OrZero(LastReported(told, "message_start", (p: Payload) => p.cacheCreation))
    && st.usage.cacheReadInputTokens == OrZero(LastReported(told, "message_start", (p: Payload) => p.cacheRead))
    && st.usage.outputTokens == OrZero(LastReported(told, "message_delta", (p: Payload) => p.outputTokens))
    && st.usage.reasoningTokens == 0
    && st.stopReason == LastReason(told)
    && (st.isDone <==> exists t | t in told :: Is(t, "message_stop"))
  }

  lemma ReportedSnoc(told: seq<Told>, t: Told, name: string, entry: Payload -> Option<int>)
    ensures LastReported(told + [t], name, entry)
         == if Is(t, name) && entry(t.decoded.payload).Some? then entry(t.decoded.payload) else LastReported(told, name, entry)
  {
    assert (told + [t])[..|told|] == told;
  }

  lemma ReasonSnoc(told: seq<Told>, t: Told)
    ensures LastReason(told + [t])
         == if Is(t, "message_delta") && t.decoded.payload.stopReason.Some? then t.decoded.payload.stopReason
            else if t.decoded.Raises? && t.decoded.done.Reason? then Some(t.decoded.done.reason)
            else LastReason(told)
  {
    assert (told + [t])[..|told|] == told;
  }

  lemma CountsStep<D>(loads: string -> JsonText<D>, st: State<D>, told: seq<Told>, t: Told)
    requires CountsAsTold(st, told)
    ensures CountsAsTold(if ItemsOf(t) == [] then st else Apply(loads, st, ItemsOf(t)[0]), told + [t])
  {
    hide LastReported, LastReason, EndBlocks, OpenBlock, StopBlock, MissingBlock, ExtendBlock, DeltaItem;
    ReportedSnoc(told, t, "message_start", (p: Payload) => p.inputTokens);
    ReportedSnoc(told, t, "message_start", (p: Payload) => p.cacheCreation);
    ReportedSnoc(told, t, "message_start", (p: Payload) => p.cacheRead);
    ReportedSnoc(told, t, "message_delta", (p: Payload) => p.outputTokens);
    ReasonSnoc(told, t);
    if Is(t, "content_block_delta") {
      DeltaIsDelta(t.decoded.payload);
    }
    OneMoreTold(told, t);
  }

  lemma OneMoreTold(told: seq<Told>, t: Told)
    ensures (exists x | x in told + [t] :: Is(x, "message_stop")) <==> (exists x | x in told :: Is(x, "message_stop")) || Is(t, "message_stop")
  {
    assert t in told + [t];
    assert forall x :: x in told + [t] <==> x in told || x == t;
  }

  /** After any events the usage and the stop reason are those last reported. */
  lemma {:induction false} CountsAreAsTold<D>(loads: string -> JsonText<D>, told: seq<Told>)
    ensures CountsAsTold(ApplyAll(loads, NewState(), AllItems(told)), told)
  {
    hide CountsAsTold, Apply, ItemsOf;
    if told == [] {
      NothingCounted(loads);
    } else {
      var init, t := told[..|told| - 1], told[|told| - 1];
      CountsAreAsTold(loads, init);
      assert told == init + [t];
      ApplyOneTold(loads, init, t);
      CountsStep(loads, ApplyAll(loads, NewState(), AllItems(init)), init, t);
    }
  }

  lemma NothingCounted<D>(loads: string -> JsonText<D>)
    ensures CountsAsTold(ApplyAll<D>(loads, NewState(), AllItems([])), [])
  {
  }

  ghost predicate Parsed<D>(loads: string -> JsonText<D>, cur: Option<ContentBlock<D>>, told: seq<Told>, i: int) {
    if cur.Some? then cur.value.parsedInput == ParsedAt(loads, told, i) else ParsedAt(loads, told, i).None?
  }

  lemma ParsedSnoc<D>(loads: string -> JsonText<D>, told: seq<Told>, t: Told, i: int)
    ensures var before, o := ParsedAt(loads, told, i), OpeningOf(told, i);
            ParsedAt(loads, told + [t], i)
            == if IndexOf(t, |OpenIndexes(told)|) == Some(i) && (Is(t, "content_block_start") || o.None?) then None
               else if o.None? || OpeningType(o.value) != "tool_use" then before
               else
                 var now := ParsePartial(loads, Flatten(JsonEntries(DeltasSince(told, i))));
                 if Is(t, "content_block_stop") && IndexOr(t.decoded.payload.index, 0) == i then now
                 else if Is(t, "message_stop") && before.None? then now
                 else before
  {
    assert (told + [t])[..|told|] == told;
  }

  lemma ToolJson<D>(b: ContentBlock<D>, i: int, o: Opening, deltas: seq<Payload>)
    requires IsAsTold(b, i, o, deltas) && OpeningType(o) == "tool_use"
    ensures b.blockType == "tool_use" && b.partialJson == Some(Flatten(JsonEntries(deltas)))
  {
    assert "" + Flatten(JsonEntries(deltas)) == Flatten(JsonEntries(deltas));
  }

  lemma ParsedStep<D>(loads: string -> JsonText<D>, cur: Option<ContentBlock<D>>, told: seq<Told>, t: Told, i: int)
    requires Tells(cur, i, told) && Parsed(loads, cur, told, i) && ItemsOf(t) != []
    ensures Parsed(loads, BlockStep(loads, i, cur, ResolveItem(ItemsOf(t)[0], |OpenIndexes(told)|)), told + [t], i)
  {
    hide OpeningOf, DeltasSince, OpenIndexes, DeltaItem, ParsedAt, OpeningType, With, TextEntries, JsonEntries;
    ParsedSnoc(loads, told, t, i);
    if Is(t, "content_block_delta") {
      DeltaIsDelta(t.decoded.payload);
    }
    if cur.Some? {
      var o, deltas := OpeningOf(told, i).value, DeltasSince(told, i);
      TypeIsTold(cur.value, i, o, deltas);
      if OpeningType(o) == "tool_use" {
        ToolJson(cur.value, i, o, deltas);
      }
    }
  }

  lemma TypeIsTold<D>(b: ContentBlock<D>, i: int, o: Opening, deltas: seq<Payload>)
    requires IsAsTold(b, i, o, deltas)
    ensures b.blockType == OpeningType(o) && b.index == i
  {
  }

  lemma ParsedNothing<D>(loads: string -> JsonText<D>, cur: Option<ContentBlock<D>>, told: seq<Told>, t: Told, i: int)
    requires Tells(cur, i, told) && Parsed(loads, cur, told, i) && ItemsOf(t) == []
    ensures Parsed(loads, cur, told + [t], i)
  {
    hide OpeningOf, DeltasSince, OpenIndexes, ParsedAt, IsAsTold;
    ParsedSnoc(loads, told, t, i);
  }

  /** After any events the input of a block is what its JSON was parsed to when it stopped, or else at the end. */
  lemma {:induction false} InputsAreParsed<D>(loads: string -> JsonText<D>, told: seq<Told>, i: int)
    ensures Parsed(loads, Find(ApplyAll(loads, NewState(), AllItems(told)).blocks, i), told, i)
  {
    hide Parsed, Tells, Apply, BlockStep, ItemsOf, ResolveItem;
    if told == [] {
      NothingParsed(loads, i);
    } else {
      var init, t := told[..|told| - 1], told[|told| - 1];
      InputsAreParsed(loads, init, i);
      BlocksAreAsTold(loads, init, i);
      assert told == init + [t];
      ApplyOneTold(loads, init, t);
      var st := ApplyAll(loads, NewState(), AllItems(init));
      if ItemsOf(t) == [] {
        ParsedNothing(loads, Find(st.blocks, i), init, t, i);
      } else {
        KeysAreOpen(loads, init);
        StepAssembles(loads, st, ItemsOf(t)[0], i);
        ParsedStep(loads, Find(st.blocks, i), init, t, i);
      }
    }
  }

  lemma NothingParsed<D>(loads: string -> JsonText<D>, i: int)
    ensures Parsed(loads, Find(ApplyAll<D>(loads, NewState(), AllItems([])).blocks, i), [], i)
  {
  }

  // ---------- whole streams ----------

  /** The end of a stream acts as one more message_stop. */
  function TheEnd(p: Payload): Told {
    Told("message_stop", Handles(p))
  }

  /** The events that a whole text holds for the handlers, those of its close included, and its end. */
  function StreamTold<D>(lib: Library<D>, text: string, p: Payload): seq<Told> {
    var fed := SseReading.ReadOne(lib.num, IsBad(lib), FRESH, text);
    Received(lib, fed.events) + Received(lib, Sse.CloseStream(lib.num, fed.state).events) + [TheEnd(p)]
  }

  lemma {:induction false} AllItemsAppend(a: seq<Told>, b: seq<Told>)
    ensures AllItems(a + b) == AllItems(a) + AllItems(b)
  {
    if b == [] {
      assert a + b == a && AllItems(a) + [] == AllItems(a);
    } else {
      assert (a + b)[..|a + b| - 1] == a + b[..|b| - 1];
      AllItemsAppend(a, b[..|b| - 1]);
    }
  }

  lemma StreamItemsAreTold<D>(lib: Library<D>, text: string, p: Payload)
    ensures StreamItems(lib, text) == AllItems(StreamTold(lib, text, p))
  {
    hide SseReading.ReadOne, Sse.CloseStream, AllItems, ItemsOf, Received, EventsItems, IndexOf, OpenIndexes;
    var fed := SseReading.ReadOne(lib.num, IsBad(lib), FRESH, text);
    var closed := Sse.CloseStream(lib.num, fed.state).events;
    ReceivedItems(lib, fed.events);
    ReceivedItems(lib, closed);
    AllItemsAppend(Received(lib, fed.events), Received(lib, closed));
    ToldSnoc(Received(lib, fed.events) + Received(lib, closed), TheEnd(p));
    EndItem(p);
  }

  lemma EndItem(p: Payload)
    ensures ItemsOf(TheEnd(p)) == [MessageStop]
  {
  }

  /**
   * From the pieces of a text to the result: however a text is cut on which nothing is lost to an exception, the
   * blocks, their parsed inputs, the usage and the stop reason are those that its events tell.
   */
  lemma StreamIsAsTold<D>(lib: Library<D>, texts: seq<string>, i: int, p: Payload)
    requires ReadsSafely(lib, Flatten(texts))
    ensures var st, told := FeedEof(HandlerOf(lib), FeedTexts(HandlerOf(lib), Acc(FRESH, NewState()), texts)).state,
                            StreamTold(lib, Flatten(texts), p);
            && Tells(Find(st.blocks, i), i, told) && Parsed(lib.loads, Find(st.blocks, i), told, i)
            && CountsAsTold(st, told)
  {
    hide ReadsSafely, Tells, Parsed, CountsAsTold;
    AccumulatesTheText(lib, texts);
    StreamItemsAreTold(lib, Flatten(texts), p);
    BlocksAreAsTold(lib.loads, StreamTold(lib, Flatten(texts), p), i);
    InputsAreParsed(lib.loads, StreamTold(lib, Flatten(texts), p), i);
    CountsAreAsTold(lib.loads, StreamTold(lib, Flatten(texts), p));
  }
}

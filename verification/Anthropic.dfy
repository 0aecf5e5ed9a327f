/** The Anthropic stream accumulator (src/interceptor/stream/accumulators/anthropic.py). */
module Anthropic {
  import opened Collections
  import opened ContentBlocks
  import opened StreamFold
  import Sse
  import SseReading

  // ---------- what an event carries ----------

  datatype BlockStart = BlockStart(kind: string, text: Option<string>, thinking: Option<string>, id: Option<string>, name: Option<string>)

  // The entries of an event's JSON that the handlers read, with the defaults they use.
  datatype Payload = Payload(
    index: Option<int>,
    start: BlockStart,
    deltaKind: string,
    deltaText: string,
    deltaThinking: string,
    deltaJson: string,
    stopReason: Option<string>,
    outputTokens: Option<int>,
    inputTokens: Option<int>,
    cacheCreation: Option<int>,
    cacheRead: Option<int>)

  datatype Item =
    | MessageStart(inputTokens: Option<int>, cacheCreation: Option<int>, cacheRead: Option<int>)
    | Start(index: Option<int>, info: BlockStart)
    | TextDelta(blockIndex: int, text: string)
    | ThinkingDelta(blockIndex: int, text: string)
    | JsonDelta(blockIndex: int, json: string)
    | OtherDelta(blockIndex: int, kind: string)
    | Stop(blockIndex: int)
    | MessageDelta(stopReason: Option<string>, outputTokens: Option<int>)
    | MessageStop

  function IndexOr(index: Option<int>, default: int): int {
    if index.Some? then index.value else default
  }

  function DeltaItem(p: Payload): Item {
    var i := IndexOr(p.index, 0);
    if p.deltaKind == "text_delta" then TextDelta(i, p.deltaText)
    else if p.deltaKind == "thinking_delta" then ThinkingDelta(i, p.deltaThinking)
    else if p.deltaKind == "input_json_delta" then JsonDelta(i, p.deltaJson)
    else OtherDelta(i, p.deltaKind)
  }

  /** The effect of an event of the given name, if the accumulator handles it. */
  function ItemOf(event: string, p: Payload): Option<Item> {
    if event == "message_start" then Some(MessageStart(p.inputTokens, p.cacheCreation, p.cacheRead))
    else if event == "content_block_start" then Some(Start(p.index, p.start))
    else if event == "content_block_delta" then Some(DeltaItem(p))
    else if event == "content_block_stop" then Some(Stop(IndexOr(p.index, 0)))
    else if event == "message_delta" then Some(MessageDelta(p.stopReason, p.outputTokens))
    else if event == "message_stop" then Some(MessageStop)
    else None
  }

  // ---------- the accumulator on values ----------

  datatype State<D> = State(blocks: map<int, ContentBlock<D>>, stopReason: Option<string>, usage: UsageMetrics, isDone: bool)

  function NewState<D>(): State<D> {
    State(map[], None, NO_USAGE, false)
  }

  function OpenBlock<D>(index: int, info: BlockStart): ContentBlock<D> {
    if info.kind == "text" then ContentBlock(index, "text", Some(OrEmpty(info.text)), None, None, None, None)
    else if info.kind == "tool_use" then ContentBlock(index, "tool_use", None, info.id, info.name, Some(""), None)
    else if info.kind == "thinking" then ContentBlock(index, "thinking", Some(OrEmpty(info.thinking)), None, None, None, None)
    else ContentBlock(index, info.kind, info.text, None, None, None, None)
  }

  /** The block that a delta creates when its start was missing. */
  function MissingBlock<D>(item: Item): ContentBlock<D>
    requires item.TextDelta? || item.ThinkingDelta? || item.JsonDelta? || item.OtherDelta?
  {
    if item.JsonDelta? || (item.OtherDelta? && item.kind == "input_json_delta") then
      ContentBlock(item.blockIndex, "tool_use", None, None, None, Some(""), None)
    else if item.ThinkingDelta? || (item.OtherDelta? && item.kind == "thinking_delta") then
      ContentBlock(item.blockIndex, "thinking", Some(""), None, None, None, None)
    else ContentBlock(item.blockIndex, "text", Some(""), None, None, None, None)
  }

  function ExtendBlock<D>(b: ContentBlock<D>, item: Item): ContentBlock<D> {
    match item
    case TextDelta(_, s) => b.(text := Some(OrEmpty(b.text) + s))
    case ThinkingDelta(_, s) => b.(text := Some(OrEmpty(b.text) + s))
    case JsonDelta(_, s) => b.(partialJson := Some(OrEmpty(b.partialJson) + s))
    case _ => b
  }

  function ParseToolJson<D>(loads: string -> JsonText<D>, b: ContentBlock<D>): ContentBlock<D> {
    if b.partialJson.Some? then b.(parsedInput := ParsePartial(loads, b.partialJson.value)) else b
  }

  function StopBlock<D>(loads: string -> JsonText<D>, b: ContentBlock<D>): ContentBlock<D> {
    if b.blockType == "tool_use" then ParseToolJson(loads, b) else b
  }

  function EndBlock<D>(loads: string -> JsonText<D>, b: ContentBlock<D>): ContentBlock<D> {
    if b.blockType == "tool_use" then FinishBlock(loads, b) else b
  }

  function Find<D>(blocks: map<int, ContentBlock<D>>, i: int): Option<ContentBlock<D>> {
    if i in blocks then Some(blocks[i]) else None
  }

  /** The block of index i after an item; only the item of a start without an index looks elsewhere. */
  function BlockStep<D>(loads: string -> JsonText<D>, i: int, cur: Option<ContentBlock<D>>, item: Item): Option<ContentBlock<D>> {
    match item
    case Start(index, info) => if index == Some(i) then Some(OpenBlock(i, info)) else cur
    case Stop(index) => if index == i && cur.Some? then Some(StopBlock(loads, cur.value)) else cur
    case MessageStop => if cur.Some? then Some(EndBlock(loads, cur.value)) else None
    case MessageStart(_, _, _) => cur
    case MessageDelta(_, _) => cur
    case _ =>
      if item.blockIndex != i then cur
      else Some(ExtendBlock(if cur.Some? then cur.value else MissingBlock(item), item))
  }

  function Apply<D>(loads: string -> JsonText<D>, st: State<D>, item: Item): State<D> {
    match item
    case MessageStart(input, creation, read) =>
      st.(usage := st.usage.(
        inputTokens := IndexOr(input, st.usage.inputTokens),
        cacheCreationInputTokens := IndexOr(creation, st.usage.cacheCreationInputTokens),
        cacheReadInputTokens := IndexOr(read, st.usage.cacheReadInputTokens)))
    case Start(index, info) =>
      var i := IndexOr(index, |st.blocks|);
      st.(blocks := st.blocks[i := OpenBlock(i, info)])
    case Stop(i) =>
      if i in st.blocks then st.(blocks := st.blocks[i := StopBlock(loads, st.blocks[i])]) else st
    case MessageDelta(reason, output) =>
      st.(stopReason := if reason.Some? then reason else st.stopReason,
          usage := st.usage.(outputTokens := IndexOr(output, st.usage.outputTokens)))
    case MessageStop => st.(blocks := EndBlocks(loads, st.blocks), isDone := true)
    case _ =>
      var b := if item.blockIndex in st.blocks then st.blocks[item.blockIndex] else MissingBlock(item);
      st.(blocks := st.blocks[item.blockIndex := ExtendBlock(b, item)])
  }

  function EndBlocks<D>(loads: string -> JsonText<D>, blocks: map<int, ContentBlock<D>>): map<int, ContentBlock<D>> {
    map i | i in blocks :: EndBlock(loads, blocks[i])
  }

  function ApplyStep<D>(loads: string -> JsonText<D>): (State<D>, Item) -> State<D> {
    (st, item) => Apply(loads, st, item)
  }

  function ApplyAll<D>(loads: string -> JsonText<D>, st: State<D>, items: seq<Item>): State<D> {
    Fold(ApplyStep(loads), st, items)
  }

  // ---------- what a block is, index by index ----------

  /** The indexes that have a block after one more item. */
  function IndexStep(before: set<int>, item: Item): set<int> {
    match item
    case Start(index, _) => before + {IndexOr(index, |before|)}
    case TextDelta(i, _) => before + {i}
    case ThinkingDelta(i, _) => before + {i}
    case JsonDelta(i, _) => before + {i}
    case OtherDelta(i, _) => before + {i}
    case _ => before
  }

  function Indexes(items: seq<Item>): set<int> {
    if items == [] then {} else IndexStep(Indexes(items[..|items| - 1]), items[|items| - 1])
  }

  /** A start without an index is given the number of blocks there are. */
  function ResolveItem(item: Item, count: nat): Item {
    if item.Start? && item.index.None? then Start(Some(count), item.info) else item
  }

  /** The same items with every start naming the index it opens. */
  function Resolve(items: seq<Item>): seq<Item> {
    if items == [] then []
    else Resolve(items[..|items| - 1]) + [ResolveItem(items[|items| - 1], |Indexes(items[..|items| - 1])|)]
  }

  lemma StepKeys<D>(loads: string -> JsonText<D>, st: State<D>, item: Item)
    ensures Apply(loads, st, item).blocks.Keys == IndexStep(st.blocks.Keys, item)
  {
    assert |st.blocks| == |st.blocks.Keys|;
  }

  lemma {:induction false} IndexesAreKeys<D>(loads: string -> JsonText<D>, items: seq<Item>)
    ensures ApplyAll(loads, NewState(), items).blocks.Keys == Indexes(items)
  {
    hide Apply, IndexStep;
    if items != [] {
      var init := items[..|items| - 1];
      IndexesAreKeys(loads, init);
      StepKeys(loads, ApplyAll(loads, NewState(), init), items[|items| - 1]);
    }
  }

  lemma ApplyResolved<D>(loads: string -> JsonText<D>, st: State<D>, item: Item)
    ensures Apply(loads, st, ResolveItem(item, |st.blocks|)) == Apply(loads, st, item)
  {
  }

  lemma ResolveLast(items: seq<Item>)
    requires items != []
    ensures Resolve(items) != [] && Resolve(items)[..|Resolve(items)| - 1] == Resolve(items[..|items| - 1])
    ensures Resolve(items)[|Resolve(items)| - 1] == ResolveItem(items[|items| - 1], |Indexes(items[..|items| - 1])|)
  {
  }

  /** Naming the indexes changes nothing of what the items do. */
  lemma {:induction false} ResolveSame<D>(loads: string -> JsonText<D>, items: seq<Item>)
    ensures ApplyAll(loads, NewState(), Resolve(items)) == ApplyAll(loads, NewState(), items)
  {
    if items != [] {
      var init, last := items[..|items| - 1], items[|items| - 1];
      ResolveSame(loads, init);
      ResolveLast(items);
      var st := ApplyAll(loads, NewState(), init);
      IndexesAreKeys(loads, init);
      assert |st.blocks| == |st.blocks.Keys|;
      ApplyResolved(loads, st, last);
    }
  }

  function Assemble<D>(loads: string -> JsonText<D>, i: int, items: seq<Item>): Option<ContentBlock<D>> {
    if items == [] then None
    else BlockStep(loads, i, Assemble(loads, i, items[..|items| - 1]), items[|items| - 1])
  }

  lemma StepAssembles<D>(loads: string -> JsonText<D>, st: State<D>, item: Item, i: int)
    ensures Find(Apply(loads, st, item).blocks, i)
         == BlockStep(loads, i, Find(st.blocks, i), ResolveItem(item, |st.blocks|))
  {
  }

  /** The block at an index is what its own items make of it, whatever the items. */
  lemma {:induction false} BlocksAreAssembled<D>(loads: string -> JsonText<D>, items: seq<Item>, i: int)
    ensures Find(ApplyAll(loads, NewState(), items).blocks, i) == Assemble(loads, i, Resolve(items))
  {
    if items != [] {
      var init := items[..|items| - 1];
      BlocksAreAssembled(loads, init, i);
      ResolveLast(items);
      var st := ApplyAll(loads, NewState(), init);
      IndexesAreKeys(loads, init);
      assert |st.blocks| == |st.blocks.Keys|;
      StepAssembles(loads, st, items[|items| - 1], i);
    }
  }

  predicate Concerns(item: Item, i: int) {
    match item
    case Start(index, _) => index == Some(i)
    case MessageStop => true
    case MessageStart(_, _, _) => false
    case MessageDelta(_, _) => false
    case _ => item.blockIndex == i
  }

  /** The items that concern the block at index i, in order. */
  function Project(items: seq<Item>, i: int): seq<Item> {
    if items == [] then []
    else Project(items[..|items| - 1], i) + (if Concerns(items[|items| - 1], i) then [items[|items| - 1]] else [])
  }

  lemma {:induction false} AssembleFromProjection<D>(loads: string -> JsonText<D>, i: int, items: seq<Item>)
    ensures Assemble(loads, i, items) == Assemble(loads, i, Project(items, i))
  {
    if items != [] {
      var init, last := items[..|items| - 1], items[|items| - 1];
      AssembleFromProjection(loads, i, init);
      var p := Project(items, i);
      if Concerns(last, i) {
        assert p[..|p| - 1] == Project(init, i);
      } else {
        assert p == Project(init, i);
      }
    }
  }

  /** Interleaving across indexes does not matter: the block at i is that of the named items cut down to i. */
  lemma InterleavingDoesNotMatter<D>(loads: string -> JsonText<D>, items: seq<Item>, i: int)
    ensures Find(ApplyAll(loads, NewState(), items).blocks, i)
         == Find(ApplyAll(loads, NewState(), Project(Resolve(items), i)).blocks, i)
  {
    BlocksAreAssembled(loads, items, i);
    BlocksAreAssembled(loads, Project(Resolve(items), i), i);
    ResolvedIsNamed(items);
    ProjectIsNamed(Resolve(items), i);
    NamedResolves(Project(Resolve(items), i));
    AssembleFromProjection(loads, i, Resolve(items));
  }

  predicate NamesItsIndex(item: Item) {
    item.Start? ==> item.index.Some?
  }

  predicate AllNamed(items: seq<Item>) {
    forall item | item in items :: NamesItsIndex(item)
  }

  lemma {:induction false} ResolvedIsNamed(items: seq<Item>)
    ensures AllNamed(Resolve(items))
  {
    if items != [] {
      ResolvedIsNamed(items[..|items| - 1]);
    }
  }

  lemma {:induction false} ProjectIsNamed(items: seq<Item>, i: int)
    requires AllNamed(items)
    ensures AllNamed(Project(items, i))
  {
    if items != [] {
      ProjectIsNamed(items[..|items| - 1], i);
    }
  }

  lemma {:induction false} NamedResolves(items: seq<Item>)
    requires AllNamed(items)
    ensures Resolve(items) == items
  {
    if items != [] {
      NamedResolves(items[..|items| - 1]);
      assert items[|items| - 1] in items;
      assert items == items[..|items| - 1] + [items[|items| - 1]];
    }
  }

  /** Some start without an index opened the block at i. */
  predicate OpenedUnnamed(items: seq<Item>, i: int) {
    items != []
    && var init, last := items[..|items| - 1], items[|items| - 1];
       OpenedUnnamed(init, i) || (last.Start? && last.index.None? && |Indexes(init)| == i)
  }

  lemma SameAfterAppend<T>(p: seq<T>, q: seq<T>, x: T)
    ensures p + [x] == q + [x] <==> p == q
  {
    assert (p + [x])[..|p + [x]| - 1] == p && (q + [x])[..|q + [x]| - 1] == q;
  }

  /** Cutting a stream down as it was received loses nothing exactly when every start at i names it. */
  lemma {:induction false} ReceivedProjection(items: seq<Item>, i: int)
    ensures |Project(items, i)| <= |Project(Resolve(items), i)|
    ensures Project(items, i) == Project(Resolve(items), i) <==> !OpenedUnnamed(items, i)
  {
    if items != [] {
      var init, last := items[..|items| - 1], items[|items| - 1];
      ReceivedProjection(init, i);
      ResolveLast(items);
      SameAfterAppend(Project(init, i), Project(Resolve(init), i), last);
      var p, q, named := Project(init, i), Project(Resolve(init), i), ResolveItem(last, |Indexes(init)|);
      assert Project(Resolve(items), i) == q + (if Concerns(named, i) then [named] else []);
      if Concerns(last, i) {
        assert Project(items, i) == p + [last] && Project(Resolve(items), i) == q + [last];
      } else {
        assert Project(items, i) == p && (!Concerns(named, i) ==> Project(Resolve(items), i) == q);
      }
    }
  }

  /**
   * A start without an index does depend on the interleaving: here it takes index 1 because one block
   * exists, and in the stream cut down to index 1 as it was received it is lost.
   */
  lemma UnnamedStartsInterleave<D>(loads: string -> JsonText<D>)
    ensures var items := [TextDelta(1, "x"), Start(None, BlockStart("text", Some("y"), None, None, None))];
            && Find(ApplyAll(loads, NewState(), items).blocks, 1)
               == Some(ContentBlock(1, "text", Some("y"), None, None, None, None))
            && Find(ApplyAll(loads, NewState(), Project(items, 1)).blocks, 1)
               == Some(ContentBlock(1, "text", Some("x"), None, None, None, None))
            && OpenedUnnamed(items, 1)
  {
    var first, second := TextDelta(1, "x"), Start(None, BlockStart("text", Some("y"), None, None, None));
    OneText<D>(loads, "x");
    IndexesAreKeys<D>(loads, [first]);
    TwoItems(loads, first, second);
    assert Concerns(first, 1) && !Concerns(second, 1);
  }

  lemma OneText<D>(loads: string -> JsonText<D>, text: string)
    ensures ApplyAll(loads, NewState(), [TextDelta(1, text)]).blocks
         == map[1 := ContentBlock(1, "text", Some(text), None, None, None, None)]
  {
    OneItem(loads, TextDelta(1, text));
    assert "" + text == text;
  }

  lemma OneItem<D>(loads: string -> JsonText<D>, a: Item)
    ensures ApplyAll(loads, NewState(), [a]) == Apply(loads, NewState(), a)
  {
    FoldOne(ApplyStep(loads), NewState(), a);
  }

  lemma TwoItems<D>(loads: string -> JsonText<D>, a: Item, b: Item)
    ensures ApplyAll(loads, NewState(), [a, b]) == Apply(loads, ApplyAll(loads, NewState(), [a]), b)
    ensures Project([a, b], 1) == (if Concerns(a, 1) then [a] else []) + (if Concerns(b, 1) then [b] else [])
    ensures Indexes([a]) == IndexStep({}, a)
    ensures OpenedUnnamed([a, b], 1) <== b.Start? && b.index.None? && |Indexes([a])| == 1
  {
    assert [a, b][..1] == [a] && [a][..0] == [];
    assert Project([], 1) == [] && Project([a], 1) == Project([], 1) + (if Concerns(a, 1) then [a] else []);
  }

  function StartText(info: BlockStart): string {
    if info.kind == "thinking" then OrEmpty(info.thinking)
    else if info.kind == "tool_use" then ""
    else OrEmpty(info.text)
  }

  function TextStep(before: string, item: Item, i: int): string {
    match item
    case Start(index, info) => if index == Some(i) then StartText(info) else before
    case TextDelta(index, s) => if index == i then before + s else before
    case ThinkingDelta(index, s) => if index == i then before + s else before
    case _ => before
  }

  function JsonStep(before: string, item: Item, i: int): string {
    match item
    case Start(index, info) => if index == Some(i) then "" else before
    case JsonDelta(index, s) => if index == i then before + s else before
    case _ => before
  }

  /** The text given to index i since its last start, in order. */
  function TextSince(items: seq<Item>, i: int): string {
    if items == [] then "" else TextStep(TextSince(items[..|items| - 1], i), items[|items| - 1], i)
  }

  /** The partial JSON given to index i since its last start, in order. */
  function JsonSince(items: seq<Item>, i: int): string {
    if items == [] then "" else JsonStep(JsonSince(items[..|items| - 1], i), items[|items| - 1], i)
  }

  /** A block, or no block yet, that holds the given text and partial JSON. */
  ghost predicate Holds<D>(cur: Option<ContentBlock<D>>, i: int, text: string, json: string) {
    if cur.Some? then cur.value.index == i && OrEmpty(cur.value.text) == text && OrEmpty(cur.value.partialJson) == json
    else text == "" && json == ""
  }

  lemma StepHolds<D>(loads: string -> JsonText<D>, i: int, cur: Option<ContentBlock<D>>, item: Item, text: string, json: string)
    requires Holds(cur, i, text, json)
    ensures Holds(BlockStep(loads, i, cur, item), i, TextStep(text, item, i), JsonStep(json, item, i))
  {
    assert forall s: string :: "" + s == s;
  }

  lemma {:induction false} AssembledDeltas<D>(loads: string -> JsonText<D>, i: int, items: seq<Item>)
    ensures Holds(Assemble(loads, i, items), i, TextSince(items, i), JsonSince(items, i))
  {
    if items != [] {
      var init, last := items[..|items| - 1], items[|items| - 1];
      AssembledDeltas(loads, i, init);
      StepHolds(loads, i, Assemble(loads, i, init), last, TextSince(init, i), JsonSince(init, i));
    }
  }

  /** After any items, a block stands at its own index and holds the in-order concatenation of its deltas. */
  lemma BlocksHoldTheirDeltas<D>(loads: string -> JsonText<D>, items: seq<Item>, i: int)
    requires i in ApplyAll(loads, NewState(), items).blocks
    ensures var b := ApplyAll(loads, NewState(), items).blocks[i];
            && b.index == i
            && OrEmpty(b.text) == TextSince(Resolve(items), i)
            && OrEmpty(b.partialJson) == JsonSince(Resolve(items), i)
  {
    BlocksAreAssembled(loads, items, i);
    AssembledDeltas(loads, i, Resolve(items));
  }

  // ---------- from events to items ----------

  // What an event has done when its handling raises: nothing, the block that a delta creates, or a stop reason.
  datatype Partial = Nothing | NewBlock(index: int, deltaKind: string) | Reason(reason: string)

  // What becomes of an event: no JSON, a payload that is handled, or one whose shape makes its handling raise.
  datatype Decoded = NotJson | Handles(payload: Payload) | Raises(done: Partial)

  // Library calls: int, json.loads of an event with what its shape makes of it, json.loads of a tool input.
  datatype Library<!D> = Library(num: Sse.ReadInt, decode: (string, string) -> Decoded, loads: string -> JsonText<D>)

  function PartialItem(done: Partial): Option<Item> {
    match done
    case Nothing => None
    case NewBlock(i, kind) => Some(OtherDelta(i, kind))
    case Reason(r) => Some(MessageDelta(Some(r), None))
  }

  function DecodedItem(event: string, d: Decoded): Option<Item> {
    match d
    case NotJson => None
    case Handles(p) => ItemOf(event, p)
    case Raises(done) => PartialItem(done)
  }

  function EventItems<D>(lib: Library<D>, ev: Sse.SSEEvent): seq<Item> {
    if ev.data == "" || ev.event == "ping" then []
    else
      var item := DecodedItem(ev.event, lib.decode(ev.event, ev.data));
      if item.Some? then [item.value] else []
  }

  /** Handling the event raises. */
  function IsBad<D>(lib: Library<D>): Sse.SSEEvent -> bool {
    (ev: Sse.SSEEvent) => ev.data != "" && ev.event != "ping" && lib.decode(ev.event, ev.data).Raises?
  }

  function EventsItems<D>(lib: Library<D>, events: seq<Sse.SSEEvent>): seq<Item> {
    if events == [] then []
    else EventsItems(lib, events[..|events| - 1]) + EventItems(lib, events[|events| - 1])
  }

  function Step<D>(lib: Library<D>): (State<D>, Sse.SSEEvent) -> State<D> {
    (st, ev: Sse.SSEEvent) => ApplyAll(lib.loads, st, EventItems(lib, ev))
  }

  function Finish<D>(lib: Library<D>): State<D> -> State<D> {
    (st: State<D>) => Apply(lib.loads, st, MessageStop)
  }

  function HandlerOf<D>(lib: Library<D>): Handler<State<D>> {
    Handler(lib.num, IsBad(lib), Step(lib), Finish(lib))
  }

  const FRESH := Sse.State("", Sse.NO_FIELDS)

  lemma {:induction false} FoldIsApplyAll<D>(lib: Library<D>, st: State<D>, events: seq<Sse.SSEEvent>)
    ensures Fold(Step(lib), st, events) == ApplyAll(lib.loads, st, EventsItems(lib, events))
  {
    if events != [] {
      var init := events[..|events| - 1];
      FoldIsApplyAll(lib, st, init);
      FoldAppend(ApplyStep(lib.loads), st, EventsItems(lib, init), EventItems(lib, events[|events| - 1]));
    }
  }

  /** The items of a whole stream: those of all its events, those of the close, and the end. */
  function StreamItems<D>(lib: Library<D>, text: string): seq<Item> {
    var fed := SseReading.ReadOne(lib.num, IsBad(lib), FRESH, text);
    EventsItems(lib, fed.events) + EventsItems(lib, Sse.CloseStream(lib.num, fed.state).events) + [MessageStop]
  }

  /** The text can be read in any pieces, and ending it raises nothing. */
  ghost predicate ReadsSafely<D>(lib: Library<D>, text: string) {
    && SseReading.Harmless(lib.num, IsBad(lib), FRESH, text)
    && !EofRaises(HandlerOf(lib), SseReading.ReadOne(lib.num, IsBad(lib), FRESH, text).state)
  }

  /** However such a text is cut, the accumulator ends up with the items of the whole text applied. */
  lemma AccumulatesTheText<D>(lib: Library<D>, texts: seq<string>)
    requires ReadsSafely(lib, Flatten(texts))
    ensures FeedEof(HandlerOf(lib), FeedTexts(HandlerOf(lib), Acc(FRESH, NewState()), texts)).state
         == ApplyAll(lib.loads, NewState(), StreamItems(lib, Flatten(texts)))
  {
    hide SseReading.Harmless;
    var start: Acc<State<D>> := Acc(FRESH, NewState());
    assert Sse.Find("", '\r') == -1 && Sse.Find("", '\n') == -1;
    ChunkingDoesNotMatter(HandlerOf(lib), start, texts);
    var fed := SseReading.ReadOne(lib.num, IsBad(lib), FRESH, Flatten(texts));
    var closed := Sse.CloseStream(lib.num, fed.state).events;
    HandledGood(IsBad(lib), closed);
    FoldIsApplyAll(lib, NewState(), fed.events);
    FoldIsApplyAll(lib, ApplyAll(lib.loads, NewState(), EventsItems(lib, fed.events)), closed);
    FoldAppend(ApplyStep(lib.loads), NewState(), EventsItems(lib, fed.events), EventsItems(lib, closed));
    var items := EventsItems(lib, fed.events) + EventsItems(lib, closed);
    assert (items + [MessageStop])[..|items|] == items;
  }

  lemma FinishTwiceSame<D>(lib: Library<D>, st: State<D>)
    ensures Apply(lib.loads, Apply(lib.loads, st, MessageStop), MessageStop) == Apply(lib.loads, st, MessageStop)
  {
    var once := Apply(lib.loads, st, MessageStop);
    forall i | i in st.blocks ensures EndBlock(lib.loads, once.blocks[i]) == once.blocks[i] {
      FinishTwice(lib.loads, st.blocks[i]);
    }
    assert Apply(lib.loads, once, MessageStop).blocks == once.blocks;
  }

  /** A second end of stream changes nothing after a first one that did not raise. */
  lemma SecondEofChangesNothing<D>(lib: Library<D>, a: Acc<State<D>>)
    requires !EofRaises(HandlerOf(lib), a.parser)
    ensures FeedEof(HandlerOf(lib), FeedEof(HandlerOf(lib), a)) == FeedEof(HandlerOf(lib), a)
  {
    FinishTwiceSame(lib, Fold(Step(lib), a.state, Sse.CloseStream(lib.num, a.parser).events));
    SecondEofIsIdle(HandlerOf(lib), a);
  }

  /** What the events of the close make of the state. */
  function AfterClose<D>(lib: Library<D>, a: Acc<State<D>>): State<D> {
    Fold(Step(lib), a.state, SseReading.Handled(IsBad(lib), Sse.CloseStream(lib.num, a.parser).events))
  }

  /** In a stream that has not been finished, exactly then. */
  lemma SecondEofMattersIff<D>(lib: Library<D>, a: Acc<State<D>>)
    requires !AfterClose(lib, a).isDone
    ensures FeedEof(HandlerOf(lib), FeedEof(HandlerOf(lib), a)) == FeedEof(HandlerOf(lib), a)
       <==> !EofRaises(HandlerOf(lib), a.parser)
  {
    hide Sse.CloseStream, SseReading.Handled, EofRaises, FeedEof, Fold;
    FinishTwiceSame(lib, AfterClose(lib, a));
    SecondEofIff(HandlerOf(lib), a);
  }

  /** A delta event that raises, as one whose JSON is a list does, hides the next one of its call and of no other. */
  lemma RaisingEventHidesNext<D>(lib: Library<D>, data: string, more: string, p: Payload)
    requires SseReading.IsValue(data) && SseReading.IsValue(more)
    requires lib.decode("content_block_delta", data) == Raises(Nothing)
    requires lib.decode("content_block_delta", more) == Handles(p)
    ensures var name := "content_block_delta";
            var first, second := SseReading.OneMessage(name, data), SseReading.OneMessage(name, more);
            && FeedTexts(HandlerOf(lib), Acc(FRESH, NewState()), [first + second]).state.blocks == map[]
            && IndexOr(p.index, 0) in FeedTexts(HandlerOf(lib), Acc(FRESH, NewState()), [first, second]).state.blocks
  {
    hide SseReading.ReadOne, SseReading.OneMessage, FeedTexts, FeedText, Apply, SseReading.IsValue, DeltaItem;
    var name := "content_block_delta";
    NameIsValue();
    var first, second := SseReading.OneMessage(name, data), SseReading.OneMessage(name, more);
    var e1, e2 := SseReading.MessageEvent(name, data), SseReading.MessageEvent(name, more);
    SseReading.ValueIsNotEmpty(data);
    SseReading.ValueIsNotEmpty(more);
    SseReading.BadEventDropsNext(lib.num, IsBad(lib), name, data, more);
    FeedTextsFolds(HandlerOf(lib), Acc(FRESH, NewState()), [first + second]);
    FeedTextsFolds(HandlerOf(lib), Acc(FRESH, NewState()), [first, second]);
    SseReading.ReadSingle(lib.num, IsBad(lib), FRESH, first + second);
    FoldIsApplyAll(lib, NewState(), [e1]);
    FoldIsApplyAll(lib, NewState(), [e1, e2]);
    TwoEvents(lib, e1, e2);
    assert EventItems(lib, e1) == [] && EventItems(lib, e2) == [DeltaItem(p)];
    assert [] + [DeltaItem(p)] == [DeltaItem(p)];
    OneDelta(lib.loads, p);
  }

  lemma NameIsValue()
    ensures SseReading.IsValue("content_block_delta")
  {
  }

  lemma TwoEvents<D>(lib: Library<D>, a: Sse.SSEEvent, b: Sse.SSEEvent)
    ensures EventsItems(lib, [a]) == EventItems(lib, a)
    ensures EventsItems(lib, [a, b]) == EventItems(lib, a) + EventItems(lib, b)
  {
    assert [a, b][..1] == [a] && [a][..0] == [];
    assert EventsItems(lib, []) == [];
    assert [] + EventItems(lib, a) == EventItems(lib, a);
  }

  lemma OneDelta<D>(loads: string -> JsonText<D>, p: Payload)
    ensures ApplyAll(loads, NewState(), []).blocks == map[]
    ensures IndexOr(p.index, 0) in ApplyAll(loads, NewState(), [DeltaItem(p)]).blocks
  {
    OneItem(loads, DeltaItem(p));
    assert ApplyAll<D>(loads, NewState(), []) == NewState();
  }

  // ---------- the accumulator as an object ----------

  class AnthropicAccumulator<D> {
    const lib: Library<D>
    const parser: Sse.SSEParser
    var blocks: map<int, ContentBlock<D>>
    var stopReason: Option<string>
    var usage: UsageMetrics
    var isDone: bool

    constructor (lib: Library<D>)
      ensures this.lib == lib && fresh(parser)
      ensures Valid() && Value() == NewState() && parser.Value() == Sse.State("", Sse.NO_FIELDS)
    {
      this.lib := lib;
      parser := new Sse.SSEParser(lib.num);
      blocks, stopReason, usage, isDone := map[], None, NO_USAGE, false;
    }

    /** The parser reads a retry as the accumulator's library does. */
    ghost predicate Valid() {
      parser.num == lib.num
    }

    function Value(): State<D>
      reads this
    {
      State(blocks, stopReason, usage, isDone)
    }

    method HandleMessageStart(p: Payload)
      modifies this`usage
      ensures Value() == Apply(lib.loads, old(Value()), MessageStart(p.inputTokens, p.cacheCreation, p.cacheRead))
    {
      if p.inputTokens.Some? { usage := usage.(inputTokens := p.inputTokens.value); }
      if p.cacheCreation.Some? { usage := usage.(cacheCreationInputTokens := p.cacheCreation.value); }
      if p.cacheRead.Some? { usage := usage.(cacheReadInputTokens := p.cacheRead.value); }
    }

    method HandleContentBlockStart(p: Payload)
      modifies this`blocks
      ensures Value() == Apply(lib.loads, old(Value()), Start(p.index, p.start))
    {
      var index := if p.index.Some? then p.index.value else |blocks|;
      blocks := blocks[index := OpenBlock(index, p.start)];
    }

    method HandleContentBlockDelta(p: Payload)
      modifies this`blocks
      ensures Value() == Apply(lib.loads, old(Value()), DeltaItem(p))
    {
      var index, item := IndexOr(p.index, 0), DeltaItem(p);
      if index !in blocks {
        blocks := blocks[index := MissingBlock(item)];
      }
      var block := blocks[index];
      if p.deltaKind == "text_delta" {
        block := block.(text := Some(OrEmpty(block.text) + p.deltaText));
      } else if p.deltaKind == "thinking_delta" {
        block := block.(text := Some(OrEmpty(block.text) + p.deltaThinking));
      } else if p.deltaKind == "input_json_delta" {
        block := block.(partialJson := Some(OrEmpty(block.partialJson) + p.deltaJson));
      }
      blocks := blocks[index := block];
    }

    method HandleContentBlockStop(p: Payload)
      modifies this`blocks
      ensures Value() == Apply(lib.loads, old(Value()), Stop(IndexOr(p.index, 0)))
    {
      var index := IndexOr(p.index, 0);
      if index in blocks && blocks[index].blockType == "tool_use" && blocks[index].partialJson.Some? {
        blocks := blocks[index := ParseToolJson(lib.loads, blocks[index])];
      }
    }

    method HandleMessageDelta(p: Payload)
      modifies this`stopReason, this`usage
      ensures Value() == Apply(lib.loads, old(Value()), MessageDelta(p.stopReason, p.outputTokens))
    {
      if p.stopReason.Some? { stopReason := p.stopReason; }
      if p.outputTokens.Some? { usage := usage.(outputTokens := p.outputTokens.value); }
    }

    method Finalize()
      modifies this`blocks
      ensures blocks == EndBlocks(lib.loads, old(blocks))
    {
      var todo := blocks.Keys;
      while todo != {}
        invariant blocks.Keys == old(blocks.Keys) && todo <= blocks.Keys
        invariant forall i :: i in blocks ==>
                    blocks[i] == if i in todo then old(blocks)[i] else EndBlock(lib.loads, old(blocks)[i])
        decreases |todo|
      {
        var i := Pick(todo);
        todo := todo - {i};
        if blocks[i].blockType == "tool_use" && blocks[i].parsedInput.None? && blocks[i].partialJson.Some? {
          blocks := blocks[i := ParseToolJson(lib.loads, blocks[i])];
        }
      }
      assert forall i :: i in blocks ==> blocks[i] == EndBlocks(lib.loads, old(blocks))[i];
    }

    /** What an event does before its handling raises. */
    method HandlePartial(done: Partial)
      modifies this`blocks, this`stopReason
      ensures Value() == match PartialItem(done) case None => old(Value()) case Some(item) => Apply(lib.loads, old(Value()), item)
    {
      match done {
        case Nothing =>
        case NewBlock(i, kind) =>
          if i !in blocks {
            blocks := blocks[i := MissingBlock(OtherDelta(i, kind))];
          }
        case Reason(r) =>
          stopReason := Some(r);
      }
    }

    method HandleEvent(event: string, p: Payload)
      modifies this
      ensures Value() == match ItemOf(event, p) case None => old(Value()) case Some(item) => Apply(lib.loads, old(Value()), item)
    {
      if event == "message_start" {
        HandleMessageStart(p);
      } else if event == "content_block_start" {
        HandleContentBlockStart(p);
      } else if event == "content_block_delta" {
        HandleContentBlockDelta(p);
      } else if event == "content_block_stop" {
        HandleContentBlockStop(p);
      } else if event == "message_delta" {
        HandleMessageDelta(p);
      } else if event == "message_stop" {
        Finalize();
        isDone := true;
      }
    }

    method ProcessEvent(ev: Sse.SSEEvent) returns (raised: bool)
      modifies this
      ensures Value() == ApplyAll(lib.loads, old(Value()), EventItems(lib, ev))
      ensures raised <==> IsBad(lib)(ev)
    {
      raised := false;
      if ev.data == "" || ev.event == "ping" {
        return;
      }
      var decoded := lib.decode(ev.event, ev.data);
      ghost var item := DecodedItem(ev.event, decoded);
      if item.Some? {
        FoldOne(ApplyStep(lib.loads), Value(), item.value);
      }
      match decoded {
        case NotJson =>
        case Handles(p) =>
          HandleEvent(ev.event, p);
        case Raises(done) =>
          HandlePartial(done);
          raised := true;
      }
    }

    /** _process_events, which ends with the first event that raises. */
    method ProcessEvents(events: seq<Sse.SSEEvent>) returns (raised: bool)
      modifies this
      ensures Value() == Fold(Step(lib), old(Value()), SseReading.Handled(IsBad(lib), events))
      ensures raised <==> AnyBad(IsBad(lib), events)
    {
      hide Apply, EventItems;
      ghost var start := Value();
      for i := 0 to |events|
        invariant forall j :: 0 <= j < i ==> !IsBad(lib)(events[j])
        invariant Value() == Fold(Step(lib), start, events[..i])
      {
        assert events[..i + 1][..i] == events[..i];
        raised := ProcessEvent(events[i]);
        if raised {
          SseReading.HandledTo(IsBad(lib), events, i);
          return;
        }
      }
      assert events[..|events|] == events;
      HandledGood(IsBad(lib), events);
      raised := false;
    }

    /** feed_chunk on decoded text; the empty chunk ends the stream. */
    method FeedChunk(chunk: string) returns (raised: bool)
      requires Valid()
      modifies this, parser
      ensures Acc(parser.Value(), Value())
           == if chunk == "" then FeedEof(HandlerOf(lib), old(Acc(parser.Value(), Value())))
              else FeedText(HandlerOf(lib), old(Acc(parser.Value(), Value())), chunk)
      ensures chunk == "" ==> (raised <==> EofRaises(HandlerOf(lib), old(parser.Value())))
    {
      hide Sse.Ingest, Sse.CloseStream;
      if chunk == "" {
        var events;
        events, raised := parser.Close();
        if raised {
          return;
        }
        raised := ProcessEvents(events);
        if raised {
          return;
        }
        Finalize();
        isDone := true;
      } else {
        var events;
        events, raised := parser.Feed(chunk);
        if raised {
          return;
        }
        raised := ProcessEvents(events);
      }
    }
  }
}

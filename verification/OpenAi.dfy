/** The OpenAI stream accumulator (src/interceptor/stream/accumulators/openai.py). */
module OpenAi {
  import opened Collections
  import opened ContentBlocks
  import opened StreamFold
  import Sse
  import SseReading

  // ---------- what a chunk carries ----------

  datatype UsageDelta = UsageDelta(prompt: Option<int>, completion: Option<int>, cached: Option<int>, reasoning: Option<int>)
  datatype ToolDelta = ToolDelta(index: int, id: Option<string>, name: Option<string>, arguments: string)
  datatype Choice = Choice(finishReason: Option<string>, reasoning: Option<string>, content: Option<string>, toolCalls: seq<ToolDelta>)
  datatype Chunk = Chunk(usage: Option<UsageDelta>, choices: seq<Choice>)

  // One effect of the stream, in the order the accumulator meets them.
  datatype Item =
    | Usage(usage: UsageDelta)
    | FinishReason(reason: string)
    | Reasoning(reasoning: string)
    | Content(content: string)
    | Tool(call: ToolDelta)
    | Done

  function ToolItems(calls: seq<ToolDelta>): seq<Item> {
    seq(|calls|, i requires 0 <= i < |calls| => Tool(calls[i]))
  }

  function FinishItems(c: Choice): seq<Item> {
    if c.finishReason.Some? then [FinishReason(c.finishReason.value)] else []
  }

  function ReasoningItems(c: Choice): seq<Item> {
    if c.reasoning.Some? then [Reasoning(c.reasoning.value)] else []
  }

  function ContentItems(c: Choice): seq<Item> {
    if c.content.Some? then [Content(c.content.value)] else []
  }

  function ChoiceItems(c: Choice): seq<Item> {
    FinishItems(c) + ReasoningItems(c) + ContentItems(c) + ToolItems(c.toolCalls)
  }

  function ChoicesItems(cs: seq<Choice>): seq<Item> {
    if cs == [] then [] else ChoicesItems(cs[..|cs| - 1]) + ChoiceItems(cs[|cs| - 1])
  }

  function ChunkItems(c: Chunk): seq<Item> {
    (if c.usage.Some? then [Usage(c.usage.value)] else []) + ChoicesItems(c.choices)
  }

  // ---------- the accumulator on values ----------

  // thinking, text and tools refer to blocks by their position in the ordered list.
  datatype Fields<D> = Fields(
    blocks: seq<ContentBlock<D>>,
    thinking: Option<nat>,
    text: Option<nat>,
    tools: map<int, nat>,
    stopReason: Option<string>,
    usage: UsageMetrics,
    isDone: bool)

  predicate WellFormed<D>(st: Fields<D>) {
    && (st.thinking.Some? ==> st.thinking.value < |st.blocks|)
    && (st.text.Some? ==> st.text.value < |st.blocks|)
    && (forall i | i in st.tools :: st.tools[i] < |st.blocks|)
  }

  type State<D> = st: Fields<D> | WellFormed(st) witness Fields([], None, None, map[], None, NO_USAGE, false)

  function Start<D>(): State<D> {
    Fields([], None, None, map[], None, NO_USAGE, false)
  }

  function AddUsage(u: UsageMetrics, d: UsageDelta): UsageMetrics {
    u.(inputTokens := if d.prompt.Some? then d.prompt.value else u.inputTokens,
       outputTokens := if d.completion.Some? then d.completion.value else u.outputTokens,
       cacheReadInputTokens := if d.cached.Some? then d.cached.value else u.cacheReadInputTokens,
       reasoningTokens := if d.reasoning.Some? then d.reasoning.value else u.reasoningTokens)
  }

  function TextBlock<D>(index: nat, blockType: string, text: string): ContentBlock<D> {
    ContentBlock(index, blockType, Some(text), None, None, None, None)
  }

  function ToolBlock<D>(index: nat, call: ToolDelta): ContentBlock<D> {
    ContentBlock(index, "tool_use", None, call.id, call.name, Some(call.arguments), None)
  }

  function ExtendText<D>(b: ContentBlock<D>, s: string): ContentBlock<D> {
    b.(text := Some(OrEmpty(b.text) + s))
  }

  function ExtendTool<D>(b: ContentBlock<D>, call: ToolDelta): ContentBlock<D> {
    b.(toolId := if OrEmpty(call.id) != "" then call.id else b.toolId,
       toolName := if OrEmpty(call.name) != "" then Some(OrEmpty(b.toolName) + call.name.value) else b.toolName,
       partialJson := if call.arguments != "" then Some(OrEmpty(b.partialJson) + call.arguments) else b.partialJson)
  }

  function ToolPositions(tools: map<int, nat>): set<nat> {
    set i | i in tools :: tools[i]
  }

  function FinishTools<D>(loads: string -> JsonText<D>, blocks: seq<ContentBlock<D>>, at: set<nat>): (r: seq<ContentBlock<D>>)
    ensures |r| == |blocks|
    ensures forall i: nat :: i < |r| ==> r[i] == if i in at then FinishBlock(loads, blocks[i]) else blocks[i]
  {
    seq(|blocks|, i requires 0 <= i < |blocks| => if i in at then FinishBlock(loads, blocks[i]) else blocks[i])
  }

  function Apply<D>(loads: string -> JsonText<D>, st: State<D>, item: Item): State<D> {
    match item
    case Usage(u) => st.(usage := AddUsage(st.usage, u))
    case FinishReason(reason) => st.(stopReason := Some(reason))
    case Reasoning(s) =>
      if st.thinking.None? then st.(blocks := st.blocks + [TextBlock(|st.blocks|, "thinking", s)], thinking := Some(|st.blocks|))
      else st.(blocks := st.blocks[st.thinking.value := ExtendText(st.blocks[st.thinking.value], s)])
    case Content(s) =>
      if st.text.None? then st.(blocks := st.blocks + [TextBlock(|st.blocks|, "text", s)], text := Some(|st.blocks|))
      else st.(blocks := st.blocks[st.text.value := ExtendText(st.blocks[st.text.value], s)])
    case Tool(call) =>
      if call.index !in st.tools then
        st.(blocks := st.blocks + [ToolBlock(|st.blocks|, call)], tools := st.tools[call.index := |st.blocks|])
      else
        var p := st.tools[call.index];
        st.(blocks := st.blocks[p := ExtendTool(st.blocks[p], call)])
    case Done => st.(blocks := FinishTools(loads, st.blocks, ToolPositions(st.tools)), isDone := true)
  }

  function ApplyStep<D>(loads: string -> JsonText<D>): (State<D>, Item) -> State<D> {
    (st, item) => Apply(loads, st, item)
  }

  function ApplyAll<D>(loads: string -> JsonText<D>, st: State<D>, items: seq<Item>): State<D> {
    Fold(ApplyStep(loads), st, items)
  }

  // ---------- what a block is, slot by slot ----------

  datatype Slot = ThinkingSlot | TextSlot | ToolSlot(index: int)

  function SlotOf(item: Item): Option<Slot> {
    match item
    case Reasoning(_) => Some(ThinkingSlot)
    case Content(_) => Some(TextSlot)
    case Tool(call) => Some(ToolSlot(call.index))
    case _ => None
  }

  /** The slots in the order in which the stream first mentions them. */
  function FirstSlots(items: seq<Item>): seq<Slot> {
    if items == [] then []
    else
      var init, slot := FirstSlots(items[..|items| - 1]), SlotOf(items[|items| - 1]);
      if slot.None? || slot.value in init then init else init + [slot.value]
  }

  function AssembleStep<D>(loads: string -> JsonText<D>, slot: Slot, position: nat, cur: Option<ContentBlock<D>>, item: Item)
    : Option<ContentBlock<D>>
  {
    match item
    case Reasoning(s) =>
      if slot != ThinkingSlot then cur
      else Some(if cur.None? then TextBlock(position, "thinking", s) else ExtendText(cur.value, s))
    case Content(s) =>
      if slot != TextSlot then cur
      else Some(if cur.None? then TextBlock(position, "text", s) else ExtendText(cur.value, s))
    case Tool(call) =>
      if slot != ToolSlot(call.index) then cur
      else Some(if cur.None? then ToolBlock(position, call) else ExtendTool(cur.value, call))
    case Done => if slot.ToolSlot? && cur.Some? then Some(FinishBlock(loads, cur.value)) else cur
    case _ => cur
  }

  /** The block of one slot, from the items of that slot alone. */
  function Assemble<D>(loads: string -> JsonText<D>, slot: Slot, position: nat, items: seq<Item>): Option<ContentBlock<D>> {
    if items == [] then None
    else AssembleStep(loads, slot, position, Assemble(loads, slot, position, items[..|items| - 1]), items[|items| - 1])
  }

  function PositionOf<D>(st: State<D>, slot: Slot): Option<nat> {
    match slot
    case ThinkingSlot => st.thinking
    case TextSlot => st.text
    case ToolSlot(i) => if i in st.tools then Some(st.tools[i]) else None
  }

  ghost predicate Finds<D>(st: State<D>, slots: seq<Slot>, slot: Slot) {
    match PositionOf(st, slot)
    case None => slot !in slots
    case Some(p) => p < |slots| && slots[p] == slot
  }

  /** The ordered list holds one block per slot, at the slot's position, and the references find it. */
  ghost predicate Represents<D>(loads: string -> JsonText<D>, st: State<D>, items: seq<Item>) {
    var slots := FirstSlots(items);
    && Distinct(slots)
    && |st.blocks| == |slots|
    && AllFind(st, slots)
    && (forall k: nat :: k < |slots| ==> Some(st.blocks[k]) == Assemble(loads, slots[k], k, items))
  }

  lemma {:induction false} UnmentionedIsEmpty<D>(loads: string -> JsonText<D>, slot: Slot, position: nat, items: seq<Item>)
    requires slot !in FirstSlots(items)
    ensures Assemble(loads, slot, position, items).None?
  {
    if items != [] {
      UnmentionedIsEmpty(loads, slot, position, items[..|items| - 1]);
    }
  }

  ghost predicate AllFind<D>(st: State<D>, slots: seq<Slot>) {
    forall slot :: Finds(st, slots, slot)
  }

  /** An item of a new slot adds a reference to the end of the list. */
  lemma NewSlotFinds<D>(loads: string -> JsonText<D>, st: State<D>, slots: seq<Slot>, item: Item)
    requires AllFind(st, slots) && |st.blocks| == |slots|
    requires SlotOf(item).Some? && SlotOf(item).value !in slots
    ensures AllFind(Apply(loads, st, item), slots + [SlotOf(item).value])
    ensures AssembleStep(loads, SlotOf(item).value, |slots|, None, item).Some?
    ensures Apply(loads, st, item).blocks
         == st.blocks + [AssembleStep(loads, SlotOf(item).value, |slots|, None, item).value]
  {
    var slot, st' := SlotOf(item).value, Apply(loads, st, item);
    assert Finds(st, slots, slot);
    forall s ensures Finds(st', slots + [slot], s) { assert Finds(st, slots, s); }
  }

  lemma AssembleSnoc<D>(loads: string -> JsonText<D>, slot: Slot, position: nat, items: seq<Item>, item: Item)
    ensures Assemble(loads, slot, position, items + [item])
         == AssembleStep(loads, slot, position, Assemble(loads, slot, position, items), item)
  {
    assert (items + [item])[..|items|] == items;
  }

  lemma OtherSlot<D>(loads: string -> JsonText<D>, slot: Slot, position: nat, cur: Option<ContentBlock<D>>, item: Item)
    requires SlotOf(item) != Some(slot) && !item.Done?
    ensures AssembleStep(loads, slot, position, cur, item) == cur
  {
  }

  lemma NewSlotRepresents<D>(loads: string -> JsonText<D>, st: State<D>, items: seq<Item>, item: Item)
    requires Represents(loads, st, items)
    requires SlotOf(item).Some? && SlotOf(item).value !in FirstSlots(items)
    ensures Represents(loads, Apply(loads, st, item), items + [item])
  {
    hide Apply, AssembleStep, Assemble, AllFind;
    var slots, slot, st' := FirstSlots(items), SlotOf(item).value, Apply(loads, st, item);
    assert (items + [item])[..|items|] == items;
    var slots' := slots + [slot];
    assert FirstSlots(items + [item]) == slots';
    DistinctSnoc(slots, slot);
    NewSlotFinds(loads, st, slots, item);
    UnmentionedIsEmpty(loads, slot, |slots|, items);
    forall k: nat | k < |slots'| ensures Some(st'.blocks[k]) == Assemble(loads, slots'[k], k, items + [item]) {
      AssembleSnoc(loads, slots'[k], k, items, item);
      if k < |slots| {
        assert slots[k] in slots;
        OtherSlot(loads, slots[k], k, Assemble(loads, slots[k], k, items), item);
      }
    }
  }

  /** An item of a known slot changes the block at the slot's position and no reference. */
  lemma OldSlotFinds<D>(loads: string -> JsonText<D>, st: State<D>, slots: seq<Slot>, item: Item, p: nat)
    requires AllFind(st, slots) && |st.blocks| == |slots|
    requires SlotOf(item).Some? && p < |slots| && slots[p] == SlotOf(item).value && Distinct(slots)
    ensures AllFind(Apply(loads, st, item), slots)
    ensures Apply(loads, st, item).blocks
         == st.blocks[p := AssembleStep(loads, SlotOf(item).value, p, Some(st.blocks[p]), item).value]
  {
    var st' := Apply(loads, st, item);
    assert slots[p] in slots && Finds(st, slots, slots[p]);
    forall s ensures Finds(st', slots, s) { assert Finds(st, slots, s); }
  }

  lemma OldSlotRepresents<D>(loads: string -> JsonText<D>, st: State<D>, items: seq<Item>, item: Item)
    requires Represents(loads, st, items)
    requires SlotOf(item).Some? && SlotOf(item).value in FirstSlots(items)
    ensures Represents(loads, Apply(loads, st, item), items + [item])
  {
    var slots, st' := FirstSlots(items), Apply(loads, st, item);
    var p :| 0 <= p < |slots| && slots[p] == SlotOf(item).value;
    assert (items + [item])[..|items|] == items;
    assert FirstSlots(items + [item]) == slots;
    OldSlotFinds(loads, st, slots, item, p);
    forall k: nat | k < |slots| ensures Some(st'.blocks[k]) == Assemble(loads, slots[k], k, items + [item]) {
      AssembleSnoc(loads, slots[k], k, items, item);
      assert k != p ==> slots[k] != slots[p];
    }
  }

  lemma OtherRepresents<D>(loads: string -> JsonText<D>, st: State<D>, items: seq<Item>, item: Item)
    requires Represents(loads, st, items) && SlotOf(item).None? && !item.Done?
    ensures Represents(loads, Apply(loads, st, item), items + [item])
  {
    hide AssembleStep, Assemble;
    var slots, st' := FirstSlots(items), Apply(loads, st, item);
    assert (items + [item])[..|items|] == items;
    assert st' == st.(usage := st'.usage, stopReason := st'.stopReason);
    forall s ensures Finds(st', slots, s) { assert Finds(st, slots, s); }
    forall k: nat | k < |slots| ensures Some(st'.blocks[k]) == Assemble(loads, slots[k], k, items + [item]) {
      AssembleSnoc(loads, slots[k], k, items, item);
      OtherSlot(loads, slots[k], k, Assemble(loads, slots[k], k, items), item);
    }
  }

  lemma DoneRepresents<D>(loads: string -> JsonText<D>, st: State<D>, items: seq<Item>)
    requires Represents(loads, st, items)
    ensures Represents(loads, Apply(loads, st, Done), items + [Done])
  {
    var slots, st' := FirstSlots(items), Apply(loads, st, Done);
    assert (items + [Done])[..|items|] == items;
    forall s ensures Finds(st', slots, s) {
      assert Finds(st, slots, s);
    }
    forall k: nat | k < |slots| ensures k in ToolPositions(st.tools) <==> slots[k].ToolSlot? {
      assert Finds(st, slots, slots[k]);
      if k in ToolPositions(st.tools) {
        var i :| i in st.tools && st.tools[i] == k;
        assert Finds(st, slots, ToolSlot(i));
      }
    }
  }

  /** The accumulated blocks are the slots in order of first mention, each assembled from its own items. */
  lemma {:induction false} BlocksAreSlots<D>(loads: string -> JsonText<D>, items: seq<Item>)
    ensures Represents(loads, ApplyAll(loads, Start(), items), items)
  {
    if items == [] {
      forall s: Slot ensures Finds<D>(Start(), [], s) {}
    } else {
      hide Represents, Apply, FirstSlots, ApplyAll;
      var init, item := items[..|items| - 1], items[|items| - 1];
      BlocksAreSlots(loads, init);
      var st := ApplyAll(loads, Start(), init);
      assert items == init + [item];
      if item.Done? {
        DoneRepresents(loads, st, init);
      } else if SlotOf(item).None? {
        OtherRepresents(loads, st, init, item);
      } else if SlotOf(item).value in FirstSlots(init) {
        OldSlotRepresents(loads, st, init, item);
      } else {
        NewSlotRepresents(loads, st, init, item);
      }
    }
  }

  // ---------- consequences ----------

  /** The items that concern a slot, in order; the end of the stream concerns every slot. */
  function Project(items: seq<Item>, slot: Slot): seq<Item> {
    if items == [] then []
    else
      var last := items[|items| - 1];
      Project(items[..|items| - 1], slot) + (if SlotOf(last) == Some(slot) || last.Done? then [last] else [])
  }

  /** Interleaving across slots does not matter to a block. */
  lemma {:induction false} AssembleFromProjection<D>(loads: string -> JsonText<D>, slot: Slot, position: nat, items: seq<Item>)
    ensures Assemble(loads, slot, position, items) == Assemble(loads, slot, position, Project(items, slot))
  {
    if items != [] {
      var init, last := items[..|items| - 1], items[|items| - 1];
      AssembleFromProjection(loads, slot, position, init);
      var p := Project(items, slot);
      if SlotOf(last) == Some(slot) || last.Done? {
        assert p[..|p| - 1] == Project(init, slot) && p[|p| - 1] == last;
      } else {
        assert p == Project(init, slot);
      }
    }
  }

  function TextOf(item: Item, slot: Slot): string {
    match item
    case Reasoning(s) => if slot == ThinkingSlot then s else ""
    case Content(s) => if slot == TextSlot then s else ""
    case Tool(call) => if slot == ToolSlot(call.index) then call.arguments else ""
    case _ => ""
  }

  /** The text that the items add to a slot: the concatenation of its deltas in order. */
  function SlotText(items: seq<Item>, slot: Slot): string {
    if items == [] then "" else SlotText(items[..|items| - 1], slot) + TextOf(items[|items| - 1], slot)
  }

  /** A slot that was mentioned has a block at its position with this text; one that was not has neither. */
  ghost predicate Holds<D>(b: Option<ContentBlock<D>>, slot: Slot, position: nat, mentioned: bool, text: string) {
    if mentioned then
      b.Some? && b.value.index == position && (if slot.ToolSlot? then b.value.partialJson else b.value.text) == Some(text)
    else b.None? && text == ""
  }

  lemma StepHolds<D>(loads: string -> JsonText<D>, slot: Slot, position: nat, cur: Option<ContentBlock<D>>, item: Item,
                     mentioned: bool, text: string)
    requires Holds(cur, slot, position, mentioned, text)
    ensures Holds(AssembleStep(loads, slot, position, cur, item), slot, position, mentioned || SlotOf(item) == Some(slot),
                  text + TextOf(item, slot))
  {
    assert text + "" == text;
    assert text == "" ==> text + TextOf(item, slot) == TextOf(item, slot);
  }

  lemma {:induction false} AssembledText<D>(loads: string -> JsonText<D>, slot: Slot, position: nat, items: seq<Item>)
    ensures Holds(Assemble(loads, slot, position, items), slot, position, slot in FirstSlots(items), SlotText(items, slot))
  {
    hide AssembleStep, TextOf;
    if items != [] {
      hide Holds;
      var init, item := items[..|items| - 1], items[|items| - 1];
      AssembledText(loads, slot, position, init);
      StepHolds(loads, slot, position, Assemble(loads, slot, position, init), item, slot in FirstSlots(init), SlotText(init, slot));
    }
  }

  /**
   * After any items, every block stands at its own index and holds the in-order concatenation of
   * the deltas of its slot: text for thinking and text, partial JSON for tool calls.
   */
  lemma BlocksHoldTheirDeltas<D>(loads: string -> JsonText<D>, items: seq<Item>, k: nat)
    requires k < |ApplyAll(loads, Start(), items).blocks|
    ensures k < |FirstSlots(items)|
    ensures var b, slot := ApplyAll(loads, Start(), items).blocks[k], FirstSlots(items)[k];
            && b.index == k
            && (if slot.ToolSlot? then b.partialJson else b.text) == Some(SlotText(items, slot))
  {
    BlocksAreSlots(loads, items);
    AssembledText(loads, FirstSlots(items)[k], k, items);
  }

  /** Two streams that mention the slots in the same order and agree slot by slot give the same blocks. */
  lemma InterleavingDoesNotMatter<D>(loads: string -> JsonText<D>, a: seq<Item>, b: seq<Item>)
    requires FirstSlots(a) == FirstSlots(b)
    requires forall slot :: Project(a, slot) == Project(b, slot)
    ensures ApplyAll(loads, Start(), a).blocks == ApplyAll(loads, Start(), b).blocks
  {
    BlocksAreSlots(loads, a);
    BlocksAreSlots(loads, b);
    var x, y := ApplyAll(loads, Start(), a).blocks, ApplyAll(loads, Start(), b).blocks;
    forall k: nat | k < |x| ensures x[k] == y[k] {
      AssembleFromProjection(loads, FirstSlots(a)[k], k, a);
      AssembleFromProjection(loads, FirstSlots(b)[k], k, b);
    }
  }

  // ---------- from events to items ----------

  // What becomes of an event's text: no JSON, or a chunk and whether handling it raises after what the chunk holds.
  datatype Decoded = NotJson | Handles(chunk: Chunk, raises: bool)

  // Library calls: int, str.strip, json.loads of an event with what its shape makes of it, json.loads of a tool input.
  datatype Library<!D> = Library(
    num: Sse.ReadInt,
    strip: string -> string,
    decode: string -> Decoded,
    loads: string -> JsonText<D>)

  function EventItems<D>(lib: Library<D>, data: string): seq<Item> {
    var raw := lib.strip(data);
    if raw == "" then []
    else if raw == "[DONE]" then [Done]
    else match lib.decode(raw)
         case NotJson => []
         case Handles(c, _) => ChunkItems(c)
  }

  /** Handling the event raises. */
  function IsBad<D>(lib: Library<D>): Sse.SSEEvent -> bool {
    (ev: Sse.SSEEvent) =>
      var raw := lib.strip(ev.data);
      raw != "" && raw != "[DONE]" && lib.decode(raw).Handles? && lib.decode(raw).raises
  }

  function EventsItems<D>(lib: Library<D>, events: seq<Sse.SSEEvent>): seq<Item> {
    if events == [] then []
    else EventsItems(lib, events[..|events| - 1]) + EventItems(lib, events[|events| - 1].data)
  }

  function Step<D>(lib: Library<D>): (State<D>, Sse.SSEEvent) -> State<D> {
    (st, ev: Sse.SSEEvent) => ApplyAll(lib.loads, st, EventItems(lib, ev.data))
  }

  function Finish<D>(lib: Library<D>): State<D> -> State<D> {
    st => Apply(lib.loads, st, Done)
  }

  function HandlerOf<D>(lib: Library<D>): Handler<State<D>> {
    Handler(lib.num, IsBad(lib), Step(lib), Finish(lib))
  }

  const FRESH := Sse.State("", Sse.NO_FIELDS)

  lemma ApplySnoc<D>(loads: string -> JsonText<D>, st: State<D>, items: seq<Item>, item: Item) returns (r: seq<Item>)
    ensures r == items + [item]
    ensures ApplyAll(loads, st, r) == Apply(loads, ApplyAll(loads, st, items), item)
  {
    r := items + [item];
    assert r[..|items|] == items;
  }

  lemma ApplyOne<D>(loads: string -> JsonText<D>, st: State<D>, item: Item)
    ensures ApplyAll(loads, st, [item]) == Apply(loads, st, item)
  {
    FoldOne(ApplyStep(loads), st, item);
  }

  lemma {:induction false} FoldIsApplyAll<D>(lib: Library<D>, st: State<D>, events: seq<Sse.SSEEvent>)
    ensures Fold(Step(lib), st, events) == ApplyAll(lib.loads, st, EventsItems(lib, events))
  {
    if events != [] {
      var init := events[..|events| - 1];
      FoldIsApplyAll(lib, st, init);
      FoldAppend(ApplyStep(lib.loads), st, EventsItems(lib, init), EventItems(lib, events[|events| - 1].data));
    }
  }

  /** The items of a whole stream: those of all its events, those of the close, and the end. */
  function StreamItems<D>(lib: Library<D>, text: string): seq<Item> {
    var fed := SseReading.ReadOne(lib.num, IsBad(lib), FRESH, text);
    EventsItems(lib, fed.events) + EventsItems(lib, Sse.CloseStream(lib.num, fed.state).events) + [Done]
  }

  /** The text can be read in any pieces, and ending it raises nothing. */
  ghost predicate ReadsSafely<D>(lib: Library<D>, text: string) {
    && SseReading.Harmless(lib.num, IsBad(lib), FRESH, text)
    && !EofRaises(HandlerOf(lib), SseReading.ReadOne(lib.num, IsBad(lib), FRESH, text).state)
  }

  /** However such a text is cut, the accumulator ends up with the items of the whole text applied. */
  lemma AccumulatesTheText<D>(lib: Library<D>, texts: seq<string>)
    requires ReadsSafely(lib, Flatten(texts))
    ensures FeedEof(HandlerOf(lib), FeedTexts(HandlerOf(lib), Acc(FRESH, Start()), texts)).state
         == ApplyAll(lib.loads, Start(), StreamItems(lib, Flatten(texts)))
  {
    hide SseReading.Harmless;
    var start: Acc<State<D>> := Acc(FRESH, Start());
    assert Sse.Find("", '\r') == -1 && Sse.Find("", '\n') == -1;
    ChunkingDoesNotMatter(HandlerOf(lib), start, texts);
    var fed := SseReading.ReadOne(lib.num, IsBad(lib), FRESH, Flatten(texts));
    var closed := Sse.CloseStream(lib.num, fed.state).events;
    HandledGood(IsBad(lib), closed);
    FoldIsApplyAll(lib, Start(), fed.events);
    FoldIsApplyAll(lib, ApplyAll(lib.loads, Start(), EventsItems(lib, fed.events)), closed);
    FoldAppend(ApplyStep(lib.loads), Start(), EventsItems(lib, fed.events), EventsItems(lib, closed));
    var items := EventsItems(lib, fed.events) + EventsItems(lib, closed);
    assert (items + [Done])[..|items|] == items;
  }

  lemma FinishTwiceSame<D>(lib: Library<D>, st: State<D>)
    ensures Apply(lib.loads, Apply(lib.loads, st, Done), Done) == Apply(lib.loads, st, Done)
  {
    var once := Apply(lib.loads, st, Done);
    forall i: nat | i < |st.blocks| ensures Apply(lib.loads, once, Done).blocks[i] == once.blocks[i] {
      FinishTwice(lib.loads, st.blocks[i]);
    }
    assert Apply(lib.loads, once, Done).blocks == once.blocks;
  }

  /** A second end of stream changes nothing after a first one that did not raise. */
  lemma SecondEofChangesNothing<D>(lib: Library<D>, a: Acc<State<D>>)
    requires !EofRaises(HandlerOf(lib), a.parser)
    ensures FeedEof(HandlerOf(lib), FeedEof(HandlerOf(lib), a)) == FeedEof(HandlerOf(lib), a)
  {
    FinishTwiceSame(lib, Fold(Step(lib), a.state, Sse.CloseStream(lib.num, a.parser).events));
    SecondEofIsIdle(HandlerOf(lib), a);
  }

  /** What the events of the close make of the state. */
  function AfterClose<D>(lib: Library<D>, a: Acc<State<D>>): State<D> {
    Fold(Step(lib), a.state, SseReading.Handled(IsBad(lib), Sse.CloseStream(lib.num, a.parser).events))
  }

  /** In a stream that has not been finished, exactly then. */
  lemma SecondEofMattersIff<D>(lib: Library<D>, a: Acc<State<D>>)
    requires !AfterClose(lib, a).isDone
    ensures FeedEof(HandlerOf(lib), FeedEof(HandlerOf(lib), a)) == FeedEof(HandlerOf(lib), a)
       <==> !EofRaises(HandlerOf(lib), a.parser)
  {
    hide Sse.CloseStream, SseReading.Handled, EofRaises, FeedEof, Fold;
    FinishTwiceSame(lib, AfterClose(lib, a));
    SecondEofIff(HandlerOf(lib), a);
  }

  /** An event that raises, as one with null tool_calls does, hides the next one of its call and of no other. */
  lemma RaisingEventHidesNext<D>(lib: Library<D>, data: string, more: string, text: string)
    requires SseReading.IsValue(data) && SseReading.IsValue(more)
    requires lib.strip(data) == data && data != "[DONE]" && lib.decode(data) == Handles(Chunk(None, []), true)
    requires lib.strip(more) == more && more != "[DONE]"
    requires lib.decode(more) == Handles(Chunk(None, [Choice(None, None, Some(text), [])]), false)
    ensures var first, second := SseReading.OneMessage("", data), SseReading.OneMessage("", more);
            && FeedTexts(HandlerOf(lib), Acc(FRESH, Start()), [first + second]).state.blocks == []
            && FeedTexts(HandlerOf(lib), Acc(FRESH, Start()), [first, second]).state.blocks == [TextBlock(0, "text", text)]
  {
    hide SseReading.ReadOne, SseReading.OneMessage, FeedTexts, FeedText, Apply, ChunkItems, SseReading.IsValue;
    var first, second := SseReading.OneMessage("", data), SseReading.OneMessage("", more);
    var e1, e2 := SseReading.MessageEvent("", data), SseReading.MessageEvent("", more);
    SseReading.ValueIsNotEmpty(data);
    SseReading.ValueIsNotEmpty(more);
    SseReading.BadEventDropsNext(lib.num, IsBad(lib), "", data, more);
    FeedTextsFolds(HandlerOf(lib), Acc(FRESH, Start()), [first + second]);
    FeedTextsFolds(HandlerOf(lib), Acc(FRESH, Start()), [first, second]);
    SseReading.ReadSingle(lib.num, IsBad(lib), FRESH, first + second);
    FoldIsApplyAll(lib, Start(), [e1]);
    FoldIsApplyAll(lib, Start(), [e1, e2]);
    TwoEvents(lib, e1, e2);
    OneTextItem(text);
    assert [] + [Content(text)] == [Content(text)];
    OneTextBlock(lib.loads, text);
  }

  lemma OneTextBlock<D>(loads: string -> JsonText<D>, text: string)
    ensures ApplyAll(loads, Start(), []).blocks == []
    ensures ApplyAll(loads, Start(), [Content(text)]).blocks == [TextBlock(0, "text", text)]
  {
    ApplyOne(loads, Start(), Content(text));
    assert ApplyAll<D>(loads, Start(), []) == Start();
  }

  lemma TwoEvents<D>(lib: Library<D>, a: Sse.SSEEvent, b: Sse.SSEEvent)
    ensures EventsItems(lib, [a]) == EventItems(lib, a.data)
    ensures EventsItems(lib, [a, b]) == EventItems(lib, a.data) + EventItems(lib, b.data)
  {
    assert [a, b][..1] == [a] && [a][..0] == [];
    assert EventsItems(lib, []) == [];
    assert [] + EventItems(lib, a.data) == EventItems(lib, a.data);
  }

  lemma OneTextItem(text: string)
    ensures ChunkItems(Chunk(None, [])) == []
    ensures ChunkItems(Chunk(None, [Choice(None, None, Some(text), [])])) == [Content(text)]
  {
    var c := Choice(None, None, Some(text), []);
    assert [c][..0] == [];
    assert ChoicesItems([]) == [] && ChoicesItems([c]) == ChoicesItems([]) + ChoiceItems(c);
    assert ToolItems([]) == [];
  }

  // ---------- the accumulator as an object ----------

  class OpenAIAccumulator<D> {
    const lib: Library<D>
    const parser: Sse.SSEParser
    var orderedBlocks: seq<ContentBlock<D>>
    var thinkingBlock: Option<nat>
    var textBlock: Option<nat>
    var toolBlocks: map<int, nat>
    var stopReason: Option<string>
    var usage: UsageMetrics
    var isDone: bool

    constructor (lib: Library<D>)
      ensures this.lib == lib && fresh(parser)
      ensures Valid() && Value() == Start() && parser.Value() == Sse.State("", Sse.NO_FIELDS)
    {
      this.lib := lib;
      parser := new Sse.SSEParser(lib.num);
      orderedBlocks, thinkingBlock, textBlock, toolBlocks := [], None, None, map[];
      stopReason, usage, isDone := None, NO_USAGE, false;
    }

    function Raw(): Fields<D>
      reads this
    {
      Fields(orderedBlocks, thinkingBlock, textBlock, toolBlocks, stopReason, usage, isDone)
    }

    ghost predicate Valid()
      reads this
    {
      WellFormed(Raw()) && parser.num == lib.num
    }

    ghost function Value(): State<D>
      reads this
      requires Valid()
    {
      Raw()
    }

    method Finalize()
      requires Valid()
      modifies this`orderedBlocks
      ensures Valid()
      ensures orderedBlocks == FinishTools(lib.loads, old(orderedBlocks), ToolPositions(toolBlocks))
    {
      var todo := ToolPositions(toolBlocks);
      while todo != {}
        invariant |orderedBlocks| == |old(orderedBlocks)|
        invariant todo <= ToolPositions(toolBlocks)
        invariant orderedBlocks == FinishTools(lib.loads, old(orderedBlocks), ToolPositions(toolBlocks) - todo)
        decreases |todo|
      {
        var p := Pick(todo);
        todo := todo - {p};
        orderedBlocks := orderedBlocks[p := FinishBlock(lib.loads, orderedBlocks[p])];
      }
      assert ToolPositions(toolBlocks) - todo == ToolPositions(toolBlocks);
    }

    method HandleUsage(u: UsageDelta)
      requires Valid()
      modifies this`usage
      ensures Valid() && Value() == Apply(lib.loads, old(Value()), Usage(u))
    {
      if u.prompt.Some? { usage := usage.(inputTokens := u.prompt.value); }
      if u.completion.Some? { usage := usage.(outputTokens := u.completion.value); }
      if u.cached.Some? { usage := usage.(cacheReadInputTokens := u.cached.value); }
      if u.reasoning.Some? { usage := usage.(reasoningTokens := u.reasoning.value); }
    }

    method HandleFinishReason(choice: Choice)
      requires Valid()
      modifies this`stopReason
      ensures Valid() && Value() == ApplyAll(lib.loads, old(Value()), FinishItems(choice))
    {
      if choice.finishReason.Some? {
        ApplyOne(lib.loads, Value(), FinishReason(choice.finishReason.value));
        stopReason := choice.finishReason;
      }
    }

    method HandleReasoning(choice: Choice)
      requires Valid()
      modifies this`orderedBlocks, this`thinkingBlock
      ensures Valid() && Value() == ApplyAll(lib.loads, old(Value()), ReasoningItems(choice))
    {
      if choice.reasoning.Some? {
        ApplyOne(lib.loads, Value(), Reasoning(choice.reasoning.value));
        if thinkingBlock.None? {
          thinkingBlock := Some(|orderedBlocks|);
          orderedBlocks := orderedBlocks + [TextBlock(|orderedBlocks|, "thinking", "")];
        }
        var p := thinkingBlock.value;
        assert "" + choice.reasoning.value == choice.reasoning.value;
        orderedBlocks := orderedBlocks[p := ExtendText(orderedBlocks[p], choice.reasoning.value)];
        assert old(thinkingBlock).None? ==>
            orderedBlocks == old(orderedBlocks) + [TextBlock(p, "thinking", choice.reasoning.value)];
      }
    }

    method HandleContent(choice: Choice)
      requires Valid()
      modifies this`orderedBlocks, this`textBlock
      ensures Valid() && Value() == ApplyAll(lib.loads, old(Value()), ContentItems(choice))
    {
      if choice.content.Some? {
        ApplyOne(lib.loads, Value(), Content(choice.content.value));
        if textBlock.None? {
          textBlock := Some(|orderedBlocks|);
          orderedBlocks := orderedBlocks + [TextBlock(|orderedBlocks|, "text", "")];
        }
        var p := textBlock.value;
        assert "" + choice.content.value == choice.content.value;
        orderedBlocks := orderedBlocks[p := ExtendText(orderedBlocks[p], choice.content.value)];
        assert old(textBlock).None? ==>
            orderedBlocks == old(orderedBlocks) + [TextBlock(p, "text", choice.content.value)];
      }
    }

    method HandleToolCall(call: ToolDelta)
      requires Valid()
      modifies this`orderedBlocks, this`toolBlocks
      ensures Valid() && Value() == Apply(lib.loads, old(Value()), Tool(call))
    {
      if call.index !in toolBlocks {
        toolBlocks := toolBlocks[call.index := |orderedBlocks|];
        orderedBlocks := orderedBlocks + [ToolBlock(|orderedBlocks|, call)];
      } else {
        var p := toolBlocks[call.index];
        orderedBlocks := orderedBlocks[p := ExtendTool(orderedBlocks[p], call)];
      }
    }

    method HandleToolCalls(calls: seq<ToolDelta>)
      requires Valid()
      modifies this`orderedBlocks, this`toolBlocks
      ensures Valid() && Value() == ApplyAll(lib.loads, old(Value()), ToolItems(calls))
    {
      ghost var start, items: seq<Item> := Value(), [];
      for i := 0 to |calls|
        invariant Valid()
        invariant items == ToolItems(calls[..i])
        invariant Value() == ApplyAll(lib.loads, start, items)
      {
        HandleToolCall(calls[i]);
        items := ApplySnoc(lib.loads, start, items, Tool(calls[i]));
        assert items == ToolItems(calls[..i + 1]);
      }
      assert calls[..|calls|] == calls;
    }

    method HandleChoice(choice: Choice)
      requires Valid()
      modifies this
      ensures Valid() && Value() == ApplyAll(lib.loads, old(Value()), ChoiceItems(choice))
    {
      ghost var start, loads := Value(), lib.loads;
      HandleFinishReason(choice);
      HandleReasoning(choice);
      FoldAppend(ApplyStep(loads), start, FinishItems(choice), ReasoningItems(choice));
      HandleContent(choice);
      FoldAppend(ApplyStep(loads), start, FinishItems(choice) + ReasoningItems(choice), ContentItems(choice));
      HandleToolCalls(choice.toolCalls);
      FoldAppend(ApplyStep(loads), start, FinishItems(choice) + ReasoningItems(choice) + ContentItems(choice), ToolItems(choice.toolCalls));
    }

    method HandleChoices(choices: seq<Choice>)
      requires Valid()
      modifies this
      ensures Valid() && Value() == ApplyAll(lib.loads, old(Value()), ChoicesItems(choices))
    {
      ghost var start, met: seq<Item> := Value(), [];
      for i := 0 to |choices|
        invariant Valid()
        invariant met == ChoicesItems(choices[..i])
        invariant Value() == ApplyAll(lib.loads, start, met)
      {
        HandleChoice(choices[i]);
        FoldAppend(ApplyStep(lib.loads), start, met, ChoiceItems(choices[i]));
        met := met + ChoiceItems(choices[i]);
        assert choices[..i + 1][..i] == choices[..i];
      }
      assert choices[..|choices|] == choices;
    }

    method HandleChunk(chunk: Chunk)
      requires Valid()
      modifies this
      ensures Valid() && Value() == ApplyAll(lib.loads, old(Value()), ChunkItems(chunk))
    {
      ghost var start, head: seq<Item> := Value(), [];
      if chunk.usage.Some? {
        HandleUsage(chunk.usage.value);
        head := ApplySnoc(lib.loads, start, head, Usage(chunk.usage.value));
      }
      assert Value() == ApplyAll(lib.loads, start, head);
      HandleChoices(chunk.choices);
      FoldAppend(ApplyStep(lib.loads), start, head, ChoicesItems(chunk.choices));
    }

    method ProcessEvent(event: Sse.SSEEvent) returns (raised: bool)
      requires Valid()
      modifies this
      ensures Valid() && Value() == ApplyAll(lib.loads, old(Value()), EventItems(lib, event.data))
      ensures raised <==> IsBad(lib)(event)
    {
      raised := false;
      var raw := lib.strip(event.data);
      if raw == "" {
        return;
      }
      if raw == "[DONE]" {
        ghost var items := ApplySnoc(lib.loads, Value(), [], Done);
        Finalize();
        isDone := true;
        return;
      }
      var decoded := lib.decode(raw);
      if decoded.Handles? {
        HandleChunk(decoded.chunk);
        raised := decoded.raises;
      }
    }

    /** _process_events, which ends with the first event that raises. */
    method ProcessEvents(events: seq<Sse.SSEEvent>) returns (raised: bool)
      requires Valid()
      modifies this
      ensures Valid() && Value() == Fold(Step(lib), old(Value()), SseReading.Handled(IsBad(lib), events))
      ensures raised <==> AnyBad(IsBad(lib), events)
    {
      hide Apply, EventItems, WellFormed;
      ghost var start := Value();
      for i := 0 to |events|
        invariant Valid()
        invariant forall j :: 0 <= j < i ==> !IsBad(lib)(events[j])
        invariant Value() == Fold(Step(lib), start, events[..i])
      {
        assert events[..i + 1][..i] == events[..i];
        raised := ProcessEvent(events[i]);
        if raised {
          SseReading.HandledTo(IsBad(lib), events, i);
          return;
        }
      }
      assert events[..|events|] == events;
      HandledGood(IsBad(lib), events);
      raised := false;
    }

    /** feed_chunk on decoded text; the empty chunk ends the stream. */
    method FeedChunk(chunk: string) returns (raised: bool)
      requires Valid()
      modifies this, parser
      ensures Valid()
      ensures Acc(parser.Value(), Value())
           == if chunk == "" then FeedEof(HandlerOf(lib), old(Acc(parser.Value(), Value())))
              else FeedText(HandlerOf(lib), old(Acc(parser.Value(), Value())), chunk)
      ensures chunk == "" ==> (raised <==> EofRaises(HandlerOf(lib), old(parser.Value())))
    {
      hide Sse.Ingest, Sse.CloseStream;
      if chunk == "" {
        var events;
        events, raised := parser.Close();
        if raised {
          return;
        }
        raised := ProcessEvents(events);
        if raised {
          return;
        }
        Finalize();
        isDone := true;
      } else {
        var events;
        events, raised := parser.Feed(chunk);
        if raised {
          return;
        }
        raised := ProcessEvents(events);
      }
    }
  }
}

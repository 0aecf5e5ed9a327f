/**
 * What an OpenAI stream comes to, read off its chunks and their choices
 * (src/interceptor/stream/accumulators/openai.py).
 */
module OpenAiStream {
  import opened Collections
  import opened ContentBlocks
  import opened StreamFold
  import opened OpenAi
  import Sse
  import SseReading

  // An event that has an effect: a chunk, or the end marker.
  datatype Told = ChunkTold(chunk: Chunk) | EndTold

  function ReceivedOne<D>(lib: Library<D>, ev: Sse.SSEEvent): seq<Told> {
    var raw := lib.strip(ev.data);
    if raw == "" then []
    else if raw == "[DONE]" then [EndTold]
    else match lib.decode(raw)
         case NotJson => []
         case Handles(c, _) => [ChunkTold(c)]
  }

  function Received<D>(lib: Library<D>, events: seq<Sse.SSEEvent>): seq<Told> {
    if events == [] then [] else Received(lib, events[..|events| - 1]) + ReceivedOne(lib, events[|events| - 1])
  }

  function ItemsOf(t: Told): seq<Item> {
    match t
    case ChunkTold(c) => ChunkItems(c)
    case EndTold => [Done]
  }

  function AllItems(told: seq<Told>): seq<Item> {
    if told == [] then [] else AllItems(told[..|told| - 1]) + ItemsOf(told[|told| - 1])
  }

  lemma {:induction false} AllItemsAppend(a: seq<Told>, b: seq<Told>)
    ensures AllItems(a + b) == AllItems(a) + AllItems(b)
  {
    hide ItemsOf;
    if b == [] {
      assert a + b == a && AllItems(a) + [] == AllItems(a);
    } else {
      assert (a + b)[..|a + b| - 1] == a + b[..|b| - 1];
      AllItemsAppend(a, b[..|b| - 1]);
    }
  }

  lemma AllItemsOne(t: Told)
    ensures AllItems([t]) == ItemsOf(t) && AllItems([]) == []
  {
    assert [t][..0] == [];
    assert [] + ItemsOf(t) == ItemsOf(t);
  }

  lemma {:induction false} ReceivedItems<D>(lib: Library<D>, events: seq<Sse.SSEEvent>)
    ensures EventsItems(lib, events) == AllItems(Received(lib, events))
  {
    hide ItemsOf;
    if events != [] {
      var init, ev := events[..|events| - 1], events[|events| - 1];
      ReceivedItems(lib, init);
      AllItemsAppend(Received(lib, init), ReceivedOne(lib, ev));
      OneEvent(lib, ev);
    }
  }

  lemma OneEvent<D>(lib: Library<D>, ev: Sse.SSEEvent)
    ensures EventItems(lib, ev.data) == AllItems(ReceivedOne(lib, ev))
  {
    hide ChunkItems;
    if ReceivedOne(lib, ev) != [] {
      AllItemsOne(ReceivedOne(lib, ev)[0]);
      assert ReceivedOne(lib, ev) == [ReceivedOne(lib, ev)[0]];
    }
  }

  // ---------- what the chunks say ----------

  /** What all choices of all chunks give, in order. */
  function FromChoices<T>(told: seq<Told>, give: Choice -> seq<T>): seq<T> {
    if told == [] then []
    else
      FromChoices(told[..|told| - 1], give)
      + (match told[|told| - 1] case ChunkTold(c) => FromEach(c.choices, give) case EndTold => [])
  }

  function FromEach<T>(cs: seq<Choice>, give: Choice -> seq<T>): seq<T> {
    if cs == [] then [] else FromEach(cs[..|cs| - 1], give) + give(cs[|cs| - 1])
  }

  function OrNone<T>(x: Option<T>): seq<T> {
    if x.Some? then [x.value] else []
  }

  function ContentOf(c: Choice): seq<string> { OrNone(c.content) }
  function ReasoningOf(c: Choice): seq<string> { OrNone(c.reasoning) }
  function CallsOf(c: Choice): seq<ToolDelta> { c.toolCalls }
  function ReasonOf(c: Choice): seq<string> { OrNone(c.finishReason) }

  function CallSlots(calls: seq<ToolDelta>): (r: seq<Slot>)
    ensures |r| == |calls| && forall i :: 0 <= i < |r| ==> r[i] == ToolSlot(calls[i].index)
  {
    seq(|calls|, i requires 0 <= i < |calls| => ToolSlot(calls[i].index))
  }

  /** The slots a choice mentions: thinking, text, and each tool call. */
  function Mentions(c: Choice): seq<Slot> {
    (if c.reasoning.Some? then [ThinkingSlot] else [])
    + (if c.content.Some? then [TextSlot] else [])
    + CallSlots(c.toolCalls)
  }

  /** The first of each. */
  function Firsts<T(==)>(s: seq<T>): seq<T> {
    if s == [] then []
    else
      var before := Firsts(s[..|s| - 1]);
      if s[|s| - 1] in before then before else before + [s[|s| - 1]]
  }

  // ---------- items, gathered ----------

  function Gather<T>(items: seq<Item>, f: Item -> seq<T>): seq<T> {
    if items == [] then [] else Gather(items[..|items| - 1], f) + f(items[|items| - 1])
  }

  lemma {:induction false} GatherAppend<T>(a: seq<Item>, b: seq<Item>, f: Item -> seq<T>)
    ensures Gather(a + b, f) == Gather(a, f) + Gather(b, f)
  {
    if b == [] {
      assert a + b == a && Gather(a, f) + [] == Gather(a, f);
    } else {
      assert (a + b)[..|a + b| - 1] == a + b[..|b| - 1];
      GatherAppend(a, b[..|b| - 1], f);
    }
  }

  lemma GatherOne<T>(item: Item, f: Item -> seq<T>)
    ensures Gather([item], f) == f(item) && Gather([], f) == []
  {
    assert [item][..0] == [];
    assert [] + f(item) == f(item);
  }

  lemma GatherOption<T>(items: seq<Item>, f: Item -> seq<T>)
    requires |items| <= 1
    ensures Gather(items, f) == if items == [] then [] else f(items[0])
  {
    if items != [] {
      assert items == [items[0]];
      GatherOne(items[0], f);
    }
  }

  /** What a choice's items give. */
  lemma ChoiceGathers<T>(c: Choice, f: Item -> seq<T>)
    ensures Gather(ChoiceItems(c), f)
         == (if c.finishReason.Some? then f(FinishReason(c.finishReason.value)) else [])
            + (if c.reasoning.Some? then f(Reasoning(c.reasoning.value)) else [])
            + (if c.content.Some? then f(Content(c.content.value)) else [])
            + Gather(ToolItems(c.toolCalls), f)
  {
    GatherOption(FinishItems(c), f);
    GatherOption(ReasoningItems(c), f);
    GatherOption(ContentItems(c), f);
    GatherAppend(FinishItems(c), ReasoningItems(c), f);
    GatherAppend(FinishItems(c) + ReasoningItems(c), ContentItems(c), f);
    GatherAppend(FinishItems(c) + ReasoningItems(c) + ContentItems(c), ToolItems(c.toolCalls), f);
  }

  /** f finds in the items of any choice what give names. */
  ghost predicate FindsInChoices<T>(f: Item -> seq<T>, give: Choice -> seq<T>) {
    forall c :: Gather(ChoiceItems(c), f) == give(c)
  }

  /** And nothing in usage and the end marker. */
  ghost predicate Finds<T>(f: Item -> seq<T>, give: Choice -> seq<T>) {
    FindsInChoices(f, give) && (forall u :: f(Usage(u)) == []) && f(Done) == []
  }

  lemma {:induction false} ChoicesGather<T>(cs: seq<Choice>, f: Item -> seq<T>, give: Choice -> seq<T>)
    requires FindsInChoices(f, give)
    ensures Gather(ChoicesItems(cs), f) == FromEach(cs, give)
  {
    if cs != [] {
      ChoicesGather(cs[..|cs| - 1], f, give);
      GatherAppend(ChoicesItems(cs[..|cs| - 1]), ChoiceItems(cs[|cs| - 1]), f);
    }
  }

  lemma {:induction false} ToldGathers<T>(told: seq<Told>, f: Item -> seq<T>, give: Choice -> seq<T>)
    requires Finds(f, give)
    ensures Gather(AllItems(told), f) == FromChoices(told, give)
  {
    hide Finds;
    if told != [] {
      var init, t := told[..|told| - 1], told[|told| - 1];
      ToldGathers(init, f, give);
      GatherAppend(AllItems(init), ItemsOf(t), f);
      OneGathers(t, f, give);
    }
  }

  lemma OneGathers<T>(t: Told, f: Item -> seq<T>, give: Choice -> seq<T>)
    requires Finds(f, give)
    ensures Gather(ItemsOf(t), f) == match t case ChunkTold(c) => FromEach(c.choices, give) case EndTold => []
  {
    match t {
      case EndTold => GatherOne(Done, f);
      case ChunkTold(c) =>
        var head: seq<Item> := if c.usage.Some? then [Usage(c.usage.value)] else [];
        GatherAppend(head, ChoicesItems(c.choices), f);
        GatherOption(head, f);
        ChoicesGather(c.choices, f, give);
        assert [] + FromEach(c.choices, give) == FromEach(c.choices, give);
    }
  }

  function ContentIn(item: Item): seq<string> {
    if item.Content? then [item.content] else []
  }

  function ReasoningIn(item: Item): seq<string> {
    if item.Reasoning? then [item.reasoning] else []
  }

  function CallIn(item: Item): seq<ToolDelta> {
    if item.Tool? then [item.call] else []
  }

  function ReasonIn(item: Item): seq<string> {
    if item.FinishReason? then [item.reason] else []
  }

  function SlotIn(item: Item): seq<Slot> {
    OrNone(SlotOf(item))
  }

  lemma {:induction false} ToolItemsGather<T>(calls: seq<ToolDelta>, f: Item -> seq<T>)
    ensures (forall call :: f(Tool(call)) == []) ==> Gather(ToolItems(calls), f) == []
  {
    if calls != [] {
      ToolItemsGather(calls[..|calls| - 1], f);
      assert ToolItems(calls)[..|calls| - 1] == ToolItems(calls[..|calls| - 1]);
    }
  }

  lemma {:induction false} ToolItemsCalls(calls: seq<ToolDelta>)
    ensures Gather(ToolItems(calls), CallIn) == calls && Gather(ToolItems(calls), SlotIn) == CallSlots(calls)
  {
    if calls != [] {
      var init, call := calls[..|calls| - 1], calls[|calls| - 1];
      ToolItemsCalls(init);
      assert ToolItems(calls)[..|calls| - 1] == ToolItems(init);
      assert calls == init + [call] && CallSlots(calls) == CallSlots(init) + [ToolSlot(call.index)];
    }
  }

  lemma FindsContent()
    ensures Finds(ContentIn, ContentOf)
  {
    forall c: Choice ensures Gather(ChoiceItems(c), ContentIn) == ContentOf(c) {
      ChoiceGathers(c, ContentIn);
      ToolItemsGather(c.toolCalls, ContentIn);
    }
  }

  lemma FindsReasoning()
    ensures Finds(ReasoningIn, ReasoningOf)
  {
    forall c: Choice ensures Gather(ChoiceItems(c), ReasoningIn) == ReasoningOf(c) {
      ChoiceGathers(c, ReasoningIn);
      ToolItemsGather(c.toolCalls, ReasoningIn);
    }
  }

  lemma FindsReasons()
    ensures Finds(ReasonIn, ReasonOf)
  {
    forall c: Choice ensures Gather(ChoiceItems(c), ReasonIn) == ReasonOf(c) {
      ChoiceGathers(c, ReasonIn);
      ToolItemsGather(c.toolCalls, ReasonIn);
    }
  }

  lemma FindsCalls()
    ensures Finds(CallIn, CallsOf)
  {
    forall c: Choice ensures Gather(ChoiceItems(c), CallIn) == CallsOf(c) {
      ChoiceGathers(c, CallIn);
      ToolItemsCalls(c.toolCalls);
    }
  }

  lemma FindsSlots()
    ensures Finds(SlotIn, Mentions)
  {
    hide Mentions, Gather, ChoiceItems;
    forall c: Choice ensures Gather(ChoiceItems(c), SlotIn) == Mentions(c) {
      ChoiceMentions(c);
    }
  }

  lemma ChoiceMentions(c: Choice)
    ensures Gather(ChoiceItems(c), SlotIn) == Mentions(c)
  {
    hide Gather, ChoiceItems;
    ChoiceGathers(c, SlotIn);
    ToolItemsCalls(c.toolCalls);
    var thinking := if c.reasoning.Some? then SlotIn(Reasoning(c.reasoning.value)) else [];
    var finish := if c.finishReason.Some? then SlotIn(FinishReason(c.finishReason.value)) else [];
    assert finish == [] && finish + thinking == thinking;
  }

  /** The items of a stream hold what its chunks say. */
  lemma ItemsAsTold(told: seq<Told>)
    ensures Gather(AllItems(told), ContentIn) == FromChoices(told, ContentOf)
    ensures Gather(AllItems(told), ReasoningIn) == FromChoices(told, ReasoningOf)
    ensures Gather(AllItems(told), CallIn) == FromChoices(told, CallsOf)
    ensures Gather(AllItems(told), ReasonIn) == FromChoices(told, ReasonOf)
    ensures Gather(AllItems(told), SlotIn) == FromChoices(told, Mentions)
  {
    hide Finds;
    FindsContent();
    FindsReasoning();
    FindsReasons();
    FindsCalls();
    FindsSlots();
    ToldGathers(told, ContentIn, ContentOf);
    ToldGathers(told, ReasoningIn, ReasoningOf);
    ToldGathers(told, CallIn, CallsOf);
    ToldGathers(told, ReasonIn, ReasonOf);
    ToldGathers(told, SlotIn, Mentions);
  }

  lemma {:induction false} SlotsAreFirsts(items: seq<Item>)
    ensures FirstSlots(items) == Firsts(Gather(items, SlotIn))
  {
    if items != [] {
      SlotsAreFirsts(items[..|items| - 1]);
      var before, item := Gather(items[..|items| - 1], SlotIn), items[|items| - 1];
      if SlotOf(item).Some? {
        assert (before + [SlotOf(item).value])[..|before|] == before;
      } else {
        assert before + [] == before;
      }
    }
  }
  // ---------- what a block should hold ----------

  /** The calls with an index, in order. */
  function CallsAt(calls: seq<ToolDelta>, index: int): seq<ToolDelta> {
    if calls == [] then []
    else CallsAt(calls[..|calls| - 1], index) + (if calls[|calls| - 1].index == index then [calls[|calls| - 1]] else [])
  }

  function Arguments(calls: seq<ToolDelta>): (r: seq<string>)
    ensures |r| == |calls| && forall i :: 0 <= i < |r| ==> r[i] == calls[i].arguments
  {
    seq(|calls|, i requires 0 <= i < |calls| => calls[i].arguments)
  }

  function Names(calls: seq<ToolDelta>): (r: seq<string>)
    ensures |r| == |calls| && forall i :: 0 <= i < |r| ==> r[i] == OrEmpty(calls[i].name)
  {
    seq(|calls|, i requires 0 <= i < |calls| => OrEmpty(calls[i].name))
  }

  /** The last id that is not empty. */
  function LastId(calls: seq<ToolDelta>): string {
    if calls == [] then ""
    else if OrEmpty(calls[|calls| - 1].id) != "" then calls[|calls| - 1].id.value
    else LastId(calls[..|calls| - 1])
  }

  /** The block of a tool call: its arguments and its name put together, and the last id given. */
  ghost predicate IsToolCall<D>(b: ContentBlock<D>, position: nat, calls: seq<ToolDelta>)
    requires calls != []
  {
    && b.index == position && b.blockType == "tool_use" && b.text == None
    && b.partialJson == Some(Flatten(Arguments(calls)))
    && OrEmpty(b.toolId) == LastId(calls) && (b.toolId.None? <==> calls[0].id.None? && LastId(calls) == "")
    && OrEmpty(b.toolName) == Flatten(Names(calls)) && (b.toolName.None? <==> calls[0].name.None? && Flatten(Names(calls)) == "")
  }

  /** What the block of a slot is, given the reasoning, the content and the tool calls of a stream. */
  ghost predicate MadeOf<D>(cur: Option<ContentBlock<D>>, slot: Slot, position: nat, mentioned: bool,
                            reasonings: seq<string>, contents: seq<string>, calls: seq<ToolDelta>)
  {
    match slot
    case ThinkingSlot =>
      && cur == (if mentioned then Some(TextBlock(position, "thinking", Flatten(reasonings))) else None)
      && (!mentioned ==> reasonings == [])
    case TextSlot =>
      && cur == (if mentioned then Some(TextBlock(position, "text", Flatten(contents))) else None)
      && (!mentioned ==> contents == [])
    case ToolSlot(i) =>
      && (mentioned <==> CallsAt(calls, i) != [])
      && (if mentioned then cur.Some? && IsToolCall(cur.value, position, CallsAt(calls, i)) else cur.None?)
  }

  lemma OneText(s: string)
    ensures Flatten([s]) == s
  {
    assert [s][1..] == [];
    assert s + Flatten([]) == s;
  }

  lemma TextsSnoc(texts: seq<string>, s: string)
    ensures Flatten(texts + [s]) == Flatten(texts) + s
    ensures texts == [] ==> Flatten(texts + [s]) == s
    ensures texts + [] == texts
  {
    FlattenSnoc(texts, s);
    assert "" + s == s;
  }

  lemma FirstCall<D>(position: nat, call: ToolDelta)
    ensures IsToolCall<D>(ToolBlock(position, call), position, [call])
  {
    assert Arguments([call]) == [call.arguments] && Names([call]) == [OrEmpty(call.name)];
    OneText(call.arguments);
    OneText(OrEmpty(call.name));
    assert [call][..0] == [] && LastId([]) == "";
  }

  lemma MoreOfCall<D>(b: ContentBlock<D>, position: nat, calls: seq<ToolDelta>, call: ToolDelta)
    requires calls != [] && IsToolCall(b, position, calls)
    ensures IsToolCall(ExtendTool(b, call), position, calls + [call])
  {
    assert Arguments(calls + [call]) == Arguments(calls) + [call.arguments];
    assert Names(calls + [call]) == Names(calls) + [OrEmpty(call.name)];
    TextsSnoc(Arguments(calls), call.arguments);
    TextsSnoc(Names(calls), OrEmpty(call.name));
    assert (calls + [call])[..|calls|] == calls && (calls + [call])[0] == calls[0];
    assert forall x: string :: x + "" == x;
  }

  lemma CallsAtSnoc(calls: seq<ToolDelta>, call: ToolDelta, i: int)
    ensures CallsAt(calls + [call], i) == CallsAt(calls, i) + (if call.index == i then [call] else [])
  {
    assert (calls + [call])[..|calls|] == calls;
  }

  /** One more item. */
  lemma StepMakes<D>(loads: string -> JsonText<D>, cur: Option<ContentBlock<D>>, slot: Slot, position: nat, mentioned: bool,
                     reasonings: seq<string>, contents: seq<string>, calls: seq<ToolDelta>, item: Item)
    requires MadeOf(cur, slot, position, mentioned, reasonings, contents, calls)
    ensures MadeOf(AssembleStep(loads, slot, position, cur, item), slot, position, mentioned || SlotOf(item) == Some(slot),
                   reasonings + ReasoningIn(item), contents + ContentIn(item), calls + CallIn(item))
  {
    hide IsToolCall, CallsAt, Flatten, ExtendTool;
    assert reasonings + [] == reasonings && contents + [] == contents && calls + [] == calls;
    match item {
      case Reasoning(s) => TextsSnoc(reasonings, s);
      case Content(s) => TextsSnoc(contents, s);
      case Tool(call) =>
        if slot.ToolSlot? {
          CallsAtSnoc(calls, call, slot.index);
          var before := CallsAt(calls, slot.index);
          if call.index == slot.index {
            if before == [] {
              FirstCall<D>(position, call);
              assert before + [call] == [call];
            } else {
              MoreOfCall(cur.value, position, before, call);
            }
          } else {
            assert before + [] == before;
          }
        }
      case Done =>
        if slot.ToolSlot? && cur.Some? {
          FinishKeepsCall(loads, cur.value, position, CallsAt(calls, slot.index));
        }
      case _ =>
    }
  }

  lemma FinishKeepsCall<D>(loads: string -> JsonText<D>, b: ContentBlock<D>, position: nat, calls: seq<ToolDelta>)
    requires calls != [] && IsToolCall(b, position, calls)
    ensures IsToolCall(FinishBlock(loads, b), position, calls)
  {
  }

  lemma {:induction false} AssembledAs<D>(loads: string -> JsonText<D>, slot: Slot, position: nat, items: seq<Item>)
    ensures MadeOf(Assemble(loads, slot, position, items), slot, position, slot in FirstSlots(items),
                   Gather(items, ReasoningIn), Gather(items, ContentIn), Gather(items, CallIn))
  {
    hide AssembleStep;
    if items != [] {
      hide MadeOf, ReasoningIn, ContentIn, CallIn;
      var init, item := items[..|items| - 1], items[|items| - 1];
      AssembledAs(loads, slot, position, init);
      StepMakes(loads, Assemble(loads, slot, position, init), slot, position, slot in FirstSlots(init),
                Gather(init, ReasoningIn), Gather(init, ContentIn), Gather(init, CallIn), item);
    }
  }

  /** The slots that the chunks mention, in order of first mention. */
  function Slots(told: seq<Told>): seq<Slot> {
    Firsts(FromChoices(told, Mentions))
  }

  /**
   * After any chunks: one block for each slot in order of first mention; the thinking block holds all reasoning, the text
   * block all content, and the block of a tool call all arguments of the calls with its index, put together in order.
   */
  lemma BlocksAreAsTold<D>(loads: string -> JsonText<D>, told: seq<Told>)
    ensures var blocks, slots := ApplyAll(loads, Start(), AllItems(told)).blocks, Slots(told);
            && |blocks| == |slots|
            && forall k :: 0 <= k < |blocks| ==>
                 MadeOf(Some(blocks[k]), slots[k], k, true,
                        FromChoices(told, ReasoningOf), FromChoices(told, ContentOf), FromChoices(told, CallsOf))
  {
    hide Apply, MadeOf, Assemble, AllFind;
    var items := AllItems(told);
    ItemsAsTold(told);
    SlotsAreFirsts(items);
    BlocksAreSlots(loads, items);
    var blocks, slots := ApplyAll(loads, Start(), items).blocks, Slots(told);
    forall k | 0 <= k < |blocks|
      ensures MadeOf(Some(blocks[k]), slots[k], k, true,
                     FromChoices(told, ReasoningOf), FromChoices(told, ContentOf), FromChoices(told, CallsOf))
    {
      AssembledAs(loads, slots[k], k, items);
      assert slots[k] in FirstSlots(items);
    }
  }

  // ---------- inputs, usage and the stop reason ----------

  /** What the input of the call with an index is parsed to at the first end marker after it came. */
  function ParsedAt<D>(loads: string -> JsonText<D>, told: seq<Told>, i: int): Option<ParsedInput<D>> {
    if told == [] then None
    else
      var init := told[..|told| - 1];
      var before, calls := ParsedAt(loads, init, i), CallsAt(FromChoices(init, CallsOf), i);
      if told[|told| - 1].EndTold? && before.None? && calls != [] then ParsePartial(loads, Flatten(Arguments(calls))) else before
  }

  function ParsedIn<D>(loads: string -> JsonText<D>, items: seq<Item>, i: int): Option<ParsedInput<D>> {
    if items == [] then None
    else
      var init := items[..|items| - 1];
      var before, calls := ParsedIn(loads, init, i), CallsAt(Gather(init, CallIn), i);
      if items[|items| - 1].Done? && before.None? && calls != [] then ParsePartial(loads, Flatten(Arguments(calls))) else before
  }

  lemma {:induction false} NoEndNoParse<D>(loads: string -> JsonText<D>, a: seq<Item>, b: seq<Item>, i: int)
    requires forall item :: item in b ==> !item.Done?
    ensures ParsedIn(loads, a + b, i) == ParsedIn(loads, a, i)
  {
    if b == [] {
      assert a + b == a;
    } else {
      assert (a + b)[..|a + b| - 1] == a + b[..|b| - 1] && b[|b| - 1] in b;
      NoEndNoParse(loads, a, b[..|b| - 1], i);
    }
  }

  lemma {:induction false} ChoicesHaveNoEnd(cs: seq<Choice>)
    ensures forall item :: item in ChoicesItems(cs) ==> !item.Done?
  {
    if cs != [] {
      ChoicesHaveNoEnd(cs[..|cs| - 1]);
    }
  }

  lemma {:induction false} ParsedAsTold<D>(loads: string -> JsonText<D>, told: seq<Told>, i: int)
    ensures ParsedIn(loads, AllItems(told), i) == ParsedAt(loads, told, i)
  {
    hide CallsAt, ParsePartial, ChunkItems;
    if told != [] {
      var init, t := told[..|told| - 1], told[|told| - 1];
      ParsedAsTold(loads, init, i);
      ItemsAsTold(init);
      match t {
        case EndTold => assert (AllItems(init) + [Done])[..|AllItems(init)|] == AllItems(init);
        case ChunkTold(c) =>
          ChunksHaveNoEnd(c);
          NoEndNoParse(loads, AllItems(init), ChunkItems(c), i);
      }
    }
  }

  lemma ChunksHaveNoEnd(c: Chunk)
    ensures forall item :: item in ChunkItems(c) ==> !item.Done?
  {
    ChoicesHaveNoEnd(c.choices);
  }

  lemma {:induction false} AssembledParse<D>(loads: string -> JsonText<D>, i: int, position: nat, items: seq<Item>)
    ensures var b := Assemble(loads, ToolSlot(i), position, items);
            if b.Some? then b.value.parsedInput == ParsedIn(loads, items, i) else ParsedIn(loads, items, i).None?
  {
    hide IsToolCall, CallsAt, ParsePartial, FirstSlots;
    if items != [] {
      var init := items[..|items| - 1];
      AssembledParse(loads, i, position, init);
      AssembledAs(loads, ToolSlot(i), position, init);
      var cur := Assemble(loads, ToolSlot(i), position, init);
      if cur.Some? {
        CallJson(cur.value, position, CallsAt(Gather(init, CallIn), i));
      }
    }
  }

  lemma CallJson<D>(b: ContentBlock<D>, position: nat, calls: seq<ToolDelta>)
    requires calls != [] && IsToolCall(b, position, calls)
    ensures b.partialJson == Some(Flatten(Arguments(calls)))
  {
  }

  /** After any chunks the input of a tool call is parsed from the arguments that had come when the stream first ended. */
  lemma InputsAreParsed<D>(loads: string -> JsonText<D>, told: seq<Told>, k: nat, i: int)
    requires k < |ApplyAll(loads, Start(), AllItems(told)).blocks|
    requires k < |Slots(told)| && Slots(told)[k] == ToolSlot(i)
    ensures ApplyAll(loads, Start(), AllItems(told)).blocks[k].parsedInput == ParsedAt(loads, told, i)
  {
    hide Apply, Assemble, AllFind;
    ItemsAsTold(told);
    SlotsAreFirsts(AllItems(told));
    BlocksAreSlots(loads, AllItems(told));
    AssembledParse(loads, i, k, AllItems(told));
    ParsedAsTold(loads, told, i);
  }

  function Usages(told: seq<Told>): seq<UsageDelta> {
    if told == [] then []
    else
      Usages(told[..|told| - 1])
      + (match told[|told| - 1] case ChunkTold(c) => OrNone(c.usage) case EndTold => [])
  }

  function UsageIn(item: Item): seq<UsageDelta> {
    if item.Usage? then [item.usage] else []
  }

  function NoUsage(c: Choice): seq<UsageDelta> {
    []
  }

  lemma ChoicesHaveNoUsage()
    ensures FindsInChoices(UsageIn, NoUsage)
  {
    forall c: Choice ensures Gather(ChoiceItems(c), UsageIn) == NoUsage(c) {
      ChoiceGathers(c, UsageIn);
      ToolItemsGather(c.toolCalls, UsageIn);
    }
  }

  lemma {:induction false} NothingFromEach(cs: seq<Choice>)
    ensures FromEach(cs, NoUsage) == []
  {
    if cs != [] {
      NothingFromEach(cs[..|cs| - 1]);
    }
  }

  lemma OneUsage(t: Told)
    ensures Gather(ItemsOf(t), UsageIn) == match t case ChunkTold(c) => OrNone(c.usage) case EndTold => []
  {
    match t {
      case EndTold => GatherOne(Done, UsageIn);
      case ChunkTold(c) =>
        var head: seq<Item> := if c.usage.Some? then [Usage(c.usage.value)] else [];
        GatherAppend(head, ChoicesItems(c.choices), UsageIn);
        GatherOption(head, UsageIn);
        ChoicesHaveNoUsage();
        ChoicesGather(c.choices, UsageIn, NoUsage);
        NothingFromEach(c.choices);
        assert OrNone(c.usage) + [] == OrNone(c.usage);
    }
  }

  lemma {:induction false} UsagesAsTold(told: seq<Told>)
    ensures Gather(AllItems(told), UsageIn) == Usages(told)
  {
    hide ItemsOf;
    if told != [] {
      var init, t := told[..|told| - 1], told[|told| - 1];
      UsagesAsTold(init);
      GatherAppend(AllItems(init), ItemsOf(t), UsageIn);
      OneUsage(t);
    }
  }

  /** The last value reported, or zero. */
  function LastReported(us: seq<UsageDelta>, entry: UsageDelta -> Option<int>): int {
    if us == [] then 0
    else if entry(us[|us| - 1]).Some? then entry(us[|us| - 1]).value
    else LastReported(us[..|us| - 1], entry)
  }

  lemma ReportedSnoc(us: seq<UsageDelta>, u: UsageDelta, entry: UsageDelta -> Option<int>)
    ensures LastReported(us + [u], entry) == if entry(u).Some? then entry(u).value else LastReported(us, entry)
    ensures us + [] == us
  {
    assert (us + [u])[..|us|] == us;
  }

  function PromptOf(u: UsageDelta): Option<int> { u.prompt }
  function CompletionOf(u: UsageDelta): Option<int> { u.completion }
  function CachedOf(u: UsageDelta): Option<int> { u.cached }
  function ReasoningTokensOf(u: UsageDelta): Option<int> { u.reasoning }

  /** Usage holds the last value reported for each count, and the stop reason is the last finish reason given. */
  ghost predicate Counts<D>(st: State<D>, us: seq<UsageDelta>, reasons: seq<string>) {
    && st.usage.inputTokens == LastReported(us, PromptOf)
    && st.usage.outputTokens == LastReported(us, CompletionOf)
    && st.usage.cacheReadInputTokens == LastReported(us, CachedOf)
    && st.usage.reasoningTokens == LastReported(us, ReasoningTokensOf)
    && st.usage.cacheCreationInputTokens == 0
    && st.stopReason == (if reasons == [] then None else Some(reasons[|reasons| - 1]))
  }

  lemma CountsStep<D>(loads: string -> JsonText<D>, st: State<D>, us: seq<UsageDelta>, reasons: seq<string>, item: Item)
    requires Counts(st, us, reasons)
    ensures Counts(Apply(loads, st, item), us + UsageIn(item), reasons + ReasonIn(item))
  {
    hide LastReported, FinishTools, ExtendText, ExtendTool, ToolPositions;
    assert us + [] == us && reasons + [] == reasons;
    if item.Usage? {
      ReportedSnoc(us, item.usage, PromptOf);
      ReportedSnoc(us, item.usage, CompletionOf);
      ReportedSnoc(us, item.usage, CachedOf);
      ReportedSnoc(us, item.usage, ReasoningTokensOf);
    }
  }

  lemma {:induction false} CountsOfItems<D>(loads: string -> JsonText<D>, items: seq<Item>)
    ensures Counts(ApplyAll(loads, Start(), items), Gather(items, UsageIn), Gather(items, ReasonIn))
  {
    hide Apply, UsageIn, ReasonIn;
    if items != [] {
      hide Counts;
      var init, item := items[..|items| - 1], items[|items| - 1];
      CountsOfItems(loads, init);
      CountsStep(loads, ApplyAll(loads, Start(), init), Gather(init, UsageIn), Gather(init, ReasonIn), item);
    }
  }

  lemma CountsAreAsTold<D>(loads: string -> JsonText<D>, told: seq<Told>)
    ensures Counts(ApplyAll(loads, Start(), AllItems(told)), Usages(told), FromChoices(told, ReasonOf))
  {
    CountsOfItems(loads, AllItems(told));
    ItemsAsTold(told);
    UsagesAsTold(told);
  }

  /** The stream is done exactly when an end marker has come. */
  lemma {:induction false} DoneAsTold<D>(loads: string -> JsonText<D>, items: seq<Item>)
    ensures ApplyAll(loads, Start(), items).isDone <==> exists item | item in items :: item.Done?
  {
    hide Apply;
    if items != [] {
      var init, item := items[..|items| - 1], items[|items| - 1];
      DoneAsTold(loads, init);
      DoneStep(loads, ApplyAll(loads, Start(), init), item);
      assert items == init + [item];
      assert item in items && forall x :: x in items <==> x in init || x == item;
    }
  }

  lemma DoneStep<D>(loads: string -> JsonText<D>, st: State<D>, item: Item)
    ensures Apply(loads, st, item).isDone <==> st.isDone || item.Done?
  {
    hide FinishTools, ExtendText, ExtendTool;
  }

  // ---------- whole streams ----------

  /** The chunks and end markers that a whole text holds, those of its close included, and its end. */
  function StreamTold<D>(lib: Library<D>, text: string): seq<Told> {
    var fed := SseReading.ReadOne(lib.num, IsBad(lib), FRESH, text);
    Received(lib, fed.events) + Received(lib, Sse.CloseStream(lib.num, fed.state).events) + [EndTold]
  }

  lemma StreamItemsAreTold<D>(lib: Library<D>, text: string)
    ensures StreamItems(lib, text) == AllItems(StreamTold(lib, text))
  {
    hide SseReading.ReadOne, Sse.CloseStream;
    var fed := SseReading.ReadOne(lib.num, IsBad(lib), FRESH, text);
    var closed := Sse.CloseStream(lib.num, fed.state).events;
    ReceivedItems(lib, fed.events);
    ReceivedItems(lib, closed);
    AllItemsAppend(Received(lib, fed.events), Received(lib, closed));
    AllItemsAppend(Received(lib, fed.events) + Received(lib, closed), [EndTold]);
    AllItemsOne(EndTold);
  }

  /** The result of a stream, given what its text holds. */
  ghost predicate IsAsTold<D>(loads: string -> JsonText<D>, st: State<D>, told: seq<Told>) {
    && |st.blocks| == |Slots(told)|
    && (forall k :: 0 <= k < |st.blocks| ==>
          && MadeOf(Some(st.blocks[k]), Slots(told)[k], k, true,
                    FromChoices(told, ReasoningOf), FromChoices(told, ContentOf), FromChoices(told, CallsOf))
          && (Slots(told)[k].ToolSlot? ==> st.blocks[k].parsedInput == ParsedAt(loads, told, Slots(told)[k].index)))
    && Counts(st, Usages(told), FromChoices(told, ReasonOf))
  }

  /**
   * From the pieces of a text to the result: however a text is cut on which nothing is lost to an exception, the blocks,
   * their parsed inputs, the usage and the stop reason are those that its chunks tell.
   */
  lemma StreamIsAsTold<D>(lib: Library<D>, texts: seq<string>)
    requires ReadsSafely(lib, Flatten(texts))
    ensures IsAsTold(lib.loads, FeedEof(HandlerOf(lib), FeedTexts(HandlerOf(lib), Acc(FRESH, Start()), texts)).state,
                     StreamTold(lib, Flatten(texts)))
  {
    hide ReadsSafely, MadeOf, Counts, Apply, ParsedAt, StreamTold;
    AccumulatesTheText(lib, texts);
    StreamItemsAreTold(lib, Flatten(texts));
    var told := StreamTold(lib, Flatten(texts));
    var st := ApplyAll(lib.loads, Start(), AllItems(told));
    BlocksAreAsTold(lib.loads, told);
    CountsAreAsTold(lib.loads, told);
    forall k | 0 <= k < |st.blocks| && Slots(told)[k].ToolSlot?
      ensures st.blocks[k].parsedInput == ParsedAt(lib.loads, told, Slots(told)[k].index)
    {
      InputsAreParsed(lib.loads, told, k, Slots(told)[k].index);
    }
  }
}

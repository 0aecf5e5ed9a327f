/** The reconstructed content blocks that both stream accumulators build (src/schema/wire.py). */
module ContentBlocks {
  import opened Collections

  // What json.loads makes of a text; the documents themselves stay opaque.
  datatype JsonText<D> = Malformed | Null | Document(doc: D)

  // What a tool block's parsed_input can hold.
  datatype ParsedInput<D> = EmptyObject | RawText(raw: string) | Loaded(doc: D)

  datatype ContentBlock<D> = ContentBlock(
    index: int,
    blockType: string,
    text: Option<string>,
    toolId: Option<string>,
    toolName: Option<string>,
    partialJson: Option<string>,
    parsedInput: Option<ParsedInput<D>>)

  datatype UsageMetrics = UsageMetrics(
    inputTokens: int,
    outputTokens: int,
    cacheCreationInputTokens: int,
    cacheReadInputTokens: int,
    reasoningTokens: int)

  const NO_USAGE := UsageMetrics(0, 0, 0, 0, 0)

  function OrEmpty(s: Option<string>): string {
    if s.Some? then s.value else ""
  }

  function ParsePartial<D>(loads: string -> JsonText<D>, partial: string): Option<ParsedInput<D>> {
    if partial == "" then Some(EmptyObject)
    else match loads(partial)
         case Malformed => Some(RawText(partial))
         case Null => None
         case Document(d) => Some(Loaded(d))
  }

  /** No input is the empty object; a document is loaded, what is no JSON is kept as text, and null is nothing. */
  lemma PartialParses<D>(loads: string -> JsonText<D>, partial: string, d: D)
    ensures ParsePartial(loads, "") == Some(EmptyObject)
    ensures partial != "" && loads(partial) == Document(d) ==> ParsePartial(loads, partial) == Some(Loaded(d))
    ensures partial != "" && loads(partial) == Malformed ==> ParsePartial(loads, partial) == Some(RawText(partial))
    ensures partial != "" && loads(partial) == Null ==> ParsePartial(loads, partial) == None
  {
  }

  /** Parses the collected input of a block whose input has not been parsed. */
  function FinishBlock<D>(loads: string -> JsonText<D>, b: ContentBlock<D>): (r: ContentBlock<D>)
    ensures r == b.(parsedInput := r.parsedInput)
  {
    if b.parsedInput.None? && b.partialJson.Some? then b.(parsedInput := ParsePartial(loads, b.partialJson.value)) else b
  }

  lemma FinishTwice<D>(loads: string -> JsonText<D>, b: ContentBlock<D>)
    ensures FinishBlock(loads, FinishBlock(loads, b)) == FinishBlock(loads, b)
  {
  }
}

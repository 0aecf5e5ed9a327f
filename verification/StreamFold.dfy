/** An accumulator behind the event parser: every result is a fold over the events it handles. */
module StreamFold {
  import opened Collections
  import opened Sse
  import opened SseReading

  // An accumulator: how it reads a retry, on which events it raises, what an event does to its state (before
  // it raises, if it does), and what finishing a stream does.
  datatype Handler<!S> = Handler(num: ReadInt, bad: SSEEvent -> bool, step: (S, SSEEvent) -> S, finish: S -> S)

  datatype Acc<S> = Acc(parser: State, state: S)

  function Fold<S, E>(step: (S, E) -> S, s: S, items: seq<E>): S {
    if items == [] then s else step(Fold(step, s, items[..|items| - 1]), items[|items| - 1])
  }

  /** feed_chunk on a piece of decoded text that is not the end of the stream; its caller catches what it raises. */
  function FeedText<S>(h: Handler<S>, a: Acc<S>, text: string): Acc<S> {
    var out := ReadOne(h.num, h.bad, a.parser, text);
    Acc(out.state, Fold(h.step, a.state, out.events))
  }

  function FeedTexts<S>(h: Handler<S>, a: Acc<S>, texts: seq<string>): Acc<S> {
    if texts == [] then a else FeedText(h, FeedTexts(h, a, texts[..|texts| - 1]), texts[|texts| - 1])
  }

  predicate AnyBad(bad: SSEEvent -> bool, events: seq<SSEEvent>) {
    exists e | e in events :: bad(e)
  }

  predicate EofRaises<S>(h: Handler<S>, p: State) {
    CloseStream(h.num, p).raised || AnyBad(h.bad, CloseStream(h.num, p).events)
  }

  /** feed_chunk on the empty chunk that ends the stream: it finishes, unless the close or an event raises. */
  function FeedEof<S>(h: Handler<S>, a: Acc<S>): Acc<S> {
    var out := CloseStream(h.num, a.parser);
    var s := Fold(h.step, a.state, Handled(h.bad, out.events));
    Acc(out.state, if EofRaises(h, a.parser) then s else h.finish(s))
  }

  lemma {:induction false} FoldAppend<S, E>(step: (S, E) -> S, s: S, a: seq<E>, b: seq<E>)
    ensures Fold(step, s, a + b) == Fold(step, Fold(step, s, a), b)
  {
    if b == [] {
      assert a + b == a;
    } else {
      assert (a + b)[..|a + b| - 1] == a + b[..|b| - 1];
      FoldAppend(step, s, a, b[..|b| - 1]);
    }
  }

  lemma FoldOne<S, E>(step: (S, E) -> S, s: S, item: E)
    ensures Fold(step, s, [item]) == step(s, item)
  {
    assert [item][..0] == [];
    assert Fold(step, s, []) == s;
  }

  /** Whatever is accumulated is a fold over the events that the reading handles. */
  lemma {:induction false} FeedTextsFolds<S>(h: Handler<S>, a: Acc<S>, texts: seq<string>)
    ensures var out := ReadAll(h.num, h.bad, a.parser, texts);
            FeedTexts(h, a, texts) == Acc(out.state, Fold(h.step, a.state, out.events))
  {
    hide ReadOne;
    if texts != [] {
      var init, last := texts[..|texts| - 1], texts[|texts| - 1];
      FeedTextsFolds(h, a, init);
      var before := ReadAll(h.num, h.bad, a.parser, init);
      FoldAppend(h.step, a.state, before.events, ReadOne(h.num, h.bad, before.state, last).events);
    }
  }

  /** On a harmless text, what is accumulated does not depend on how the text was cut into chunks. */
  lemma ChunkingDoesNotMatter<S>(h: Handler<S>, a: Acc<S>, texts: seq<string>)
    requires Drained(a.parser) && Harmless(h.num, h.bad, a.parser, Flatten(texts))
    ensures FeedTexts(h, a, texts) == FeedText(h, a, Flatten(texts))
  {
    FeedTextsFolds(h, a, texts);
    ChunkInvariance(h.num, h.bad, a.parser, texts);
  }

  /** A call that raises on no event handles them all. */
  lemma {:induction false} HandledGood(bad: SSEEvent -> bool, events: seq<SSEEvent>)
    requires !AnyBad(bad, events)
    ensures Handled(bad, events) == events
  {
    if events != [] {
      assert events[0] in events && forall e :: e in events[1..] ==> e in events;
      HandledGood(bad, events[1..]);
    }
  }

  /** A second end of stream changes nothing after a first one that did not raise. */
  lemma SecondEofIsIdle<S>(h: Handler<S>, a: Acc<S>)
    requires !EofRaises(h, a.parser)
    requires var s := Fold(h.step, a.state, CloseStream(h.num, a.parser).events); h.finish(h.finish(s)) == h.finish(s)
    ensures FeedEof(h, FeedEof(h, a)) == FeedEof(h, a)
  {
    hide CloseStream;
    SecondCloseIff(h.num, a.parser);
    HandledGood(h.bad, CloseStream(h.num, a.parser).events);
  }

  lemma DispatchClears(num: ReadInt, f: Fields)
    requires Emits(f)
    ensures CloseStream(num, State("", f)).state != State("", f)
  {
    assert SplitLines("") == [] && ProcessLines(num, f, []) == Outcome(f, []);
    var none: seq<string> := [];
    assert none[..0] == none;
  }

  /** For a stream that finishing would still change, it changes nothing exactly then. */
  lemma SecondEofIff<S>(h: Handler<S>, a: Acc<S>)
    requires var s := Fold(h.step, a.state, Handled(h.bad, CloseStream(h.num, a.parser).events));
             h.finish(h.finish(s)) == h.finish(s) && h.finish(s) != s
    ensures FeedEof(h, FeedEof(h, a)) == FeedEof(h, a) <==> !EofRaises(h, a.parser)
  {
    hide CloseStream;
    var once := CloseStream(h.num, a.parser);
    SecondCloseIff(h.num, a.parser);
    ClosedIsEmpty(h.num, a.parser);
    if !EofRaises(h, a.parser) {
      HandledGood(h.bad, once.events);
      SecondEofIsIdle(h, a);
    } else if Emits(once.state.fields) {
      DispatchClears(h.num, once.state.fields);
    }
  }

  lemma ClosedIsEmpty(num: ReadInt, st: State)
    ensures CloseStream(num, st).state.buffer == ""
  {
  }

  /** What is accumulated through the end of the stream depends on the text only, if it is harmless. */
  lemma TextDecides<S>(h: Handler<S>, a: Acc<S>, texts: seq<string>, other: seq<string>)
    requires Drained(a.parser) && Flatten(texts) == Flatten(other) && Harmless(h.num, h.bad, a.parser, Flatten(texts))
    ensures FeedTexts(h, a, texts) == FeedTexts(h, a, other)
    ensures FeedEof(h, FeedTexts(h, a, texts)) == FeedEof(h, FeedTexts(h, a, other))
  {
    ChunkingDoesNotMatter(h, a, texts);
    ChunkingDoesNotMatter(h, a, other);
  }
}

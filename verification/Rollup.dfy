/** Step and human granularity of the turn list of one session (src/cli.py, TURN_COMPLETED). */
module Rollup {
  import opened Collections
  import opened Blocks
  import opened ContextGraphs

  // A completed envelope: whether it is a human interaction, and the turn its normalizer
  // makes of it; None when the normalizer raises, which the bridge logs and skips.
  datatype Envelope = Envelope(human: bool, content: Option<Turn>)

  function Normalized(content: Turn, turnIndex: nat): Turn {
    content.(turnIndex := turnIndex, stepCount := 1)
  }

  // ---------- the two modes, one envelope at a time ----------

  function StepNext(turns: seq<Turn>, e: Envelope): seq<Turn> {
    match e.content
    case None => turns
    case Some(c) => turns + [Normalized(c, |turns|)]
  }

  function AddCounters(active: Turn, step: Turn): Turn {
    active.(
      inputTokens := active.inputTokens + step.inputTokens,
      outputTokens := active.outputTokens + step.outputTokens,
      cachedReadTokens := active.cachedReadTokens + step.cachedReadTokens,
      cachedCreatedTokens := active.cachedCreatedTokens + step.cachedCreatedTokens,
      durationMs := active.durationMs + step.durationMs,
      stepCount := active.stepCount + 1)
  }

  /** The active human turn takes in a step: counters add up, blocks are replaced. */
  function Absorb(active: Turn, step: Turn): Turn {
    AddCounters(active, step).(
      systemBlocks := step.systemBlocks,
      toolDefs := step.toolDefs,
      conversationHistory := step.conversationHistory,
      toolResults := step.toolResults,
      assistantBlocks := step.assistantBlocks)
  }

  function HumanNext(turns: seq<Turn>, e: Envelope): seq<Turn> {
    match e.content
    case None => turns
    case Some(c) =>
      if turns == [] || e.human then turns + [Normalized(c, |turns|)]
      else
        var last := |turns| - 1;
        turns[last := Absorb(turns[last], Normalized(c, last))]
  }

  function StepRun(es: seq<Envelope>): seq<Turn> {
    if es == [] then [] else StepNext(StepRun(es[..|es| - 1]), es[|es| - 1])
  }

  function HumanRun(es: seq<Envelope>): seq<Turn> {
    if es == [] then [] else HumanNext(HumanRun(es[..|es| - 1]), es[|es| - 1])
  }

  // ---------- the grouping of steps at human boundaries ----------

  /** The human flags of the envelopes that became a step. */
  function Flags(es: seq<Envelope>): seq<bool> {
    if es == [] then []
    else Flags(es[..|es| - 1]) + (if es[|es| - 1].content.Some? then [es[|es| - 1].human] else [])
  }

  /**
   * gs cuts the steps into non-empty groups; a group after the first opens at a human step,
   * and no other step of a group is human.
   */
  ghost predicate IsGrouping(gs: seq<seq<Turn>>, steps: seq<Turn>, flags: seq<bool>)
    requires |steps| == |flags|
  {
    && Flatten(gs) == steps
    && (forall g :: 0 <= g < |gs| ==> gs[g] != [])
    && (forall g :: 0 < g < |gs| ==> Opens(gs, g, flags))
    && (forall g, j :: 0 <= g < |gs| && 0 < j < |gs[g]| ==> Continues(gs, g, j, flags))
  }

  /** Position in the step list of the first step of group g. */
  function Start(gs: seq<seq<Turn>>, g: nat): nat
    requires g <= |gs|
  {
    |Flatten(gs[..g])|
  }

  ghost predicate Opens(gs: seq<seq<Turn>>, g: nat, flags: seq<bool>)
    requires g < |gs|
  {
    Start(gs, g) < |flags| && flags[Start(gs, g)]
  }

  ghost predicate Continues(gs: seq<seq<Turn>>, g: nat, j: nat, flags: seq<bool>)
    requires g < |gs|
  {
    Start(gs, g) + j < |flags| && !flags[Start(gs, g) + j]
  }

  function Groups(steps: seq<Turn>, flags: seq<bool>): seq<seq<Turn>>
    requires |steps| == |flags|
  {
    if steps == [] then []
    else
      var n := |steps| - 1;
      var gs := Groups(steps[..n], flags[..n]);
      if gs == [] || flags[n] then gs + [[steps[n]]]
      else gs[|gs| - 1 := gs[|gs| - 1] + [steps[n]]]
  }

  function InputOf(ts: seq<Turn>): int { if ts == [] then 0 else InputOf(ts[..|ts| - 1]) + ts[|ts| - 1].inputTokens }
  function OutputOf(ts: seq<Turn>): int { if ts == [] then 0 else OutputOf(ts[..|ts| - 1]) + ts[|ts| - 1].outputTokens }
  function CachedReadOf(ts: seq<Turn>): int { if ts == [] then 0 else CachedReadOf(ts[..|ts| - 1]) + ts[|ts| - 1].cachedReadTokens }
  function CachedCreatedOf(ts: seq<Turn>): int { if ts == [] then 0 else CachedCreatedOf(ts[..|ts| - 1]) + ts[|ts| - 1].cachedCreatedTokens }
  function DurationOf(ts: seq<Turn>): real { if ts == [] then 0.0 else DurationOf(ts[..|ts| - 1]) + ts[|ts| - 1].durationMs }
  function StepsOf(ts: seq<Turn>): nat { if ts == [] then 0 else StepsOf(ts[..|ts| - 1]) + ts[|ts| - 1].stepCount }

  /** The human turn at a list position that a group of steps amounts to. */
  function Summary(g: seq<Turn>, position: nat): Turn
    requires g != []
  {
    var first, last := g[0], g[|g| - 1];
    Turn(first.turnId, first.sessionId, first.model, position,
         last.systemBlocks, last.toolDefs, last.conversationHistory, last.toolResults, last.assistantBlocks,
         InputOf(g), OutputOf(g), CachedReadOf(g), CachedCreatedOf(g), DurationOf(g), |g|)
  }

  /** Human granularity shows the step list, grouped at human boundaries, each group summed up. */
  ghost predicate Summarizes(turns: seq<Turn>, gs: seq<seq<Turn>>) {
    && |turns| == |gs|
    && forall i :: 0 <= i < |gs| ==> gs[i] != [] && turns[i] == Summary(gs[i], i)
  }

  lemma {:induction false} StepsAndFlags(es: seq<Envelope>)
    ensures |StepRun(es)| == |Flags(es)|
    ensures forall i :: 0 <= i < |StepRun(es)| ==> StepRun(es)[i].turnIndex == i && StepRun(es)[i].stepCount == 1
  {
    if es != [] {
      StepsAndFlags(es[..|es| - 1]);
    }
  }

  lemma SummarySnoc(g: seq<Turn>, step: Turn, position: nat)
    requires g != []
    ensures Summary(g + [step], position) == Absorb(Summary(g, position), step)
  {
    assert (g + [step])[..|g|] == g;
  }

  /** A group of one step is that step, put at the group's position. */
  lemma SummaryOne(step: Turn, position: nat)
    requires step.stepCount == 1
    ensures Summary([step], position) == step.(turnIndex := position)
  {
    var g := [step];
    assert g[..|g| - 1] == [];
    assert InputOf(g) == step.inputTokens && OutputOf(g) == step.outputTokens;
    assert CachedReadOf(g) == step.cachedReadTokens && CachedCreatedOf(g) == step.cachedCreatedTokens;
    assert DurationOf(g) == DurationOf(g[..|g| - 1]) + step.durationMs;
  }

  /** The index that a normalizer is given shows in the turn's index alone. */
  lemma NormalizedAlike(content: Turn, index: nat, other: nat)
    ensures Normalized(content, index).stepCount == 1
    ensures Normalized(content, index).(turnIndex := other) == Normalized(content, other)
    ensures forall active :: Absorb(active, Normalized(content, index)) == Absorb(active, Normalized(content, other))
  {
  }

  /** One more step keeps the human list the summary of the groups. */
  lemma HumanNextSummarizes(turns: seq<Turn>, gs: seq<seq<Turn>>, e: Envelope, index: nat)
    requires Summarizes(turns, gs) && e.content.Some?
    ensures var step := Normalized(e.content.value, index);
            Summarizes(HumanNext(turns, e),
                       if gs == [] || e.human then gs + [[step]] else gs[|gs| - 1 := gs[|gs| - 1] + [step]])
  {
    hide Summary, Absorb, Normalized;
    var step, k := Normalized(e.content.value, index), |gs|;
    NormalizedAlike(e.content.value, index, if turns == [] || e.human then k else k - 1);
    if gs == [] || e.human {
      SummaryOne(step, k);
      assert HumanNext(turns, e) == turns + [Summary([step], k)];
    } else {
      SummarySnoc(gs[k - 1], step, k - 1);
      assert HumanNext(turns, e) == turns[k - 1 := Summary(gs[k - 1] + [step], k - 1)];
    }
  }

  /** The refinement: for every run of envelopes, the human list is the summarized grouping of the step list. */
  lemma {:induction false} HumanRefinesStep(es: seq<Envelope>)
    ensures |StepRun(es)| == |Flags(es)|
    ensures Summarizes(HumanRun(es), Groups(StepRun(es), Flags(es)))
  {
    StepsAndFlags(es);
    if es != [] {
      var init, e := es[..|es| - 1], es[|es| - 1];
      HumanRefinesStep(init);
      if e.content.Some? {
        var steps, flags := StepRun(init), Flags(init);
        GroupsSnoc(steps, flags, Normalized(e.content.value, |steps|), e.human);
        HumanNextSummarizes(HumanRun(init), Groups(steps, flags), e, |steps|);
        assert StepRun(es) == steps + [Normalized(e.content.value, |steps|)] && Flags(es) == flags + [e.human];
      } else {
        assert Flags(es) == Flags(init);
      }
    }
  }

  lemma GroupsSnoc(steps: seq<Turn>, flags: seq<bool>, step: Turn, human: bool)
    requires |steps| == |flags|
    ensures var gs := Groups(steps, flags);
            Groups(steps + [step], flags + [human])
            == if gs == [] || human then gs + [[step]] else gs[|gs| - 1 := gs[|gs| - 1] + [step]]
  {
    assert (steps + [step])[..|steps|] == steps && (flags + [human])[..|steps|] == flags;
  }

  /** A step that opens a group of its own. */
  lemma OpenGroup(gs: seq<seq<Turn>>, steps: seq<Turn>, flags: seq<bool>, step: Turn, human: bool)
    requires |steps| == |flags| && IsGrouping(gs, steps, flags) && (gs == [] || human)
    ensures IsGrouping(gs + [[step]], steps + [step], flags + [human])
  {
    var gs', flags' := gs + [[step]], flags + [human];
    FlattenSnoc(gs, [step]);
    forall g | 0 <= g <= |gs| ensures gs'[..g] == gs[..g] {}
    assert gs[..|gs|] == gs;
    forall g | 0 < g < |gs'| ensures Opens(gs', g, flags') {
      if g < |gs| { assert Opens(gs, g, flags); }
    }
    forall g, j | 0 <= g < |gs'| && 0 < j < |gs'[g]| ensures Continues(gs', g, j, flags') {
      assert Continues(gs, g, j, flags);
    }
  }

  /** A step that joins the last group. */
  lemma JoinGroup(gs: seq<seq<Turn>>, steps: seq<Turn>, flags: seq<bool>, step: Turn)
    requires |steps| == |flags| && IsGrouping(gs, steps, flags) && gs != []
    ensures IsGrouping(gs[|gs| - 1 := gs[|gs| - 1] + [step]], steps + [step], flags + [false])
  {
    var k := |gs| - 1;
    var gs', flags' := gs[k := gs[k] + [step]], flags + [false];
    assert gs' == gs[..k] + [gs[k] + [step]] && gs == gs[..k] + [gs[k]];
    FlattenSnoc(gs[..k], gs[k] + [step]);
    FlattenSnoc(gs[..k], gs[k]);
    forall g | 0 <= g <= k ensures gs'[..g] == gs[..g] {}
    forall g | 0 < g < |gs'| ensures Opens(gs', g, flags') {
      assert Opens(gs, g, flags);
    }
    forall g, j | 0 <= g < |gs'| && 0 < j < |gs'[g]| ensures Continues(gs', g, j, flags') {
      if j < |gs[g]| { assert Continues(gs, g, j, flags); }
    }
  }

  /** Groups is a grouping, and the only one. */
  lemma {:induction false} GroupsIsGrouping(steps: seq<Turn>, flags: seq<bool>)
    requires |steps| == |flags|
    ensures IsGrouping(Groups(steps, flags), steps, flags)
  {
    if steps != [] {
      var n := |steps| - 1;
      var gs := Groups(steps[..n], flags[..n]);
      GroupsIsGrouping(steps[..n], flags[..n]);
      assert steps == steps[..n] + [steps[n]] && flags == flags[..n] + [flags[n]];
      if gs == [] || flags[n] {
        OpenGroup(gs, steps[..n], flags[..n], steps[n], flags[n]);
      } else {
        JoinGroup(gs, steps[..n], flags[..n], steps[n]);
      }
    }
  }

  /** The groups without their very last step. */
  function Shorten(gs: seq<seq<Turn>>): seq<seq<Turn>>
    requires gs != [] && gs[|gs| - 1] != []
  {
    var k := |gs| - 1;
    if |gs[k]| == 1 then gs[..k] else gs[..k] + [gs[k][..|gs[k]| - 1]]
  }

  /** Cutting the last step off the last group cuts it off the steps. */
  lemma ShortenLast(init: seq<seq<Turn>>, last: seq<Turn>)
    requires last != []
    ensures var n, whole := |last| - 1, Flatten(init) + last;
            && Flatten(init + [last]) == whole
            && Flatten(if n == 0 then init else init + [last[..n]]) == whole[..|whole| - 1]
  {
    FlattenSnoc(init, last);
    FlattenSnoc(init, last[..|last| - 1]);
  }

  lemma ShortenFlatten(gs: seq<seq<Turn>>, steps: seq<Turn>)
    requires gs != [] && gs[|gs| - 1] != [] && Flatten(gs) == steps
    ensures steps != [] && Flatten(Shorten(gs)) == steps[..|steps| - 1]
    ensures gs[|gs| - 1][|gs[|gs| - 1]| - 1] == steps[|steps| - 1]
    ensures Start(gs, |gs| - 1) + |gs[|gs| - 1]| == |steps|
  {
    var init, last := gs[..|gs| - 1], gs[|gs| - 1];
    assert gs == init + [last];
    ShortenLast(init, last);
    assert steps == Flatten(init) + last;
  }

  lemma ShortenIsGrouping(gs: seq<seq<Turn>>, steps: seq<Turn>, flags: seq<bool>)
    requires |steps| == |flags| && gs != []
    requires IsGrouping(gs, steps, flags)
    ensures steps != [] && IsGrouping(Shorten(gs), steps[..|steps| - 1], flags[..|steps| - 1])
  {
    ShortenFlatten(gs, steps);
    var n, shorter := |steps| - 1, Shorten(gs);
    forall g | 0 <= g < |shorter| ensures Start(shorter, g) == Start(gs, g) {
      assert shorter[..g] == gs[..g];
    }
    forall g | 0 < g < |shorter| ensures Opens(shorter, g, flags[..n]) {
      assert Opens(gs, g, flags);
      StartInside(shorter, g);
    }
    forall g, j | 0 <= g < |shorter| && 0 < j < |shorter[g]| ensures Continues(shorter, g, j, flags[..n]) {
      assert Continues(gs, g, j, flags);
      StartInside(shorter, g);
    }
  }

  lemma Restore(gs: seq<seq<Turn>>, steps: seq<Turn>, flags: seq<bool>)
    requires |steps| == |flags| && gs != []
    requires IsGrouping(gs, steps, flags)
    ensures steps != []
    ensures var s, n := Shorten(gs), |steps| - 1;
            gs == if s == [] || flags[n] then s + [[steps[n]]] else s[|s| - 1 := s[|s| - 1] + [steps[n]]]
  {
    hide Flatten, Start;
    ShortenFlatten(gs, steps);
    var k, last := |gs| - 1, gs[|gs| - 1];
    if |last| > 1 {
      assert Continues(gs, k, |last| - 1, flags);
    } else if k > 0 {
      assert Opens(gs, k, flags);
    }
    assert gs == gs[..k] + [last];
    assert last == last[..|last| - 1] + [steps[|steps| - 1]];
  }

  /** A grouping is determined by the steps and the flags. */
  lemma {:induction false} GroupingUnique(gs: seq<seq<Turn>>, steps: seq<Turn>, flags: seq<bool>)
    requires |steps| == |flags|
    requires IsGrouping(gs, steps, flags)
    ensures gs == Groups(steps, flags)
    decreases |steps|
  {
    if gs != [] {
      Restore(gs, steps, flags);
      ShortenIsGrouping(gs, steps, flags);
      GroupingUnique(Shorten(gs), steps[..|steps| - 1], flags[..|steps| - 1]);
    }
  }

  lemma StartInside(gs: seq<seq<Turn>>, g: nat)
    requires g < |gs|
    ensures Start(gs, g) + |gs[g]| <= |Flatten(gs)|
  {
    assert gs == gs[..g] + ([gs[g]] + gs[g + 1..]);
    FlattenAppend(gs[..g], [gs[g]] + gs[g + 1..]);
    FlattenAppend([gs[g]], gs[g + 1..]);
    assert Flatten([gs[g]]) == gs[g];
  }

  // ---------- nothing is lost in the rollup ----------

  ghost predicate SameTotals(a: seq<Turn>, b: seq<Turn>) {
    && InputOf(a) == InputOf(b) && OutputOf(a) == OutputOf(b)
    && CachedReadOf(a) == CachedReadOf(b) && CachedCreatedOf(a) == CachedCreatedOf(b)
    && DurationOf(a) == DurationOf(b) && StepsOf(a) == StepsOf(b)
  }

  lemma TotalsSnoc(a: seq<Turn>, b: seq<Turn>, x: Turn, y: Turn)
    requires SameTotals(a, b) && x == y.(turnIndex := x.turnIndex)
    ensures SameTotals(a + [x], b + [y])
  {
    assert (a + [x])[..|a|] == a && (b + [y])[..|b|] == b;
  }

  lemma TotalsAbsorb(a: seq<Turn>, b: seq<Turn>, step: Turn)
    requires a != [] && SameTotals(a, b) && step.stepCount == 1
    ensures SameTotals(a[|a| - 1 := Absorb(a[|a| - 1], step)], b + [step])
  {
    var init, active := a[..|a| - 1], a[|a| - 1];
    var a', b' := a[|a| - 1 := Absorb(active, step)], b + [step];
    assert a'[..|a'| - 1] == init && b'[..|b'| - 1] == b;
    assert InputOf(a') == InputOf(a) + step.inputTokens && OutputOf(a') == OutputOf(a) + step.outputTokens;
    assert DurationOf(a') == DurationOf(a) + step.durationMs && StepsOf(a') == StepsOf(a) + 1;
  }

  /** Both granularities account for the same tokens, cache traffic, time and steps. */
  lemma {:induction false} RollupConserves(es: seq<Envelope>)
    ensures SameTotals(HumanRun(es), StepRun(es))
  {
    if es != [] {
      RollupConserves(es[..|es| - 1]);
      var human, steps, e := HumanRun(es[..|es| - 1]), StepRun(es[..|es| - 1]), es[|es| - 1];
      if e.content.Some? {
        var step := Normalized(e.content.value, |steps|);
        if human == [] || e.human {
          TotalsSnoc(human, steps, Normalized(e.content.value, |human|), step);
        } else {
          TotalsAbsorb(human, steps, step);
          assert Absorb(human[|human| - 1], step) == Absorb(human[|human| - 1], Normalized(e.content.value, |human| - 1));
        }
      }
    }
  }

  /** The turns that the normalizers made of the envelopes. */
  function Contents(es: seq<Envelope>): seq<Turn> {
    if es == [] then []
    else Contents(es[..|es| - 1]) + (if es[|es| - 1].content.Some? then [es[|es| - 1].content.value] else [])
  }

  /** Step granularity lists exactly these turns: it sets their position and step count and nothing else. */
  lemma {:induction false} StepsAreContents(es: seq<Envelope>)
    ensures |StepRun(es)| == |Contents(es)|
    ensures forall i :: 0 <= i < |StepRun(es)| ==> StepRun(es)[i] == Contents(es)[i].(turnIndex := i, stepCount := 1)
  {
    if es != [] {
      StepsAreContents(es[..|es| - 1]);
    }
  }

  lemma {:induction false} TotalsAlike(a: seq<Turn>, b: seq<Turn>)
    requires |a| == |b| && forall i :: 0 <= i < |a| ==> a[i] == b[i].(turnIndex := i, stepCount := 1)
    ensures InputOf(a) == InputOf(b) && OutputOf(a) == OutputOf(b)
    ensures CachedReadOf(a) == CachedReadOf(b) && CachedCreatedOf(a) == CachedCreatedOf(b) && DurationOf(a) == DurationOf(b)
    ensures StepsOf(a) == |b|
  {
    if a != [] {
      TotalsAlike(a[..|a| - 1], b[..|b| - 1]);
    }
  }

  /** So both granularities account for what the normalizers counted, one step for each envelope they could read. */
  lemma RollupConservesContents(es: seq<Envelope>)
    ensures var turns, contents := HumanRun(es), Contents(es);
            && InputOf(turns) == InputOf(contents) && OutputOf(turns) == OutputOf(contents)
            && CachedReadOf(turns) == CachedReadOf(contents) && CachedCreatedOf(turns) == CachedCreatedOf(contents)
            && DurationOf(turns) == DurationOf(contents) && StepsOf(turns) == |contents|
  {
    RollupConserves(es);
    StepsAreContents(es);
    TotalsAlike(StepRun(es), Contents(es));
  }

  // ---------- the bridge as an object ----------

  ghost function Values(ts: seq<CanonicalTurn>): (r: seq<Turn>)
    reads ts
    ensures |r| == |ts| && forall i :: 0 <= i < |ts| ==> r[i] == ts[i].Value()
  {
    seq(|ts|, i requires 0 <= i < |ts| reads ts => ts[i].Value())
  }

  class CorePipelineBridge {
    const humanGranularity: bool
    var turns: seq<CanonicalTurn>  // the store's list for the session

    constructor (humanGranularity: bool)
      ensures this.humanGranularity == humanGranularity && turns == []
    {
      this.humanGranularity := humanGranularity;
      turns := [];
    }

    ghost predicate Valid()
      reads this
    {
      Distinct(turns)
    }

    method HandleCompleted(e: Envelope)
      requires Valid()
      modifies this, turns
      ensures Valid()
      ensures forall t :: t in turns ==> t in old(turns) || fresh(t)
      ensures Values(turns) == if humanGranularity then HumanNext(old(Values(turns)), e) else StepNext(old(Values(turns)), e)
    {
      if e.content.None? {
        return;
      }
      if humanGranularity && turns != [] && !e.human {
        var last := |turns| - 1;
        ghost var before := Values(turns);
        Accumulate(turns[last], Normalized(e.content.value, last));
        assert Values(turns) == before[last := Absorb(before[last], Normalized(e.content.value, last))];
      } else {
        AddNew(Normalized(e.content.value, |turns|));
      }
    }

    method AddNew(v: Turn)
      requires Valid()
      modifies this
      ensures Valid() && Values(turns) == old(Values(turns)) + [v]
      ensures |turns| == |old(turns)| + 1 && turns[..|old(turns)|] == old(turns) && fresh(turns[|old(turns)|])
    {
      var turn := new CanonicalTurn(v);
      turns := turns + [turn];
    }

    /** Adds a step's metrics to the active turn and hands it the step's blocks, in place. */
    method Accumulate(active: CanonicalTurn, stepValue: Turn)
      modifies active
      ensures active.Value() == Absorb(old(active.Value()), stepValue)
    {
      var step := new CanonicalTurn(stepValue);
      AddMetrics(active, step);
      active.systemBlocks := step.systemBlocks;
      active.toolDefs := step.toolDefs;
      active.conversationHistory := step.conversationHistory;
      active.toolResults := step.toolResults;
      active.assistantBlocks := step.assistantBlocks;
    }

    method AddMetrics(active: CanonicalTurn, step: CanonicalTurn)
      requires active != step
      modifies active
      ensures active.Value() == AddCounters(old(active.Value()), step.Value())
    {
      active.inputTokens := active.inputTokens + step.inputTokens;
      active.outputTokens := active.outputTokens + step.outputTokens;
      active.cachedReadTokens := active.cachedReadTokens + step.cachedReadTokens;
      active.cachedCreatedTokens := active.cachedCreatedTokens + step.cachedCreatedTokens;
      active.durationMs := active.durationMs + step.durationMs;
      active.stepCount := active.stepCount + 1;
    }
  }
}

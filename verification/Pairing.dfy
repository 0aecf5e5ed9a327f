/** Pairing tool calls with tool results inside one turn (src/schema/ast.py, CanonicalTurn.tool_invocations). */
module Pairing {
  import opened Collections
  import opened Blocks

  datatype ToolInvocation = ToolInvocation(
    callId: string,
    toolName: string,
    callBlockId: Option<string>,
    resultBlockId: Option<string>,
    isError: bool)

  predicate IsCall(b: Block) {
    b.callId != "" || b.metadata.kind in {"tool_use", "tool_call", "function_call"}
  }

  function CallBlocks(bs: seq<Block>): seq<Block> {
    if bs == [] then []
    else CallBlocks(bs[..|bs| - 1]) + (if IsCall(bs[|bs| - 1]) then [bs[|bs| - 1]] else [])
  }

  function ToolName(b: Block): string {
    if b.metadata.name != "" then b.metadata.name
    else if b.metadata.toolName != "" then b.metadata.toolName
    else b.metadata.tool
  }

  // How a pass compares a call with a result.
  datatype Criterion = ById | ByName

  /** The call and the result share a non-empty call id, or a non-empty tool name. */
  predicate Matches(how: Criterion, c: Block, r: Block) {
    match how
    case ById => c.callId != "" && r.callId == c.callId
    case ByName => ToolName(c) != "" && ToolName(r) == ToolName(c)
  }

  function OrElse(a: string, b: string): string {
    if a != "" then a else b
  }

  function Paired(callId: string, c: Block, r: Block): ToolInvocation {
    ToolInvocation(callId, OrElse(ToolName(c), ToolName(r)), Some(c.blockId), Some(r.blockId), r.metadata.flaggedError)
  }

  function OrphanCall(c: Block): ToolInvocation {
    ToolInvocation(OrElse(c.callId, "name:" + ToolName(c)), ToolName(c), Some(c.blockId), None, false)
  }

  function OrphanResult(r: Block): ToolInvocation {
    ToolInvocation(OrElse(r.callId, "orphan:" + r.blockId), ToolName(r), None, Some(r.blockId), r.metadata.flaggedError)
  }

  // ---------- the three passes on values ----------

  function CallsOf(invs: seq<ToolInvocation>): seq<string> {
    if invs == [] then []
    else CallsOf(invs[..|invs| - 1]) + (if invs[|invs| - 1].callBlockId.Some? then [invs[|invs| - 1].callBlockId.value] else [])
  }

  function ResultsOf(invs: seq<ToolInvocation>): seq<string> {
    if invs == [] then []
    else ResultsOf(invs[..|invs| - 1]) + (if invs[|invs| - 1].resultBlockId.Some? then [invs[|invs| - 1].resultBlockId.value] else [])
  }

  /** The first unused result that matches the call. */
  function FirstFree(how: Criterion, c: Block, results: seq<Block>, used: seq<string>): (r: Option<Block>)
    ensures r.Some? ==> r.value in results && r.value.blockId !in used && Matches(how, c, r.value)
    ensures r.None? ==> forall x :: x in results && Matches(how, c, x) ==> x.blockId in used
  {
    if results == [] then None
    else if Matches(how, c, results[0]) && results[0].blockId !in used then Some(results[0])
    else FirstFree(how, c, results[1..], used)
  }

  function IdStep(invs: seq<ToolInvocation>, c: Block, results: seq<Block>): seq<ToolInvocation> {
    match FirstFree(ById, c, results, ResultsOf(invs))
    case None => invs
    case Some(r) => invs + [Paired(c.callId, c, r)]
  }

  function IdPass(calls: seq<Block>, results: seq<Block>): seq<ToolInvocation> {
    if calls == [] then [] else IdStep(IdPass(calls[..|calls| - 1], results), calls[|calls| - 1], results)
  }

  function NameStep(invs: seq<ToolInvocation>, c: Block, results: seq<Block>): seq<ToolInvocation> {
    if c.blockId in CallsOf(invs) then invs
    else
      match FirstFree(ByName, c, results, ResultsOf(invs))
      case None => invs + [OrphanCall(c)]
      case Some(r) => invs + [Paired(OrElse(c.callId, "name:" + ToolName(c)), c, r)]
  }

  function NamePass(start: seq<ToolInvocation>, calls: seq<Block>, results: seq<Block>): seq<ToolInvocation> {
    if calls == [] then start else NameStep(NamePass(start, calls[..|calls| - 1], results), calls[|calls| - 1], results)
  }

  function RestPass(start: seq<ToolInvocation>, used: seq<string>, results: seq<Block>): seq<ToolInvocation> {
    if results == [] then start
    else
      RestPass(start, used, results[..|results| - 1])
      + (if results[|results| - 1].blockId in used then [] else [OrphanResult(results[|results| - 1])])
  }

  function Invocations(calls: seq<Block>, results: seq<Block>): seq<ToolInvocation> {
    var named := NamePass(IdPass(calls, results), calls, results);
    RestPass(named, ResultsOf(named), results)
  }

  // ---------- the loops ----------

  method FindFree(how: Criterion, c: Block, results: seq<Block>, used: set<string>, ghost usedList: seq<string>)
    returns (found: Option<Block>)
    requires forall id :: id in used <==> id in usedList
    ensures found == FirstFree(how, c, results, usedList)
  {
    for i := 0 to |results|
      invariant FirstFree(how, c, results, usedList) == FirstFree(how, c, results[i..], usedList)
    {
      if Matches(how, c, results[i]) && results[i].blockId !in used {
        return Some(results[i]);
      }
    }
    return None;
  }

  lemma OfSnoc(invs: seq<ToolInvocation>, x: ToolInvocation)
    ensures CallsOf(invs + [x]) == CallsOf(invs) + (if x.callBlockId.Some? then [x.callBlockId.value] else [])
    ensures ResultsOf(invs + [x]) == ResultsOf(invs) + (if x.resultBlockId.Some? then [x.resultBlockId.value] else [])
  {
    assert (invs + [x])[..|invs|] == invs;
  }

  ghost predicate SameIds(used: set<string>, ids: seq<string>) {
    forall id :: id in used <==> id in ids
  }

  method MatchById(calls: seq<Block>, results: seq<Block>)
    returns (invocations: seq<ToolInvocation>, usedCalls: set<string>, usedResults: set<string>)
    ensures invocations == IdPass(calls, results)
    ensures SameIds(usedCalls, CallsOf(invocations)) && SameIds(usedResults, ResultsOf(invocations))
  {
    invocations, usedCalls, usedResults := [], {}, {};
    for i := 0 to |calls|
      invariant invocations == IdPass(calls[..i], results)
      invariant SameIds(usedCalls, CallsOf(invocations)) && SameIds(usedResults, ResultsOf(invocations))
    {
      var c := calls[i];
      assert calls[..i + 1][..i] == calls[..i];
      var found := FindFree(ById, c, results, usedResults, ResultsOf(invocations));
      if found.Some? {
        OfSnoc(invocations, Paired(c.callId, c, found.value));
        usedCalls, usedResults := usedCalls + {c.blockId}, usedResults + {found.value.blockId};
        invocations := invocations + [Paired(c.callId, c, found.value)];
      }
    }
    assert calls[..|calls|] == calls;
  }

  method MatchByName(start: seq<ToolInvocation>, calls: seq<Block>, results: seq<Block>, used: set<string>, usedR: set<string>)
    returns (invocations: seq<ToolInvocation>, usedResults: set<string>)
    requires SameIds(used, CallsOf(start)) && SameIds(usedR, ResultsOf(start))
    ensures invocations == NamePass(start, calls, results)
    ensures SameIds(usedResults, ResultsOf(invocations))
  {
    var usedCalls := used;
    invocations, usedResults := start, usedR;
    for i := 0 to |calls|
      invariant invocations == NamePass(start, calls[..i], results)
      invariant SameIds(usedCalls, CallsOf(invocations)) && SameIds(usedResults, ResultsOf(invocations))
    {
      var c := calls[i];
      assert calls[..i + 1][..i] == calls[..i];
      if c.blockId in usedCalls {
        continue;
      }
      var found := FindFree(ByName, c, results, usedResults, ResultsOf(invocations));
      var invocation := if found.Some? then Paired(OrElse(c.callId, "name:" + ToolName(c)), c, found.value) else OrphanCall(c);
      OfSnoc(invocations, invocation);
      usedCalls := usedCalls + {c.blockId};
      if found.Some? {
        usedResults := usedResults + {found.value.blockId};
      }
      invocations := invocations + [invocation];
    }
    assert calls[..|calls|] == calls;
  }

  method ToolInvocations(turn: Turn) returns (invocations: seq<ToolInvocation>)
    ensures invocations == Invocations(CallBlocks(turn.conversationHistory + turn.assistantBlocks), turn.toolResults)
  {
    var calls, results := CallBlocks(turn.conversationHistory + turn.assistantBlocks), turn.toolResults;
    var byId, usedCalls, usedById := MatchById(calls, results);
    var named, used := MatchByName(byId, calls, results, usedCalls, usedById);
    invocations := named;
    for i := 0 to |results|
      invariant invocations == RestPass(named, ResultsOf(named), results[..i])
    {
      assert results[..i + 1][..i] == results[..i];
      if results[i].blockId !in used {
        invocations := invocations + [OrphanResult(results[i])];
      }
    }
    assert results[..|results|] == results;
  }

  // ---------- what the pairing guarantees ----------

  function PairsOf(invs: seq<ToolInvocation>): seq<ToolInvocation> {
    if invs == [] then []
    else
      var last := invs[|invs| - 1];
      PairsOf(invs[..|invs| - 1]) + (if last.callBlockId.Some? && last.resultBlockId.Some? then [last] else [])
  }

  /** An invocation names a call, a result, or a call and a result that match. */
  ghost predicate Explained(inv: ToolInvocation, calls: seq<Block>, results: seq<Block>) {
    && (inv.callBlockId.Some? || inv.resultBlockId.Some?)
    && (inv.callBlockId.Some? ==> exists c :: c in calls && inv.callBlockId == Some(c.blockId))
    && (inv.resultBlockId.Some? ==> exists r :: r in results && inv.resultBlockId == Some(r.blockId))
    && (inv.callBlockId.Some? && inv.resultBlockId.Some? ==> Pairs(inv, calls, results))
  }

  ghost predicate Pairs(inv: ToolInvocation, calls: seq<Block>, results: seq<Block>) {
    exists c, r, how :: c in calls && r in results && Matches(how, c, r)
                     && inv.callBlockId == Some(c.blockId) && inv.resultBlockId == Some(r.blockId)
  }

  ghost predicate Sound(invs: seq<ToolInvocation>, calls: seq<Block>, results: seq<Block>) {
    && (forall inv :: inv in invs ==> Explained(inv, calls, results))
    && Distinct(CallsOf(invs)) && Distinct(ResultsOf(invs))
    && |invs| == |CallsOf(invs)| + |ResultsOf(invs)| - |PairsOf(invs)|
  }

  lemma SoundSnoc(invs: seq<ToolInvocation>, x: ToolInvocation, calls: seq<Block>, results: seq<Block>)
    requires Sound(invs, calls, results) && Explained(x, calls, results)
    requires x.callBlockId.Some? ==> x.callBlockId.value !in CallsOf(invs)
    requires x.resultBlockId.Some? ==> x.resultBlockId.value !in ResultsOf(invs)
    ensures Sound(invs + [x], calls, results)
  {
    OfSnoc(invs, x);
    assert (invs + [x])[..|invs|] == invs;
  }

  /** Of a matching call and result, the call has been paired or the result is taken. */
  ghost predicate Maximal(how: Criterion, invs: seq<ToolInvocation>, calls: seq<Block>, results: seq<Block>) {
    forall c, r :: c in calls && r in results && Matches(how, c, r)
      ==> c.blockId in CallsOf(PairsOf(invs)) || r.blockId in ResultsOf(invs)
  }

  /** In an id pass every entry is a pair. */
  lemma {:induction false} IdPassPairs(calls: seq<Block>, results: seq<Block>)
    ensures PairsOf(IdPass(calls, results)) == IdPass(calls, results)
    ensures forall id :: id in CallsOf(IdPass(calls, results)) ==> id in Ids(calls)
  {
    if calls != [] {
      var init, c := calls[..|calls| - 1], calls[|calls| - 1];
      IdPassPairs(init, results);
      var invs := IdPass(init, results);
      match FirstFree(ById, c, results, ResultsOf(invs)) {
        case None =>
        case Some(r) =>
          OfSnoc(invs, Paired(c.callId, c, r));
          assert (invs + [Paired(c.callId, c, r)])[..|invs|] == invs;
      }
    }
  }

  /** One call of the id pass. */
  lemma IdStepKeeps(invs: seq<ToolInvocation>, met: seq<Block>, c: Block, all: seq<Block>, results: seq<Block>)
    requires Sound(invs, all, results) && c in all && c.blockId !in CallsOf(invs)
    requires Maximal(ById, invs, met, results)
    ensures Sound(IdStep(invs, c, results), all, results)
    ensures Maximal(ById, IdStep(invs, c, results), met + [c], results)
  {
    match FirstFree(ById, c, results, ResultsOf(invs)) {
      case None =>
      case Some(r) =>
        var x := Paired(c.callId, c, r);
        assert Matches(ById, c, r);
        assert Pairs(x, all, results);
        SoundSnoc(invs, x, all, results);
        OfSnoc(invs, x);
        PairsSnoc(invs, x);
    }
  }

  /** After the id pass no call and result that share a call id are both unpaired. */
  lemma {:induction false} IdPassIsMaximal(calls: seq<Block>, all: seq<Block>, results: seq<Block>)
    requires Distinct(Ids(calls)) && calls <= all
    ensures Sound(IdPass(calls, results), all, results)
    ensures Maximal(ById, IdPass(calls, results), calls, results)
  {
    if calls != [] {
      var init, c := calls[..|calls| - 1], calls[|calls| - 1];
      assert calls == init + [c] && c in all;
      DistinctIdsSplit(init, c);
      IdPassIsMaximal(init, all, results);
      IdPassPairs(init, results);
      IdStepKeeps(IdPass(init, results), init, c, all, results);
    }
  }

  lemma PairsSnoc(invs: seq<ToolInvocation>, x: ToolInvocation)
    ensures PairsOf(invs + [x])
         == PairsOf(invs) + (if x.callBlockId.Some? && x.resultBlockId.Some? then [x] else [])
    ensures CallsOf(PairsOf(invs + [x]))
         == CallsOf(PairsOf(invs)) + (if x.callBlockId.Some? && x.resultBlockId.Some? then [x.callBlockId.value] else [])
  {
    assert (invs + [x])[..|invs|] == invs;
    OfSnoc(PairsOf(invs), x);
    assert PairsOf(invs) + [] == PairsOf(invs);
  }

  /** Every matching call already met is paired, or the result is taken, whatever joins the list. */
  lemma MaximalGrows(how: Criterion, invs: seq<ToolInvocation>, x: ToolInvocation, calls: seq<Block>, results: seq<Block>)
    requires Maximal(how, invs, calls, results)
    ensures Maximal(how, invs + [x], calls, results)
  {
    OfSnoc(invs, x);
    PairsSnoc(invs, x);
  }

  /** The entry that the name pass makes for a call that is not paired yet. */
  function NameEntry(invs: seq<ToolInvocation>, c: Block, results: seq<Block>): ToolInvocation {
    match FirstFree(ByName, c, results, ResultsOf(invs))
    case None => OrphanCall(c)
    case Some(r) => Paired(OrElse(c.callId, "name:" + ToolName(c)), c, r)
  }

  lemma NameEntrySound(invs: seq<ToolInvocation>, c: Block, all: seq<Block>, results: seq<Block>)
    requires Sound(invs, all, results) && c in all && c.blockId !in CallsOf(invs)
    ensures NameStep(invs, c, results) == invs + [NameEntry(invs, c, results)]
    ensures Sound(invs + [NameEntry(invs, c, results)], all, results)
  {
    var free, x := FirstFree(ByName, c, results, ResultsOf(invs)), NameEntry(invs, c, results);
    if free.Some? {
      assert Matches(ByName, c, free.value);
      assert Pairs(x, all, results);
    }
    SoundSnoc(invs, x, all, results);
  }

  lemma NameEntryMaximal(invs: seq<ToolInvocation>, met: seq<Block>, c: Block, results: seq<Block>)
    requires Maximal(ByName, invs, met, results)
    ensures Maximal(ByName, invs + [NameEntry(invs, c, results)], met + [c], results)
  {
    var x := NameEntry(invs, c, results);
    MaximalGrows(ByName, invs, x, met, results);
    OfSnoc(invs, x);
    PairsSnoc(invs, x);
  }

  /** What the name pass keeps: the list so far is sound and no matching pair of met blocks is left over. */
  ghost predicate NameInv(invs: seq<ToolInvocation>, met: seq<Block>, all: seq<Block>, results: seq<Block>) {
    Sound(invs, all, results) && Maximal(ById, invs, all, results) && Maximal(ByName, invs, met, results)
  }

  lemma NamePairedCall(invs: seq<ToolInvocation>, met: seq<Block>, c: Block, all: seq<Block>, results: seq<Block>)
    requires NameInv(invs, met, all, results) && c.blockId in CallsOf(PairsOf(invs))
    ensures NameInv(invs, met + [c], all, results)
  {
  }

  lemma NameNewCall(invs: seq<ToolInvocation>, met: seq<Block>, c: Block, all: seq<Block>, results: seq<Block>)
    requires NameInv(invs, met, all, results) && c in all && c.blockId !in CallsOf(invs)
    ensures NameInv(invs + [NameEntry(invs, c, results)], met + [c], all, results)
    ensures NameStep(invs, c, results) == invs + [NameEntry(invs, c, results)]
  {
    NameEntrySound(invs, c, all, results);
    NameEntryMaximal(invs, met, c, results);
    MaximalGrows(ById, invs, NameEntry(invs, c, results), all, results);
  }

  lemma NameEntryIds(invs: seq<ToolInvocation>, c: Block, results: seq<Block>)
    ensures var invs' := invs + [NameEntry(invs, c, results)];
            && CallsOf(invs') == CallsOf(invs) + [c.blockId]
            && CallsOf(PairsOf(invs)) <= CallsOf(PairsOf(invs'))
  {
    OfSnoc(invs, NameEntry(invs, c, results));
    PairsSnoc(invs, NameEntry(invs, c, results));
  }

  /** The calls listed are those of the id pass and those met, and the former are all paired. */
  ghost predicate NameListed(byId: seq<ToolInvocation>, invs: seq<ToolInvocation>, met: seq<Block>) {
    && (forall id :: id in CallsOf(invs) <==> id in CallsOf(byId) || id in Ids(met))
    && (forall id :: id in CallsOf(byId) ==> id in CallsOf(PairsOf(invs)))
  }

  lemma NameStepLists(byId: seq<ToolInvocation>, invs: seq<ToolInvocation>, met: seq<Block>, c: Block, results: seq<Block>)
    requires NameListed(byId, invs, met)
    ensures c.blockId in CallsOf(invs) ==> NameListed(byId, invs, met + [c])
    ensures c.blockId !in CallsOf(invs) ==> NameListed(byId, invs + [NameEntry(invs, c, results)], met + [c])
  {
    NameEntryIds(invs, c, results);
    IdsSnoc(met, c);
  }

  /** One call of the name pass. */
  lemma NameStepKeeps(byId: seq<ToolInvocation>, invs: seq<ToolInvocation>, met: seq<Block>, c: Block,
                      all: seq<Block>, results: seq<Block>)
    requires NameInv(invs, met, all, results) && NameListed(byId, invs, met)
    requires c in all && c.blockId !in Ids(met)
    ensures NameInv(NameStep(invs, c, results), met + [c], all, results)
    ensures NameListed(byId, NameStep(invs, c, results), met + [c])
  {
    NameStepLists(byId, invs, met, c, results);
    if c.blockId in CallsOf(invs) {
      NamePairedCall(invs, met, c, all, results);
    } else {
      NameNewCall(invs, met, c, all, results);
    }
  }

  lemma NamePassStarts(calls: seq<Block>, results: seq<Block>)
    requires Distinct(Ids(calls))
    ensures var byId := IdPass(calls, results); NameInv(byId, [], calls, results) && NameListed(byId, byId, [])
  {
    hide IdPass, Distinct;
    IdPassIsMaximal(calls, calls, results);
    IdPassPairs(calls, results);
  }

  /** After the name pass every call is listed once, and no call is left over that could still be paired. */
  lemma {:induction false} NamePassIsMaximal(calls: seq<Block>, all: seq<Block>, results: seq<Block>)
    requires Distinct(Ids(all)) && calls <= all
    ensures var byId, invs := IdPass(all, results), NamePass(IdPass(all, results), calls, results);
            NameInv(invs, calls, all, results) && NameListed(byId, invs, calls)
  {
    hide NameInv, NameListed, NameStep, IdPass, Distinct;
    var byId := IdPass(all, results);
    if calls == [] {
      NamePassStarts(all, results);
    } else {
      var init, c := calls[..|calls| - 1], calls[|calls| - 1];
      NamePassIsMaximal(init, all, results);
      assert calls == init + [c] && c in calls;
      PrefixDistinct(calls, all);
      DistinctIdsSplit(init, c);
      NameStepKeeps(byId, NamePass(byId, init, results), init, c, all, results);
    }
  }

  lemma {:induction false} PrefixDistinct(a: seq<Block>, b: seq<Block>)
    requires a <= b && Distinct(Ids(b))
    ensures Distinct(Ids(a))
  {
    IdsAt(a);
    IdsAt(b);
    forall i, j | 0 <= i < j < |a| ensures Ids(a)[i] != Ids(a)[j] {
      assert a[i] == b[i] && a[j] == b[j] && Ids(b)[i] != Ids(b)[j];
    }
  }

  /** The last pass lists exactly the results that no pair has taken. */
  lemma {:induction false} RestPassAddsRest(start: seq<ToolInvocation>, calls: seq<Block>, results: seq<Block>, all: seq<Block>)
    requires Sound(start, calls, all) && Distinct(Ids(results)) && results <= all
    ensures var invs := RestPass(start, ResultsOf(start), results);
            && Sound(invs, calls, all)
            && CallsOf(invs) == CallsOf(start) && PairsOf(invs) == PairsOf(start)
            && (forall id :: id in ResultsOf(invs) <==> id in ResultsOf(start) || id in Ids(results))
  {
    if results != [] {
      var init, r := results[..|results| - 1], results[|results| - 1];
      assert results == init + [r] && r in all;
      DistinctIdsSplit(init, r);
      RestPassAddsRest(start, calls, init, all);
      var invs := RestPass(start, ResultsOf(start), init);
      assert r.blockId in ResultsOf(start) ==> RestPass(start, ResultsOf(start), results) == invs;
      if r.blockId !in ResultsOf(start) {
        assert r.blockId !in ResultsOf(invs);
        assert Explained(OrphanResult(r), calls, all);
        OfSnoc(invs, OrphanResult(r));
        PairsSnoc(invs, OrphanResult(r));
        SoundSnoc(invs, OrphanResult(r), calls, all);
      }
    }
  }

  lemma {:induction false} CardinalityOfDistinct<T>(s: seq<T>)
    requires Distinct(s)
    ensures |Elements(s)| == |s|
  {
    if s != [] {
      var init, last := s[..|s| - 1], s[|s| - 1];
      CardinalityOfDistinct(init);
      assert s == init + [last];
      assert Elements(s) == Elements(init) + {last};
    }
  }

  lemma SameElementsSameLength<T>(a: seq<T>, b: seq<T>)
    requires Distinct(a) && Distinct(b) && forall x :: x in a <==> x in b
    ensures |a| == |b|
  {
    CardinalityOfDistinct(a);
    CardinalityOfDistinct(b);
    assert Elements(a) == Elements(b);
  }

  /**
   * With unique block ids the invocations list every call and every result exactly once, pair only calls
   * and results that match, leave no matching call and result both unpaired, and number calls plus
   * results minus pairs.
   */
  lemma PairingIsMaximalMatching(calls: seq<Block>, results: seq<Block>)
    requires Distinct(Ids(calls)) && Distinct(Ids(results))
    ensures var invs := Invocations(calls, results);
            && (forall inv :: inv in invs ==> Explained(inv, calls, results))
            && Distinct(CallsOf(invs)) && (forall id :: id in CallsOf(invs) <==> id in Ids(calls))
            && Distinct(ResultsOf(invs)) && (forall id :: id in ResultsOf(invs) <==> id in Ids(results))
            && |invs| == |calls| + |results| - |PairsOf(invs)|
            && forall how, c, r :: c in calls && r in results && Matches(how, c, r)
                 ==> c.blockId in CallsOf(PairsOf(invs)) || r.blockId in ResultsOf(PairsOf(invs))
  {
    var named, invs := NamePass(IdPass(calls, results), calls, results), Invocations(calls, results);
    NamedIsMaximal(calls, results);
    RestPassAddsRest(named, calls, results, results);
    SameElementsSameLength(CallsOf(invs), Ids(calls));
    SameElementsSameLength(ResultsOf(invs), Ids(results));
    IdsAt(calls);
    IdsAt(results);
    forall how, c, r | c in calls && r in results && Matches(how, c, r)
      ensures c.blockId in CallsOf(PairsOf(invs)) || r.blockId in ResultsOf(PairsOf(invs))
    {
      assert Maximal(how, named, calls, results);
    }
  }

  /** What holds before the last pass. */
  lemma NamedIsMaximal(calls: seq<Block>, results: seq<Block>)
    requires Distinct(Ids(calls)) && Distinct(Ids(results))
    ensures var named := NamePass(IdPass(calls, results), calls, results);
            && Sound(named, calls, results)
            && (forall how :: Maximal(how, named, calls, results))
            && (forall id :: id in CallsOf(named) <==> id in Ids(calls))
            && (forall id :: id in ResultsOf(named) ==> id in Ids(results))
            && ResultsOf(PairsOf(named)) == ResultsOf(named)
  {
    var named := NamePass(IdPass(calls, results), calls, results);
    NamePassIsMaximal(calls, calls, results);
    IdPassPairs(calls, results);
    forall id | id in ResultsOf(named) ensures id in Ids(results) { ResultsAreResults(named, calls, results, id); }
    NamePassResults(IdPass(calls, results), calls, results);
    forall how ensures Maximal(how, named, calls, results) {
      assert how == ById || how == ByName;
    }
  }

  lemma {:induction false} ResultsAreResults(invs: seq<ToolInvocation>, calls: seq<Block>, results: seq<Block>, id: string)
    requires forall inv :: inv in invs ==> Explained(inv, calls, results)
    requires id in ResultsOf(invs)
    ensures id in Ids(results)
  {
    IdsMeans(results, id);
    var init, last := invs[..|invs| - 1], invs[|invs| - 1];
    assert last in invs && Explained(last, calls, results);
    if last.resultBlockId != Some(id) {
      ResultsAreResults(init, calls, results, id);
    }
  }

  /** Before the last pass only pairs take results. */
  lemma {:induction false} NamePassResults(start: seq<ToolInvocation>, calls: seq<Block>, results: seq<Block>)
    requires ResultsOf(PairsOf(start)) == ResultsOf(start)
    ensures var named := NamePass(start, calls, results);
            ResultsOf(PairsOf(named)) == ResultsOf(named)
  {
    if calls != [] {
      var init, c := calls[..|calls| - 1], calls[|calls| - 1];
      NamePassResults(start, init, results);
      var invs := NamePass(start, init, results);
      if c.blockId !in CallsOf(invs) {
        var free := FirstFree(ByName, c, results, ResultsOf(invs));
        var x := if free.Some? then Paired(OrElse(c.callId, "name:" + ToolName(c)), c, free.value) else OrphanCall(c);
        OfSnoc(invs, x);
        PairsSnoc(invs, x);
        OfSnoc(PairsOf(invs), x);
        assert free.None? ==> PairsOf(invs + [x]) == PairsOf(invs);
      }
    }
  }

  /** Call ids have priority: right after the id pass no unpaired call and result share one. */
  lemma IdsComeFirst(calls: seq<Block>, results: seq<Block>)
    requires Distinct(Ids(calls))
    ensures IdPass(calls, results) <= Invocations(calls, results)
    ensures forall c, r :: c in calls && r in results && Matches(ById, c, r)
              ==> c.blockId in CallsOf(IdPass(calls, results)) || r.blockId in ResultsOf(IdPass(calls, results))
  {
    IdPassIsMaximal(calls, calls, results);
    IdPassPairs(calls, results);
    NamePassExtends(IdPass(calls, results), calls, results);
    var named := NamePass(IdPass(calls, results), calls, results);
    RestPassExtends(named, ResultsOf(named), results);
  }

  lemma {:induction false} NamePassExtends(start: seq<ToolInvocation>, calls: seq<Block>, results: seq<Block>)
    ensures start <= NamePass(start, calls, results)
  {
    if calls != [] {
      NamePassExtends(start, calls[..|calls| - 1], results);
    }
  }

  lemma {:induction false} RestPassExtends(start: seq<ToolInvocation>, used: seq<string>, results: seq<Block>)
    ensures start <= RestPass(start, used, results)
  {
    if results != [] {
      RestPassExtends(start, used, results[..|results| - 1]);
    }
  }
  // ---------- what each entry says ----------

  /** The calls are the blocks with a call id or a call's kind, in order. */
  lemma {:induction false} CallBlocksMean(bs: seq<Block>) returns (at: seq<int>)
    ensures StrictlyIncreasing(at) && |at| == |CallBlocks(bs)|
    ensures forall k :: 0 <= k < |at| ==> 0 <= at[k] < |bs| && CallBlocks(bs)[k] == bs[at[k]]
    ensures forall i :: 0 <= i < |bs| ==>
              (i in at <==> bs[i].callId != "" || bs[i].metadata.kind in {"tool_use", "tool_call", "function_call"})
  {
    at := [];
    if bs != [] {
      at := CallBlocksMean(bs[..|bs| - 1]);
      if IsCall(bs[|bs| - 1]) {
        at := at + [|bs| - 1];
      }
    }
  }

  /** A tool's name is its name entry, or else its tool_name entry, or else its tool entry. */
  lemma ToolNameMeans(b: Block)
    ensures b.metadata.name != "" ==> ToolName(b) == b.metadata.name
    ensures b.metadata.name == "" && b.metadata.toolName != "" ==> ToolName(b) == b.metadata.toolName
    ensures b.metadata.name == "" && b.metadata.toolName == "" ==> ToolName(b) == b.metadata.tool
  {
  }

  /** A pair as it is listed: the call's id or a stand-in, a tool name if either has one, and the result's error marker. */
  ghost predicate IsPair(inv: ToolInvocation, how: Criterion, c: Block, r: Block) {
    && Matches(how, c, r)
    && inv.callBlockId == Some(c.blockId) && inv.resultBlockId == Some(r.blockId)
    && (c.callId != "" ==> inv.callId == c.callId)
    && (c.callId == "" ==> inv.callId == "name:" + ToolName(c))
    && (ToolName(c) != "" ==> inv.toolName == ToolName(c))
    && (ToolName(c) == "" ==> inv.toolName == ToolName(r))
    && inv.isError == r.metadata.flaggedError
  }

  ghost predicate IsLoneCall(inv: ToolInvocation, c: Block) {
    && inv.callBlockId == Some(c.blockId) && inv.resultBlockId == None
    && inv.callId == (if c.callId != "" then c.callId else "name:" + ToolName(c))
    && inv.toolName == ToolName(c) && !inv.isError
  }

  ghost predicate IsLoneResult(inv: ToolInvocation, r: Block) {
    && inv.callBlockId == None && inv.resultBlockId == Some(r.blockId)
    && inv.callId == (if r.callId != "" then r.callId else "orphan:" + r.blockId)
    && inv.toolName == ToolName(r) && inv.isError == r.metadata.flaggedError
  }

  /** Every result before position i that matches the call was taken by an earlier entry. */
  ghost predicate TakenBefore(how: Criterion, c: Block, results: seq<Block>, i: nat, before: seq<ToolInvocation>) {
    forall j :: 0 <= j < i && j < |results| && Matches(how, c, results[j]) ==> results[j].blockId in ResultsOf(before)
  }

  /** The call has the earliest free result that matches it. */
  ghost predicate TakesEarliest(inv: ToolInvocation, how: Criterion, c: Block, results: seq<Block>, before: seq<ToolInvocation>) {
    exists i :: 0 <= i < |results| && IsPair(inv, how, c, results[i])
             && results[i].blockId !in ResultsOf(before) && TakenBefore(how, c, results, i, before)
  }

  /**
   * An entry that follows the given ones: a call with the earliest free result that matches it by id or by name, a call
   * for which no result is free, or a result that no entry has taken.
   */
  ghost predicate Follows(inv: ToolInvocation, calls: seq<Block>, results: seq<Block>, before: seq<ToolInvocation>) {
    || (exists c, how :: c in calls && TakesEarliest(inv, how, c, results, before))
    || (exists c :: c in calls && IsLoneCall(inv, c) && TakenBefore(ByName, c, results, |results|, before))
    || (exists r :: r in results && IsLoneResult(inv, r) && r.blockId !in ResultsOf(before))
  }

  ghost predicate AllFollow(invs: seq<ToolInvocation>, calls: seq<Block>, results: seq<Block>) {
    forall k :: 0 <= k < |invs| ==> Follows(invs[k], calls, results, invs[..k])
  }

  lemma AllFollowSnoc(invs: seq<ToolInvocation>, x: ToolInvocation, calls: seq<Block>, results: seq<Block>)
    requires AllFollow(invs, calls, results) && Follows(x, calls, results, invs)
    ensures AllFollow(invs + [x], calls, results)
  {
    hide Follows;
    var all := invs + [x];
    forall k | 0 <= k < |all| ensures Follows(all[k], calls, results, all[..k]) {
      assert all[..k] == invs[..k];
      assert k == |invs| ==> invs[..k] == invs;
    }
  }

  lemma {:induction false} FirstFreeIsEarliest(how: Criterion, c: Block, results: seq<Block>, used: seq<string>) returns (i: nat)
    requires FirstFree(how, c, results, used).Some?
    ensures i < |results| && FirstFree(how, c, results, used) == Some(results[i])
    ensures forall j :: 0 <= j < i && Matches(how, c, results[j]) ==> results[j].blockId in used
  {
    if Matches(how, c, results[0]) && results[0].blockId !in used {
      i := 0;
    } else {
      var k := FirstFreeIsEarliest(how, c, results[1..], used);
      i := k + 1;
      assert forall j :: 1 <= j < i ==> results[j] == results[1..][j - 1];
    }
  }

  lemma PairFollows(invs: seq<ToolInvocation>, how: Criterion, callId: string, c: Block, calls: seq<Block>, results: seq<Block>)
    requires c in calls && FirstFree(how, c, results, ResultsOf(invs)).Some?
    requires callId == if c.callId != "" then c.callId else "name:" + ToolName(c)
    ensures Follows(Paired(callId, c, FirstFree(how, c, results, ResultsOf(invs)).value), calls, results, invs)
  {
    hide ResultsOf, Matches, ToolName;
    var i := FirstFreeIsEarliest(how, c, results, ResultsOf(invs));
    var x := Paired(callId, c, results[i]);
    assert IsPair(x, how, c, results[i]);
    assert TakenBefore(how, c, results, i, invs);
    assert TakesEarliest(x, how, c, results, invs);
  }

  lemma {:induction false} IdPassFollows(calls: seq<Block>, all: seq<Block>, results: seq<Block>)
    requires forall c :: c in calls ==> c in all
    ensures AllFollow(IdPass(calls, results), all, results)
  {
    hide AllFollow, Follows, FirstFree;
    if calls == [] {
      NothingFollows(all, results);
    } else {
      var init, c := calls[..|calls| - 1], calls[|calls| - 1];
      IdPassFollows(init, all, results);
      var invs := IdPass(init, results);
      var free := FirstFree(ById, c, results, ResultsOf(invs));
      if free.Some? {
        assert Matches(ById, c, free.value);
        PairFollows(invs, ById, c.callId, c, all, results);
        AllFollowSnoc(invs, Paired(c.callId, c, free.value), all, results);
      }
    }
  }

  lemma NothingFollows(calls: seq<Block>, results: seq<Block>)
    ensures AllFollow([], calls, results)
  {
  }

  lemma {:induction false} NamePassFollows(start: seq<ToolInvocation>, calls: seq<Block>, all: seq<Block>, results: seq<Block>)
    requires AllFollow(start, all, results) && forall c :: c in calls ==> c in all
    ensures AllFollow(NamePass(start, calls, results), all, results)
  {
    hide AllFollow, FirstFree;
    if calls != [] {
      var init, c := calls[..|calls| - 1], calls[|calls| - 1];
      NamePassFollows(start, init, all, results);
      var invs := NamePass(start, init, results);
      if c.blockId !in CallsOf(invs) {
        var free := FirstFree(ByName, c, results, ResultsOf(invs));
        if free.Some? {
          PairFollows(invs, ByName, OrElse(c.callId, "name:" + ToolName(c)), c, all, results);
          AllFollowSnoc(invs, Paired(OrElse(c.callId, "name:" + ToolName(c)), c, free.value), all, results);
        } else {
          assert IsLoneCall(OrphanCall(c), c) && TakenBefore(ByName, c, results, |results|, invs);
          AllFollowSnoc(invs, OrphanCall(c), all, results);
        }
      }
    }
  }

  lemma {:induction false} RestPassFollows(start: seq<ToolInvocation>, calls: seq<Block>, results: seq<Block>, all: seq<Block>)
    requires AllFollow(start, calls, all) && Distinct(Ids(results)) && forall r :: r in results ==> r in all
    ensures AllFollow(RestPass(start, ResultsOf(start), results), calls, all)
    ensures forall id :: id in ResultsOf(RestPass(start, ResultsOf(start), results)) ==> id in ResultsOf(start) || id in Ids(results)
  {
    hide AllFollow;
    if results != [] {
      var init, r := results[..|results| - 1], results[|results| - 1];
      assert results == init + [r];
      DistinctIdsSplit(init, r);
      RestPassFollows(start, calls, init, all);
      var invs := RestPass(start, ResultsOf(start), init);
      if r.blockId in ResultsOf(start) {
        assert invs + [] == invs;
      } else {
        OfSnoc(invs, OrphanResult(r));
        assert IsLoneResult(OrphanResult(r), r) && r.blockId !in ResultsOf(invs);
        AllFollowSnoc(invs, OrphanResult(r), calls, all);
      }
    }
  }

  /**
   * Every entry is as it should be, given those before it: which result a call gets, the ids, the tool name and the error
   * marker.
   */
  lemma EveryEntryFollows(calls: seq<Block>, results: seq<Block>)
    requires Distinct(Ids(results))
    ensures AllFollow(Invocations(calls, results), calls, results)
  {
    IdPassFollows(calls, calls, results);
    NamePassFollows(IdPass(calls, results), calls, calls, results);
    RestPassFollows(NamePass(IdPass(calls, results), calls, results), calls, results, results);
  }
}

/** The zombie rule's own count of how long a tool result has survived (src/core/analyzer/heuristics/zombie_context.py). */
module Zombie {
  import opened Collections
  import opened Blocks
  import opened Lineage
  import opened LineageDiff

  /** The rule takes t for an earlier copy of r. */
  predicate IsCopy(t: Block, r: Block) {
    || t.blockId == r.blockId
    || t.contentHash == r.contentHash
    || (t.identityKey != "" && t.identityKey == r.identityKey)
  }

  predicate HasCopy(ts: seq<Block>, r: Block) {
    exists t :: t in ts && IsCopy(t, r)
  }

  /** Number of turns just before the current one, in a row, whose tool results have a copy of r. */
  function Recount(previous: seq<Turn>, r: Block): nat {
    if previous == [] || !HasCopy(previous[|previous| - 1].toolResults, r) then 0
    else Recount(previous[..|previous| - 1], r) + 1
  }

  // A turn under analysis: the turns before it, its tool results and the survival count each carries,
  // the rule's two thresholds, and which results recent text refers to.
  datatype Case = Case(
    previous: seq<Turn>,
    results: seq<Block>,
    survived: seq<nat>,
    minTurns: int,
    minTokens: int,
    isReferenced: Block -> bool)

  function Max(a: nat, b: nat): nat {
    if a >= b then a else b
  }

  /** The ids of the results the rule reports. */
  function Reported(c: Case, n: nat): seq<string>
    requires |c.survived| == |c.results| && n <= |c.results|
  {
    if n == 0 then []
    else
      var r := c.results[n - 1];
      Reported(c, n - 1)
      + (if r.tokenCount > c.minTokens && Max(c.survived[n - 1], Recount(c.previous, r)) >= c.minTurns && !c.isReferenced(r)
         then [r.blockId] else [])
  }

  method CountConsecutive(previous: seq<Turn>, r: Block) returns (count: nat)
    ensures count == Recount(previous, r)
  {
    count := 0;
    var i := |previous|;
    assert previous[..i] == previous;
    while i > 0
      invariant 0 <= i <= |previous|
      invariant Recount(previous, r) == count + Recount(previous[..i], r)
    {
      assert previous[..i][..i - 1] == previous[..i - 1];
      if !HasCopy(previous[i - 1].toolResults, r) {
        return;
      }
      count := count + 1;
      i := i - 1;
    }
  }

  method Analyze(c: Case) returns (reported: seq<string>)
    requires |c.survived| == |c.results|
    ensures reported == Reported(c, |c.results|)
  {
    reported := [];
    for i := 0 to |c.results|
      invariant reported == Reported(c, i)
    {
      var r := c.results[i];
      if r.tokenCount <= c.minTokens {
        continue;
      }
      var count := CountConsecutive(c.previous, r);
      if Max(c.survived[i], count) < c.minTurns || c.isReferenced(r) {
        continue;
      }
      reported := reported + [r.blockId];
    }
  }

  // ---------- the recount against the cached count ----------

  /** Blocks typed as tool results stand among the tool results and have a hash. */
  ghost predicate WellPlaced(t: Turn) {
    forall b :: b in t.AllBlocks() && b.blockType == ToolResult ==> b in t.toolResults && b.contentHash != ""
  }

  ghost predicate AllWellPlaced(ts: seq<Turn>) {
    forall i :: 0 <= i < |ts| ==> WellPlaced(ts[i])
  }

  /** The survival count that the lineage gives a block of the current turn. */
  function Cached(previous: seq<Turn>, current: Turn, r: Block): nat {
    Streak(Histories(previous + [current]), |previous|, MatchKey(r))
  }

  lemma InAllBlocks(t: Turn, b: Block)
    requires b in t.toolResults
    ensures b in t.AllBlocks()
  {
    var lists := [t.systemBlocks, t.toolDefs, t.conversationHistory, t.toolResults, t.assistantBlocks];
    InFlatten(lists);
    assert lists[3] in lists;
  }

  /** The first block of the current turn under r's key. */
  function FirstOfKey(current: Turn, r: Block): Block
    requires r in current.toolResults
  {
    InAllBlocks(current, r);
    FirstWithKey(current.AllBlocks(), MatchKey(r)).value
  }

  /**
   * r carries the same hash as the first block under its key, or it has an identity key that is not
   * that block's hash.
   */
  predicate KeyedSoundly(current: Turn, r: Block)
    requires r in current.toolResults
  {
    var hash := FirstOfKey(current, r).contentHash;
    r.contentHash == hash || (r.identityKey != "" && hash != r.identityKey)
  }

  /** A block that carries r's key and the hash of its first bearer is a copy of r to the rule. */
  lemma BearerIsCopy(current: Turn, r: Block, y: Block)
    requires r in current.toolResults && r.contentHash != "" && KeyedSoundly(current, r)
    requires MatchKey(y) == MatchKey(r) && y.contentHash == FirstOfKey(current, r).contentHash && y.contentHash != ""
    ensures IsCopy(y, r)
  {
  }

  /** A turn whose first bearer of r's key has the hash of the current one holds a copy of r. */
  lemma BearerInResults(t: Turn, current: Turn, r: Block)
    requires WellPlaced(t) && r in current.toolResults && r.blockType == ToolResult
    requires r.contentHash != "" && KeyedSoundly(current, r)
    requires HashIn(t.AllBlocks(), MatchKey(r)) == Some(FirstOfKey(current, r).contentHash)
    ensures HasCopy(t.toolResults, r)
  {
    var y := FirstWithKey(t.AllBlocks(), MatchKey(r)).value;
    assert y in t.AllBlocks() && y.blockType == ToolResult;
    assert y in t.toolResults;
    BearerIsCopy(current, r, y);
  }

  lemma RecountStep(ts: seq<Turn>, i: nat, r: Block)
    requires 0 < i <= |ts| && HasCopy(ts[i - 1].toolResults, r)
    ensures Recount(ts[..i], r) == Recount(ts[..i - 1], r) + 1
  {
    assert ts[..i][|ts[..i]| - 1] == ts[i - 1] && ts[..i][..i - 1] == ts[..i - 1];
  }

  lemma {:induction false} RecountCovers(ts: seq<Turn>, i: nat, current: Turn, r: Block)
    requires AllWellPlaced(ts) && i < |ts|
    requires r in current.toolResults && r.blockType == ToolResult && r.contentHash != "" && KeyedSoundly(current, r)
    requires HashIn(ts[i].AllBlocks(), MatchKey(r)) == Some(FirstOfKey(current, r).contentHash)
    ensures Recount(ts[..i], r) >= Streak(Histories(ts), i, MatchKey(r))
  {
    hide KeyedSoundly, WellPlaced, HashIn, FirstOfKey, MatchKey, Recount;
    var k, h := MatchKey(r), Histories(ts);
    if i > 0 && HashIn(h[i - 1], k) == HashIn(h[i], k) {
      assert WellPlaced(ts[i - 1]);
      BearerInResults(ts[i - 1], current, r);
      RecountStep(ts, i, r);
      RecountCovers(ts, i - 1, current, r);
    }
  }

  /** The rule's recount is never below the cached count of a soundly keyed result, whatever the history. */
  lemma RecountNotBelow(previous: seq<Turn>, current: Turn, r: Block)
    requires AllWellPlaced(previous) && WellPlaced(current)
    requires r in current.toolResults && r.blockType == ToolResult && KeyedSoundly(current, r)
    ensures Recount(previous, r) >= Cached(previous, current, r)
    ensures Max(Cached(previous, current, r), Recount(previous, r)) == Recount(previous, r)
  {
    var ts, n := previous + [current], |previous|;
    InAllBlocks(current, r);
    assert ts[n] == current && ts[..n] == previous;
    RecountCovers(ts, n, current, r);
  }

  /** A history in which a result that is not soundly keyed has survived for the lineage but not for the rule. */
  function Witness(current: Turn, r: Block): Turn
    requires r in current.toolResults
  {
    var y := Block(r.blockId + "x", ToolResult, FirstOfKey(current, r).contentHash,
                   if r.identityKey == "" then r.contentHash else "", 0, "", Metadata("", "", "", "", false));
    Turn("", "", "", 0, [], [], [], [y], [], 0, 0, 0, 0, 0.0, 1)
  }

  lemma RecountFallsBelow(current: Turn, r: Block)
    requires WellPlaced(current) && r in current.toolResults && r.blockType == ToolResult
    requires !KeyedSoundly(current, r)
    ensures WellPlaced(Witness(current, r))
    ensures Recount([Witness(current, r)], r) < Cached([Witness(current, r)], current, r)
  {
    var w := Witness(current, r);
    var y, k := w.toolResults[0], MatchKey(r);
    InAllBlocks(current, r);
    var x := FirstOfKey(current, r);
    assert x in current.AllBlocks() && x.contentHash != "" && r.contentHash != "";
    InFlatten([w.systemBlocks, w.toolDefs, w.conversationHistory, w.toolResults, w.assistantBlocks]);
    InAllBlocks(w, y);
    assert forall b :: b in w.AllBlocks() ==> b == y;
    assert MatchKey(y) == k && FirstWithKey(w.AllBlocks(), k) == Some(y);
    assert |y.blockId| == |r.blockId| + 1;
    assert !HasCopy([w][0].toolResults, r);
    var h := Histories([w] + [current]);
    assert HashIn(h[0], k) == HashIn(h[1], k) == Some(x.contentHash);
  }

  /**
   * Over all well-placed histories, the recount is never below the cached count exactly when the result
   * is soundly keyed in its own turn.
   */
  lemma RecountSoundIff(current: Turn, r: Block)
    requires WellPlaced(current) && r in current.toolResults && r.blockType == ToolResult
    ensures (forall previous :: AllWellPlaced(previous) ==> Recount(previous, r) >= Cached(previous, current, r))
       <==> KeyedSoundly(current, r)
  {
    if KeyedSoundly(current, r) {
      forall previous | AllWellPlaced(previous) ensures Recount(previous, r) >= Cached(previous, current, r) {
        RecountNotBelow(previous, current, r);
      }
    } else {
      RecountFallsBelow(current, r);
      assert AllWellPlaced([Witness(current, r)]);
    }
  }

  function ResultBlock(id: string, hash: string, identity: string): Block {
    Block(id, ToolResult, hash, identity, 0, "", Metadata("", "", "", "", false))
  }

  /** Two results of a turn, the identity key of the first being the hash of the second. */
  lemma UnsoundTurn()
    ensures var first, second := ResultBlock("1", "h", "k"), ResultBlock("2", "k", "");
            var turn := PlainTurn(0, [], [first, second]);
            && WellPlaced(turn) && second in turn.toolResults && !KeyedSoundly(turn, second)
            && Recount([Witness(turn, second)], second) < Cached([Witness(turn, second)], turn, second)
  {
    var first, second := ResultBlock("1", "h", "k"), ResultBlock("2", "k", "");
    var turn := PlainTurn(0, [], [first, second]);
    PlainTurnBlocks(0, [], [first, second]);
    assert [] + [first, second] == [first, second];
    assert second in turn.toolResults;
    assert MatchKey(first) == MatchKey(second) && FirstWithKey([first, second], MatchKey(second)) == Some(first);
    RecountFallsBelow(turn, second);
  }

  /** Two results that share an ordinary identity key are soundly keyed. */
  lemma SharedIdentityIsSound(turn: Turn, r: Block)
    requires r in turn.toolResults && r.identityKey != ""
    requires forall b :: b in turn.AllBlocks() ==> b.contentHash != r.identityKey
    ensures KeyedSoundly(turn, r)
  {
    InAllBlocks(turn, r);
    assert FirstOfKey(turn, r) in turn.AllBlocks();
  }

  /** With no cached counts the rule goes by its recount alone. */
  function Uncached(c: Case): Case {
    c.(survived := seq(|c.results|, _ => 0))
  }

  /** When every result is soundly keyed, reading the cached counts never changes what is reported. */
  lemma CacheStep(c: Case, current: Turn, i: nat)
    requires i < |c.results| == |c.survived| && c.results[i] in current.toolResults
    requires AllWellPlaced(c.previous) && WellPlaced(current)
    requires c.results[i].blockType == ToolResult && KeyedSoundly(current, c.results[i])
    requires c.survived[i] == Cached(c.previous, current, c.results[i])
    ensures Max(c.survived[i], Recount(c.previous, c.results[i])) == Max(0, Recount(c.previous, c.results[i]))
  {
    RecountNotBelow(c.previous, current, c.results[i]);
  }

  /** Result i is soundly keyed and its cached count is the lineage's. */
  ghost predicate CachedSoundly(c: Case, current: Turn, i: nat)
    requires i < |c.results| == |c.survived| && c.results == current.toolResults
  {
    && c.results[i].blockType == ToolResult && KeyedSoundly(current, c.results[i])
    && c.survived[i] == Cached(c.previous, current, c.results[i])
  }

  lemma {:induction false} CacheDoesNotMatter(c: Case, current: Turn, n: nat)
    requires |c.survived| == |c.results| && n <= |c.results| && c.results == current.toolResults
    requires AllWellPlaced(c.previous) && WellPlaced(current)
    requires forall i :: 0 <= i < |c.results| ==> CachedSoundly(c, current, i)
    ensures Reported(c, n) == Reported(Uncached(c), n)
  {
    hide KeyedSoundly, Recount, WellPlaced;
    if n > 0 {
      CacheDoesNotMatter(c, current, n - 1);
      assert CachedSoundly(c, current, n - 1);
      CacheStep(c, current, n - 1);
    }
  }
  // ---------- what a report means ----------

  /** A result has survived m turns for the rule exactly when each of the m turns before the current one has a copy. */
  lemma {:induction false} RecountMeans(previous: seq<Turn>, r: Block, m: nat)
    ensures Recount(previous, r) >= m
       <==> m <= |previous| && forall i :: |previous| - m <= i < |previous| ==> HasCopy(previous[i].toolResults, r)
  {
    hide HasCopy;
    if previous != [] && m > 0 {
      var init := previous[..|previous| - 1];
      RecountMeans(init, r, m - 1);
      assert forall i :: 0 <= i < |init| ==> init[i] == previous[i];
    }
  }

  /** A copy shares the block id, the hash, or an identity key that is not empty. */
  lemma CopyMeans(ts: seq<Block>, r: Block)
    ensures HasCopy(ts, r)
       <==> exists t :: t in ts && (t.blockId == r.blockId || t.contentHash == r.contentHash
                                    || (r.identityKey != "" && t.identityKey == r.identityKey))
  {
    assert forall t :: IsCopy(t, r) <==> (t.blockId == r.blockId || t.contentHash == r.contentHash
                                          || (r.identityKey != "" && t.identityKey == r.identityKey));
  }

  /** Result i is larger than the threshold, nothing refers to it, and its own count or the rule's is long enough. */
  ghost predicate IsZombie(c: Case, i: nat)
    requires |c.survived| == |c.results| && i < |c.results|
  {
    var r, p := c.results[i], c.previous;
    && r.tokenCount > c.minTokens && !c.isReferenced(r)
    && (|| c.survived[i] >= c.minTurns
        || (c.minTurns <= |p| && forall j :: |p| - c.minTurns <= j < |p| && 0 <= j ==> HasCopy(p[j].toolResults, r)))
  }

  lemma ZombieIff(c: Case, i: nat)
    requires |c.survived| == |c.results| && i < |c.results|
    ensures IsZombie(c, i)
       <==> c.results[i].tokenCount > c.minTokens && !c.isReferenced(c.results[i])
            && Max(c.survived[i], Recount(c.previous, c.results[i])) >= c.minTurns
  {
    hide HasCopy, Recount;
    if c.minTurns >= 0 {
      RecountMeans(c.previous, c.results[i], c.minTurns);
    }
  }

  /** Exactly these results are reported, in order. */
  lemma {:induction false} ReportedMeans(c: Case, n: nat) returns (at: seq<int>)
    requires |c.survived| == |c.results| && n <= |c.results|
    ensures StrictlyIncreasing(at) && |at| == |Reported(c, n)|
    ensures forall k :: 0 <= k < |at| ==> 0 <= at[k] < n && Reported(c, n)[k] == c.results[at[k]].blockId
    ensures forall i :: 0 <= i < n ==> (i in at <==> IsZombie(c, i))
  {
    hide IsZombie, Recount;
    at := [];
    if n > 0 {
      at := ReportedMeans(c, n - 1);
      ZombieIff(c, n - 1);
      if IsZombie(c, n - 1) {
        at := at + [n - 1];
      }
    }
  }
}

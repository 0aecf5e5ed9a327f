/** The lineage and the diff engine answer the same question independently; when they agree. */
module LineageDiff {
  import opened Collections
  import opened Blocks
  import opened Lineage
  import opened Diff

  function Histories(ts: seq<Turn>): (h: History)
    ensures |h| == |ts| && forall i :: 0 <= i < |ts| ==> h[i] == ts[i].AllBlocks()
  {
    seq(|ts|, i requires 0 <= i < |ts| => ts[i].AllBlocks())
  }

  /** The blocks of the turn before the last one; none before the first turn. */
  function PreviousBlocks(ts: seq<Turn>): seq<Block>
    requires ts != []
  {
    if |ts| == 1 then [] else ts[|ts| - 2].AllBlocks()
  }

  /** The delta that is computed when the last of the turns is added. */
  function LastDelta(ts: seq<Turn>): TurnDelta
    requires ts != []
  {
    Delta(if |ts| == 1 then None else Some(ts[|ts| - 2]), ts[|ts| - 1])
  }

  /** The survival count that the incremental record gives a block of the last turn. */
  function CachedSurvival(ts: seq<Turn>, b: Block): nat
    requires ts != [] && b in ts[|ts| - 1].AllBlocks()
  {
    LastRecordExists(ts, b);
    Replay(Histories(ts))[MatchKey(b)].turnsSurvived
  }

  lemma LastRecordExists(ts: seq<Turn>, b: Block)
    requires ts != [] && b in ts[|ts| - 1].AllBlocks()
    ensures MatchKey(b) in Replay(Histories(ts))
    ensures Replay(Histories(ts))[MatchKey(b)].turnsSurvived == Streak(Histories(ts), |ts| - 1, MatchKey(b))
  {
    var h, k, n := Histories(ts), MatchKey(b), |ts| - 1;
    ReplayAgrees(h);
    assert AgreesAt(Replay(h), h, k);
    SeenIffPresent(h, k, n);
    assert FirstWithKey(h[n], k).Some?;
    var seen := Seen(h, k);
    assert n in seen;
    LastOfSeen(seen, n);
  }

  /** Block ids and match keys are unique within a turn. */
  ghost predicate UniquelyKeyed(bs: seq<Block>) {
    && Distinct(Ids(bs))
    && forall i, j :: 0 <= i < j < |bs| ==> MatchKey(bs[i]) != MatchKey(bs[j])
  }

  /** A block without an identity key meets, under its own key, a block with another hash. */
  predicate Clashes(prev: seq<Block>, b: Block) {
    var p := FirstWithKey(prev, MatchKey(b));
    p.Some? && b.identityKey == "" && b.contentHash != p.value.contentHash
  }

  /** Delta and lineage say the same about block b of the last turn. */
  ghost predicate SayTheSame(ts: seq<Turn>, b: Block)
    requires ts != [] && b in ts[|ts| - 1].AllBlocks()
  {
    var d, s := LastDelta(ts), CachedSurvival(ts, b);
    var keyBefore := FirstWithKey(PreviousBlocks(ts), MatchKey(b)).Some?;
    && (b.blockId in d.persistedBlockIds <==> s >= 1)
    && (b.blockId in d.mutatedBlockIds <==> s == 0 && keyBefore)
    && (b.blockId in d.addedBlockIds <==> !keyBefore)
  }

  lemma FirstByIdOfDistinct(bs: seq<Block>)
    requires Distinct(Ids(bs))
    ensures FirstById(bs) == bs
  {
    if bs != [] {
      var init, last := bs[..|bs| - 1], bs[|bs| - 1];
      assert bs == init + [last];
      DistinctIdsSplit(init, last);
      FirstByIdOfDistinct(init);
    }
  }

  /** The list a block's id lands in is given by its status. */
  lemma StatusDecides(ts: seq<Turn>, b: Block)
    requires ts != [] && b in ts[|ts| - 1].AllBlocks()
    requires Distinct(Ids(ts[|ts| - 1].AllBlocks()))
    ensures var d, s := LastDelta(ts), StatusOf(PreviousBlocks(ts), b);
            && (b.blockId in d.addedBlockIds <==> s == Added)
            && (b.blockId in d.persistedBlockIds <==> s == Persisted)
            && (b.blockId in d.mutatedBlockIds <==> s == Mutated)
  {
    var bs, prev := ts[|ts| - 1].AllBlocks(), PreviousBlocks(ts);
    FirstByIdOfDistinct(bs);
    if |ts| == 1 {
      NothingBefore(bs);
      IdsMeans(bs, b.blockId);
    } else {
      forall s ensures b.blockId in IdsWithStatus(prev, bs, s) <==> StatusOf(prev, b) == s {
        IdsWithStatusMeans(prev, bs, s, b.blockId);
        if b.blockId in IdsWithStatus(prev, bs, s) {
          var c :| c in bs && c.blockId == b.blockId && StatusOf(prev, c) == s;
          SameIdSameBlock(bs, b, c);
        }
      }
    }
  }

  /** The cached count is positive exactly when the previous turn has the key with the same hash. */
  lemma SurvivalDecides(ts: seq<Turn>, b: Block)
    requires ts != [] && b in ts[|ts| - 1].AllBlocks()
    requires UniquelyKeyed(ts[|ts| - 1].AllBlocks())
    ensures CachedSurvival(ts, b) >= 1
       <==> HashIn(PreviousBlocks(ts), MatchKey(b)) == Some(b.contentHash)
  {
    var h, k, n, bs := Histories(ts), MatchKey(b), |ts| - 1, ts[|ts| - 1].AllBlocks();
    LastRecordExists(ts, b);
    var i :| 0 <= i < |bs| && bs[i] == b;
    UniqueKeyIsFirst(bs, i);
    assert HashIn(h[n], k) == Some(b.contentHash);
  }

  /** Over any run, delta and lineage agree on a block exactly when it does not clash. */
  lemma AgreeIffNoClash(ts: seq<Turn>, b: Block)
    requires ts != [] && b in ts[|ts| - 1].AllBlocks()
    requires UniquelyKeyed(ts[|ts| - 1].AllBlocks())
    ensures SayTheSame(ts, b) <==> !Clashes(PreviousBlocks(ts), b)
  {
    StatusDecides(ts, b);
    SurvivalDecides(ts, b);
  }

  function SystemBlock(id: string, hash: string, identity: string): Block {
    Block(id, System, hash, identity, 0, "", Metadata("", "", "", "", false))
  }

  /** Two turns of one block each: an identity key "k", and then a block whose hash is "k". */
  lemma DiffAndLineageClash()
    ensures var before, after := SystemBlock("1", "h", "k"), SystemBlock("2", "k", "");
            var ts := [PlainTurn(0, [before], []), PlainTurn(1, [after], [])];
            && after in ts[1].AllBlocks() && UniquelyKeyed(ts[0].AllBlocks()) && UniquelyKeyed(ts[1].AllBlocks())
            && Clashes(PreviousBlocks(ts), after) && !SayTheSame(ts, after)
            && after.blockId in LastDelta(ts).persistedBlockIds && CachedSurvival(ts, after) == 0
  {
    var before, after := SystemBlock("1", "h", "k"), SystemBlock("2", "k", "");
    var ts := [PlainTurn(0, [before], []), PlainTurn(1, [after], [])];
    PlainTurnBlocks(0, [before], []);
    PlainTurnBlocks(1, [after], []);
    assert ts[0].AllBlocks() == [before] && ts[1].AllBlocks() == [after];
    IdsAt([after]);
    assert FirstWithKey([before], MatchKey(after)) == Some(before);
    StatusDecides(ts, after);
    SurvivalDecides(ts, after);
    AgreeIffNoClash(ts, after);
  }

  // What a block's match key is made of.
  datatype KeyKind = ByIdentity | ByHash | ById

  function KindOf(b: Block): KeyKind {
    if b.identityKey != "" then ByIdentity else if b.contentHash != "" then ByHash else ById
  }

  /** Every previous block with b's key made that key from the same field. */
  ghost predicate Unmixed(prev: seq<Block>, b: Block) {
    forall p :: p in prev && MatchKey(p) == MatchKey(b) ==> KindOf(p) == KindOf(b)
  }

  lemma UnmixedDoesNotClash(prev: seq<Block>, b: Block)
    requires Unmixed(prev, b)
    ensures !Clashes(prev, b)
  {
    var p := FirstWithKey(prev, MatchKey(b));
    assert p.Some? ==> KindOf(p.value) == KindOf(b);
  }

  /** When equal keys are made of the same thing in both turns, delta and lineage agree on the whole turn. */
  lemma AgreeOnUnmixedKeys(ts: seq<Turn>)
    requires ts != []
    requires UniquelyKeyed(ts[|ts| - 1].AllBlocks())
    requires forall b :: b in ts[|ts| - 1].AllBlocks() ==> Unmixed(PreviousBlocks(ts), b)
    ensures forall b :: b in ts[|ts| - 1].AllBlocks() ==> SayTheSame(ts, b)
  {
    forall b | b in ts[|ts| - 1].AllBlocks() ensures SayTheSame(ts, b) {
      UnmixedDoesNotClash(PreviousBlocks(ts), b);
      AgreeIffNoClash(ts, b);
    }
  }
  // ---------- growth over a session ----------

  /** The growths of all the deltas of a session's turns, added up. */
  function TotalGrowth(ts: seq<Turn>): int {
    if ts == [] then 0 else TotalGrowth(ts[..|ts| - 1]) + LastDelta(ts).tokenGrowth
  }

  lemma GrowthStep(ts: seq<Turn>)
    requires |ts| > 1
    ensures var p, c := ts[|ts| - 2], ts[|ts| - 1];
            LastDelta(ts).tokenGrowth == if c.inputTokens > 0 || p.inputTokens > 0 then c.inputTokens - p.inputTokens
                                         else Tokens(c.AllBlocks()) - Tokens(p.AllBlocks())
  {
  }

  /** When every turn reports its input tokens, the growths add up to those of the last turn. */
  lemma {:induction false} ReportedGrowthTelescopes(ts: seq<Turn>)
    requires ts != [] && forall t :: t in ts ==> t.inputTokens > 0
    ensures TotalGrowth(ts) == ts[|ts| - 1].inputTokens
  {
    var init := ts[..|ts| - 1];
    assert ts[|ts| - 1] in ts;
    if init == [] {
      assert TotalGrowth(init) == 0;
    } else {
      assert forall t :: t in init ==> t in ts;
      ReportedGrowthTelescopes(init);
      assert init[|init| - 1] == ts[|ts| - 2] && ts[|ts| - 2] in ts;
    }
  }

  /** When none does, they add up to the tokens of its blocks. */
  lemma {:induction false} CountedGrowthTelescopes(ts: seq<Turn>)
    requires ts != [] && forall t :: t in ts ==> t.inputTokens <= 0
    ensures TotalGrowth(ts) == Tokens(ts[|ts| - 1].AllBlocks())
  {
    var init := ts[..|ts| - 1];
    assert ts[|ts| - 1] in ts;
    if init == [] {
      assert TotalGrowth(init) == 0;
    } else {
      assert forall t :: t in init ==> t in ts;
      CountedGrowthTelescopes(init);
      assert init[|init| - 1] == ts[|ts| - 2] && ts[|ts| - 2] in ts;
    }
  }

  /** What a turn contributes to growths: its reported input tokens, or else what its blocks hold. */
  function SizeOf(t: Turn): int {
    if t.inputTokens > 0 then t.inputTokens else Tokens(t.AllBlocks())
  }

  /** Two neighbours of which one reports input tokens and the other, which does not, holds tokens in its blocks. */
  predicate Mixes(p: Turn, c: Turn) {
    (p.inputTokens > 0) != (c.inputTokens > 0)
  }

  /**
   * A growth is the difference of the two sizes exactly when both turns report input tokens, or neither does, or the one
   * that does not counts as many tokens in its blocks as its input tokens say.
   */
  lemma GrowthIsDifferenceIff(ts: seq<Turn>)
    requires |ts| > 1
    ensures var p, c := ts[|ts| - 2], ts[|ts| - 1];
            LastDelta(ts).tokenGrowth == SizeOf(c) - SizeOf(p)
            <==> (Mixes(p, c) ==> var silent := if p.inputTokens > 0 then c else p; Tokens(silent.AllBlocks()) == silent.inputTokens)
  {
    GrowthStep(ts);
  }
}

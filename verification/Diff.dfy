/** The turn diff engine (src/core/graph/diff.py): its loops, and what the delta they build means. */
module Diff {
  import opened Collections
  import opened Blocks

  datatype TurnDelta = TurnDelta(
    turnIndex: nat,
    addedBlockIds: seq<string>,
    removedBlockIds: seq<string>,
    persistedBlockIds: seq<string>,
    mutatedBlockIds: seq<string>,
    cacheBreakpointBlockId: Option<string>,
    tokenGrowth: int)

  datatype Status = Added | Persisted | Mutated

  /** What became of block b since the turn with blocks prev. */
  function StatusOf(prev: seq<Block>, b: Block): Status {
    match FirstWithKey(prev, MatchKey(b))
    case None => Added
    case Some(p) => if b.identityKey != "" && b.contentHash != p.contentHash then Mutated else Persisted
  }

  /** The first block with each id, in order. */
  function FirstById(bs: seq<Block>): seq<Block> {
    if bs == [] then []
    else
      var init, b := FirstById(bs[..|bs| - 1]), bs[|bs| - 1];
      if b.blockId in Ids(init) then init else init + [b]
  }

  lemma {:induction false} FirstByIdMeans(bs: seq<Block>)
    ensures Distinct(Ids(FirstById(bs)))
    ensures forall id :: id in Ids(FirstById(bs)) <==> id in Ids(bs)
    ensures forall b :: b in FirstById(bs) ==> b in bs
  {
    if bs != [] {
      var init, b := FirstById(bs[..|bs| - 1]), bs[|bs| - 1];
      FirstByIdMeans(bs[..|bs| - 1]);
      assert (init + [b])[..|init|] == init;
      assert forall id :: id in Ids(bs) <==> id in Ids(bs[..|bs| - 1]) || id == b.blockId;
    }
  }

  /** The ids of the blocks of bs whose status against prev is s, in order. */
  function IdsWithStatus(prev: seq<Block>, bs: seq<Block>, s: Status): seq<string> {
    if bs == [] then []
    else
      var init, b := IdsWithStatus(prev, bs[..|bs| - 1], s), bs[|bs| - 1];
      if StatusOf(prev, b) == s then init + [b.blockId] else init
  }

  /** The ids of the blocks of bs whose key no block of other has, in order. */
  function IdsWithoutKey(other: seq<Block>, bs: seq<Block>): seq<string> {
    if bs == [] then []
    else
      var init, b := IdsWithoutKey(other, bs[..|bs| - 1]), bs[|bs| - 1];
      if FirstWithKey(other, MatchKey(b)).None? then init + [b.blockId] else init
  }

  /** The id of the first block that is not among the persisted ids. */
  function Breakpoint(bs: seq<Block>, persisted: seq<string>): Option<string> {
    if bs == [] then None
    else if bs[0].blockId !in persisted then Some(bs[0].blockId)
    else Breakpoint(bs[1..], persisted)
  }

  function Delta(prev: Option<Turn>, curr: Turn): TurnDelta {
    var bs := curr.AllBlocks();
    match prev
    case None =>
      TurnDelta(curr.turnIndex, Ids(FirstById(bs)), [], [], [], None,
                if curr.inputTokens > 0 then curr.inputTokens else Tokens(bs))
    case Some(p) =>
      var ps := p.AllBlocks();
      var persisted := IdsWithStatus(ps, FirstById(bs), Persisted);
      TurnDelta(
        curr.turnIndex,
        IdsWithStatus(ps, FirstById(bs), Added),
        IdsWithoutKey(bs, FirstById(ps)),
        persisted,
        IdsWithStatus(ps, FirstById(bs), Mutated),
        Breakpoint(bs, persisted),
        if curr.inputTokens > 0 || p.inputTokens > 0 then curr.inputTokens - p.inputTokens
        else Tokens(bs) - Tokens(ps))
  }

  // ---------- the loops ----------

  method SumTokens(bs: seq<Block>) returns (total: nat)
    ensures total == Tokens(bs)
  {
    total := 0;
    for i := 0 to |bs|
      invariant total == Tokens(bs[..i])
    {
      assert bs[..i + 1][..i] == bs[..i];
      total := total + bs[i].tokenCount;
    }
    assert bs[..|bs|] == bs;
  }

  /** byKey finds the first block of bs with each key. */
  ghost predicate IsIndex(byKey: map<Key, Block>, bs: seq<Block>) {
    forall k :: FirstWithKey(bs, k) == if k in byKey then Some(byKey[k]) else None
  }

  lemma IndexSnoc(byKey: map<Key, Block>, bs: seq<Block>, b: Block)
    requires IsIndex(byKey, bs)
    ensures IsIndex(if MatchKey(b) in byKey then byKey else byKey[MatchKey(b) := b], bs + [b])
  {
    var byKey' := if MatchKey(b) in byKey then byKey else byKey[MatchKey(b) := b];
    forall k ensures FirstWithKey(bs + [b], k) == if k in byKey' then Some(byKey'[k]) else None {
      FirstWithKeySnoc(bs, b, k);
      assert FirstWithKey(bs, k) == if k in byKey then Some(byKey[k]) else None;
    }
  }

  method IndexByKey(bs: seq<Block>) returns (byKey: map<Key, Block>)
    ensures IsIndex(byKey, bs)
  {
    byKey := map[];
    for i := 0 to |bs|
      invariant IsIndex(byKey, bs[..i])
    {
      IndexSnoc(byKey, bs[..i], bs[i]);
      assert bs[..i + 1] == bs[..i] + [bs[i]];
      if MatchKey(bs[i]) !in byKey {
        byKey := byKey[MatchKey(bs[i]) := bs[i]];
      }
    }
    assert bs[..|bs|] == bs;
  }

  lemma IdsWithStatusSnoc(other: seq<Block>, bs: seq<Block>, b: Block, s: Status)
    ensures IdsWithStatus(other, bs + [b], s)
         == IdsWithStatus(other, bs, s) + (if StatusOf(other, b) == s then [b.blockId] else [])
  {
    assert (bs + [b])[..|bs|] == bs;
  }

  lemma FirstByIdSnoc(bs: seq<Block>, i: nat)
    requires i < |bs|
    ensures FirstById(bs[..i + 1])
         == if bs[i].blockId in Ids(FirstById(bs[..i])) then FirstById(bs[..i]) else FirstById(bs[..i]) + [bs[i]]
  {
    assert bs[..i + 1][..i] == bs[..i];
  }

  /** One pass over a turn: its distinct blocks by status against the other turn's table. */
  method Classify(bs: seq<Block>, ghost other: seq<Block>, otherByKey: map<Key, Block>)
    returns (added: seq<string>, persisted: seq<string>, mutated: seq<string>)
    requires IsIndex(otherByKey, other)
    ensures added == IdsWithStatus(other, FirstById(bs), Added)
    ensures persisted == IdsWithStatus(other, FirstById(bs), Persisted)
    ensures mutated == IdsWithStatus(other, FirstById(bs), Mutated)
  {
    added, persisted, mutated := [], [], [];
    var seen: set<string> := {};
    ghost var met: seq<Block> := [];
    for i := 0 to |bs|
      invariant met == FirstById(bs[..i])
      invariant forall id :: id in seen <==> id in Ids(met)
      invariant added == IdsWithStatus(other, met, Added)
      invariant persisted == IdsWithStatus(other, met, Persisted)
      invariant mutated == IdsWithStatus(other, met, Mutated)
    {
      var b := bs[i];
      FirstByIdSnoc(bs, i);
      if b.blockId in seen {
        continue;
      }
      seen := seen + {b.blockId};
      IdsWithStatusSnoc(other, met, b, Added);
      IdsWithStatusSnoc(other, met, b, Persisted);
      IdsWithStatusSnoc(other, met, b, Mutated);
      assert (met + [b])[..|met|] == met;
      met := met + [b];
      var key := MatchKey(b);
      assert FirstWithKey(other, key) == if key in otherByKey then Some(otherByKey[key]) else None;
      if key in otherByKey {
        var p := otherByKey[key];
        if b.identityKey != "" && b.contentHash != p.contentHash {
          mutated := mutated + [b.blockId];
        } else {
          persisted := persisted + [b.blockId];
        }
      } else {
        added := added + [b.blockId];
      }
    }
    assert bs[..|bs|] == bs;
  }

  lemma IdsWithoutKeySnoc(other: seq<Block>, bs: seq<Block>, b: Block)
    ensures IdsWithoutKey(other, bs + [b])
         == IdsWithoutKey(other, bs) + (if FirstWithKey(other, MatchKey(b)).None? then [b.blockId] else [])
  {
    assert (bs + [b])[..|bs|] == bs;
  }

  /** The distinct blocks of the previous turn whose key is gone from the current one. */
  method FindRemoved(prevBlocks: seq<Block>, ghost currBlocks: seq<Block>, currByKey: map<Key, Block>)
    returns (removed: seq<string>)
    requires IsIndex(currByKey, currBlocks)
    ensures removed == IdsWithoutKey(currBlocks, FirstById(prevBlocks))
  {
    removed := [];
    var seenPrev: set<string> := {};
    ghost var met: seq<Block> := [];
    for i := 0 to |prevBlocks|
      invariant met == FirstById(prevBlocks[..i])
      invariant forall id :: id in seenPrev <==> id in Ids(met)
      invariant removed == IdsWithoutKey(currBlocks, met)
    {
      var b := prevBlocks[i];
      FirstByIdSnoc(prevBlocks, i);
      if b.blockId in seenPrev {
        continue;
      }
      seenPrev := seenPrev + {b.blockId};
      IdsWithoutKeySnoc(currBlocks, met, b);
      IdsSnoc(met, b);
      met := met + [b];
      var key := MatchKey(b);
      assert FirstWithKey(currBlocks, key) == if key in currByKey then Some(currByKey[key]) else None;
      if key !in currByKey {
        removed := removed + [b.blockId];
      }
    }
    assert prevBlocks[..|prevBlocks|] == prevBlocks;
  }

  method FindBreakpoint(bs: seq<Block>, persisted: seq<string>) returns (id: Option<string>)
    ensures id == Breakpoint(bs, persisted)
  {
    id := None;
    for i := 0 to |bs|
      invariant Breakpoint(bs, persisted) == Breakpoint(bs[i..], persisted)
    {
      if bs[i].blockId !in persisted {
        return Some(bs[i].blockId);
      }
    }
  }

  method ComputeDelta(prev: Option<Turn>, curr: Turn) returns (delta: TurnDelta)
    ensures delta == Delta(prev, curr)
  {
    var bs := curr.AllBlocks();
    var tokens: int := SumTokens(bs);
    if prev.None? {
      var added, _, _ := Classify(bs, [], map[]);
      NothingBefore(FirstById(bs));
      return TurnDelta(curr.turnIndex, added, [], [], [], None,
                       if curr.inputTokens > 0 then curr.inputTokens else tokens);
    }
    var p := prev.value;
    var ps := p.AllBlocks();
    var prevByKey := IndexByKey(ps);
    var currByKey := IndexByKey(bs);
    var added, persisted, mutated := Classify(bs, ps, prevByKey);
    var removed := FindRemoved(ps, bs, currByKey);
    var breakpoint := FindBreakpoint(bs, persisted);
    var prevTokens: int := SumTokens(ps);
    var growth: int := if curr.inputTokens > 0 || p.inputTokens > 0 then curr.inputTokens - p.inputTokens
                  else tokens - prevTokens;
    return TurnDelta(curr.turnIndex, added, removed, persisted, mutated, breakpoint, growth);
  }

  lemma {:induction false} NothingBefore(bs: seq<Block>)
    ensures IdsWithStatus([], bs, Added) == Ids(bs)
  {
    if bs != [] {
      NothingBefore(bs[..|bs| - 1]);
      assert Ids(bs) == Ids(bs[..|bs| - 1]) + [bs[|bs| - 1].blockId];
    }
  }

  // ---------- what the delta means ----------

  /** An id is listed under a status exactly when some block with it has that status. */
  lemma {:induction false} IdsWithStatusMeans(prev: seq<Block>, bs: seq<Block>, s: Status, id: string)
    ensures id in IdsWithStatus(prev, bs, s) <==> exists b :: b in bs && b.blockId == id && StatusOf(prev, b) == s
  {
    if bs != [] {
      var init, last := bs[..|bs| - 1], bs[|bs| - 1];
      IdsWithStatusMeans(prev, init, s, id);
      assert bs == init + [last];
      assert last in bs;
    }
  }

  lemma {:induction false} IdsWithStatusDistinct(prev: seq<Block>, bs: seq<Block>, s: Status)
    requires Distinct(Ids(bs))
    ensures Distinct(IdsWithStatus(prev, bs, s))
  {
    if bs != [] {
      var init, last := bs[..|bs| - 1], bs[|bs| - 1];
      assert bs == init + [last];
      DistinctIdsSplit(init, last);
      IdsWithStatusDistinct(prev, init, s);
      IdsWithStatusMeans(prev, init, s, last.blockId);
      IdsMeans(init, last.blockId);
    }
  }

  /** An id lies in at most one of the lists of a delta, and in one of them exactly when the turn has it. */
  ghost predicate IsPartition(ids: seq<string>, a: seq<string>, p: seq<string>, m: seq<string>) {
    && Distinct(a) && Distinct(p) && Distinct(m)
    && (forall id :: id in ids <==> id in a || id in p || id in m)
    && (forall id :: !(id in a && id in p) && !(id in a && id in m) && !(id in p && id in m))
  }

  /** Added, persisted and mutated split the distinct ids of the current turn. */
  lemma DeltaIsPartition(prev: Option<Turn>, curr: Turn)
    ensures var d := Delta(prev, curr);
            IsPartition(Ids(curr.AllBlocks()), d.addedBlockIds, d.persistedBlockIds, d.mutatedBlockIds)
  {
    var bs := curr.AllBlocks();
    FirstByIdMeans(bs);
    if prev.Some? {
      StatusSplitsIds(prev.value.AllBlocks(), FirstById(bs));
    }
  }

  lemma StatusSplitsIds(prev: seq<Block>, bs: seq<Block>)
    requires Distinct(Ids(bs))
    ensures IsPartition(Ids(bs), IdsWithStatus(prev, bs, Added), IdsWithStatus(prev, bs, Persisted),
                        IdsWithStatus(prev, bs, Mutated))
  {
    IdsWithStatusDistinct(prev, bs, Added);
    IdsWithStatusDistinct(prev, bs, Persisted);
    IdsWithStatusDistinct(prev, bs, Mutated);
    forall id
      ensures id in Ids(bs) <==> exists s :: id in IdsWithStatus(prev, bs, s)
      ensures forall s, s' :: id in IdsWithStatus(prev, bs, s) && id in IdsWithStatus(prev, bs, s') ==> s == s'
    {
      StatusOfId(prev, bs, id);
    }
  }

  lemma StatusOfId(prev: seq<Block>, bs: seq<Block>, id: string)
    requires Distinct(Ids(bs))
    ensures id in Ids(bs) <==> exists s :: id in IdsWithStatus(prev, bs, s)
    ensures forall s, s' :: id in IdsWithStatus(prev, bs, s) && id in IdsWithStatus(prev, bs, s') ==> s == s'
  {
    IdsMeans(bs, id);
    forall s ensures id in IdsWithStatus(prev, bs, s)
                     <==> exists b :: b in bs && b.blockId == id && StatusOf(prev, b) == s
    { IdsWithStatusMeans(prev, bs, s, id); }
    forall s, s' | id in IdsWithStatus(prev, bs, s) && id in IdsWithStatus(prev, bs, s') ensures s == s' {
      var b :| b in bs && b.blockId == id && StatusOf(prev, b) == s;
      var c :| c in bs && c.blockId == id && StatusOf(prev, c) == s';
      SameIdSameBlock(bs, b, c);
    }
    if id in Ids(bs) {
      var b :| b in bs && b.blockId == id;
      assert id in IdsWithStatus(prev, bs, StatusOf(prev, b));
    }
  }

  /** The breakpoint is the first block that did not persist; there is none exactly when all persisted. */
  lemma {:induction false} BreakpointIsFirst(bs: seq<Block>, persisted: seq<string>)
    ensures match Breakpoint(bs, persisted)
            case None => forall b :: b in bs ==> b.blockId in persisted
            case Some(id) =>
              exists i :: 0 <= i < |bs| && bs[i].blockId == id && id !in persisted
                       && forall j :: 0 <= j < i ==> bs[j].blockId in persisted
  {
    if bs != [] && bs[0].blockId in persisted {
      BreakpointIsFirst(bs[1..], persisted);
      var rest := Breakpoint(bs[1..], persisted);
      if rest.Some? {
        var i :| 0 <= i < |bs[1..]| && bs[1..][i].blockId == rest.value
                 && forall j :: 0 <= j < i ==> bs[1..][j].blockId in persisted;
        assert bs[i + 1].blockId == rest.value;
        assert forall j :: 0 <= j < i + 1 ==> j == 0 || bs[j] == bs[1..][j - 1];
      }
    }
  }

  /** The removed loop lists what the added branch would list with the turns exchanged. */
  lemma {:induction false} RemovedIsAddedBackwards(other: seq<Block>, bs: seq<Block>)
    ensures IdsWithoutKey(other, bs) == IdsWithStatus(other, bs, Added)
  {
    if bs != [] {
      RemovedIsAddedBackwards(other, bs[..|bs| - 1]);
    }
  }

  /** An id is removed exactly when it is the id of a block whose key no current block has. */
  lemma RemovedMeans(prev: Turn, curr: Turn, id: string)
    ensures id in Delta(Some(prev), curr).removedBlockIds
       <==> exists b :: b in FirstById(prev.AllBlocks()) && b.blockId == id
                     && FirstWithKey(curr.AllBlocks(), MatchKey(b)).None?
    ensures Distinct(Delta(Some(prev), curr).removedBlockIds)
  {
    var ps, bs := FirstById(prev.AllBlocks()), curr.AllBlocks();
    FirstByIdMeans(prev.AllBlocks());
    RemovedIsAddedBackwards(bs, ps);
    IdsWithStatusMeans(bs, ps, Added, id);
    IdsWithStatusDistinct(bs, ps, Added);
    assert forall b :: StatusOf(bs, b) == Added <==> FirstWithKey(bs, MatchKey(b)).None?;
  }

  /** Reading two turns the other way round exchanges removed and added and negates the growth. */
  lemma DeltaSwap(a: Turn, b: Turn)
    ensures Delta(Some(a), b).removedBlockIds == Delta(Some(b), a).addedBlockIds
    ensures Delta(Some(a), b).addedBlockIds == Delta(Some(b), a).removedBlockIds
    ensures Delta(Some(a), b).tokenGrowth == -Delta(Some(b), a).tokenGrowth
  {
    RemovedIsAddedBackwards(b.AllBlocks(), FirstById(a.AllBlocks()));
    RemovedIsAddedBackwards(a.AllBlocks(), FirstById(b.AllBlocks()));
  }
  /** An earlier block has the id of block n. */
  predicate MetBefore(bs: seq<Block>, n: nat)
    requires n < |bs|
  {
    exists j | 0 <= j < n :: bs[j].blockId == bs[n].blockId
  }

  /** The positions at which an id is met for the first time, in order. */
  function FirstPositions(bs: seq<Block>): (r: seq<int>)
    ensures StrictlyIncreasing(r) && forall i :: 0 <= i < |r| ==> 0 <= r[i] < |bs|
  {
    if bs == [] then []
    else
      var n := |bs| - 1;
      FirstPositions(bs[..n]) + (if MetBefore(bs, n) then [] else [n])
  }

  lemma MetBeforeIff(bs: seq<Block>, n: nat)
    requires n < |bs|
    ensures MetBefore(bs, n) <==> bs[n].blockId in Ids(FirstById(bs[..n]))
  {
    FirstByIdMeans(bs[..n]);
    IdsAt(bs[..n]);
    assert forall j :: 0 <= j < n ==> Ids(bs[..n])[j] == bs[j].blockId;
  }

  /** Skipping ids already met leaves the first block with each id, in the turn's order. */
  lemma {:induction false} FirstByIdIsFirst(bs: seq<Block>)
    ensures |FirstById(bs)| == |FirstPositions(bs)|
    ensures forall i :: 0 <= i < |FirstById(bs)| ==> FirstById(bs)[i] == bs[FirstPositions(bs)[i]]
  {
    hide MetBefore, Ids;
    if bs != [] {
      FirstByIdIsFirst(bs[..|bs| - 1]);
      MetBeforeIff(bs, |bs| - 1);
    }
  }

  /** The lists of a delta keep the order of the blocks. */
  lemma {:induction false} ListsKeepOrder(prev: seq<Block>, bs: seq<Block>, s: Status) returns (at: seq<int>)
    ensures StrictlyIncreasing(at) && |at| == |IdsWithStatus(prev, bs, s)|
    ensures forall i :: 0 <= i < |at| ==> 0 <= at[i] < |bs| && StatusOf(prev, bs[at[i]]) == s
                                          && IdsWithStatus(prev, bs, s)[i] == bs[at[i]].blockId
  {
    at := [];
    if bs != [] {
      var n := |bs| - 1;
      at := ListsKeepOrder(prev, bs[..n], s);
      if StatusOf(prev, bs[n]) == s {
        at := at + [n];
      }
    }
  }

  /** The first turn of a session adds all of its blocks, and the breakpoint of a later one is read off its own lists. */
  lemma DeltaBreakpoint(prev: Option<Turn>, curr: Turn)
    ensures var d, bs := Delta(prev, curr), curr.AllBlocks();
            && d.turnIndex == curr.turnIndex
            && (prev.None? ==>
                  d.cacheBreakpointBlockId == None && d.persistedBlockIds == [] && d.mutatedBlockIds == [] && d.removedBlockIds == [])
            && (prev.Some? && d.cacheBreakpointBlockId.None? ==> forall b :: b in bs ==> b.blockId in d.persistedBlockIds)
            && (prev.Some? && d.cacheBreakpointBlockId.Some? ==>
                  exists i :: 0 <= i < |bs| && bs[i].blockId == d.cacheBreakpointBlockId.value
                           && bs[i].blockId !in d.persistedBlockIds
                           && forall j :: 0 <= j < i ==> bs[j].blockId in d.persistedBlockIds)
  {
    if prev.Some? {
      BreakpointIsFirst(curr.AllBlocks(), Delta(prev, curr).persistedBlockIds);
    }
  }
}

/** The incremental block lineage of a session (src/core/graph/turn_tree.py) and its full-history recount. */
module Lineage {
  import opened Collections
  import opened Blocks

  datatype BlockLineage = BlockLineage(
    blockType: BlockType,
    contentHash: string,
    firstSeenTurn: nat,
    lastSeenTurn: nat,
    turnsSurvived: nat,
    seenTurns: seq<int>,
    identityKey: string,
    historicalHashes: seq<string>)

  type Records = map<Key, BlockLineage>

  // ---------- the incremental record ----------

  function AddHash(hs: seq<string>, h: string): seq<string> {
    if h != "" && h !in hs then hs + [h] else hs
  }

  function Lookup(records: Records, k: Key): Option<BlockLineage> {
    if k in records then Some(records[k]) else None
  }

  function NewRecord(t: nat, b: Block): BlockLineage {
    BlockLineage(b.blockType, b.contentHash, t, t, 0, [t], b.identityKey, AddHash([], b.contentHash))
  }

  /** The record of a block's key after the block is met in turn t. */
  function Touch(old_: Option<BlockLineage>, t: nat, b: Block): BlockLineage {
    match old_
    case None => NewRecord(t, b)
    case Some(rec) =>
      if rec.lastSeenTurn == t then
        rec
      else
        var same := b.contentHash == rec.contentHash;
        rec.(
          turnsSurvived := if rec.lastSeenTurn == t - 1 && same then rec.turnsSurvived + 1 else 0,
          contentHash := b.contentHash,
          historicalHashes :=
            if same then rec.historicalHashes
            else AddHash(AddHash(rec.historicalHashes, rec.contentHash), b.contentHash),
          lastSeenTurn := t,
          seenTurns := rec.seenTurns + [t as int])
  }

  function Visit(records: Records, t: nat, b: Block): Records {
    records[MatchKey(b) := Touch(Lookup(records, MatchKey(b)), t, b)]
  }

  /** The records after all blocks of turn t have been met in order. */
  function VisitAll(records: Records, t: nat, bs: seq<Block>): Records {
    if bs == [] then records else Visit(VisitAll(records, t, bs[..|bs| - 1]), t, bs[|bs| - 1])
  }

  /** A second block in the same turn changes nothing. */
  lemma TouchTwice(old_: Option<BlockLineage>, t: nat, b: Block, c: Block)
    ensures Touch(Some(Touch(old_, t, b)), t, c) == Touch(old_, t, b)
  {
  }

  /** Within a turn only the first block with a key moves the key's record. */
  lemma {:induction false} VisitAllAtKey(records: Records, t: nat, bs: seq<Block>, k: Key)
    requires k in records ==> records[k].lastSeenTurn < t
    ensures Lookup(VisitAll(records, t, bs), k)
         == match FirstWithKey(bs, k)
            case None => Lookup(records, k)
            case Some(b) => Some(Touch(Lookup(records, k), t, b))
  {
    if bs != [] {
      hide Touch, FirstWithKey, MatchKey;
      var init, last := bs[..|bs| - 1], bs[|bs| - 1];
      VisitAllAtKey(records, t, init, k);
      FirstWithKeySnoc(init, last, k);
      assert init + [last] == bs;
      if FirstWithKey(init, k).Some? {
        TouchTwice(Lookup(records, k), t, FirstWithKey(init, k).value, last);
      }
    }
  }

  // ---------- the recount from the whole history ----------

  // History: the blocks of turn i at position i.
  type History = seq<seq<Block>>

  function HashIn(bs: seq<Block>, k: Key): Option<string> {
    match FirstWithKey(bs, k)
    case None => None
    case Some(b) => Some(b.contentHash)
  }

  /** Number of turns just before turn i whose first block with key k has the hash it has in turn i. */
  function Streak(h: History, i: nat, k: Key): (s: nat)
    requires i < |h|
    ensures s <= i
  {
    if i > 0 && HashIn(h[i - 1], k) == HashIn(h[i], k) then Streak(h, i - 1, k) + 1 else 0
  }

  /** The turns that contain key k, in order. */
  function Seen(h: History, k: Key): (r: seq<int>)
    ensures forall j :: 0 <= j < |r| ==> 0 <= r[j] < |h|
    ensures StrictlyIncreasing(r)
  {
    if h == [] then []
    else
      var n := |h| - 1;
      Seen(h[..n], k) + (if HashIn(h[n], k).Some? then [n] else [])
  }

  /** The non-empty hashes that the first block with key k has carried. */
  function Carried(h: History, k: Key): set<string> {
    if h == [] then {}
    else
      var n := |h| - 1;
      Carried(h[..n], k)
      + (match HashIn(h[n], k) case None => {} case Some(x) => if x == "" then {} else {x})
  }

  /** These hashes as a list, in the order in which they were first carried. */
  function Hashes(h: History, k: Key): seq<string> {
    if h == [] then []
    else
      var n := |h| - 1;
      var before := Hashes(h[..n], k);
      match HashIn(h[n], k)
      case None => before
      case Some(x) => if x == "" || x in before then before else before + [x]
  }

  lemma {:induction false} HashesMean(h: History, k: Key)
    ensures Distinct(Hashes(h, k)) && Elements(Hashes(h, k)) == Carried(h, k)
  {
    if h != [] {
      var n := |h| - 1;
      HashesMean(h[..n], k);
      var before := Hashes(h[..n], k);
      assert forall x :: Elements(before + [x]) == Elements(before) + {x};
    }
  }

  /** A record agrees with the history of its key. */
  ghost predicate RecordAgrees(rec: BlockLineage, h: History, k: Key) {
    var seen := Seen(h, k);
    && seen != []
    && rec.seenTurns == seen
    && rec.firstSeenTurn == seen[0]
    && rec.lastSeenTurn == seen[|seen| - 1]
    && rec.lastSeenTurn < |h|
    && HashIn(h[rec.lastSeenTurn], k) == Some(rec.contentHash)
    && FirstWithKey(h[seen[0]], k).Some?
    && rec.turnsSurvived == Streak(h, rec.lastSeenTurn, k)
    && rec.historicalHashes == Hashes(h, k)
    && (rec.contentHash != "" ==> rec.contentHash in rec.historicalHashes)
    && rec.blockType == k.blockType
    && rec.identityKey == FirstWithKey(h[seen[0]], k).value.identityKey
  }

  ghost predicate AgreesAt(records: Records, h: History, k: Key) {
    if Seen(h, k) == [] then k !in records else k in records && RecordAgrees(records[k], h, k)
  }

  /** The incremental records are what a recount of the whole history gives. */
  ghost predicate Agrees(records: Records, h: History) {
    forall k :: AgreesAt(records, h, k)
  }

  /** What happened at the earlier turns does not depend on the later ones. */
  lemma {:induction false} StreakPrefix(h: History, bs: seq<Block>, i: nat, k: Key)
    requires i < |h|
    ensures Streak(h + [bs], i, k) == Streak(h, i, k)
  {
    if i > 0 {
      StreakPrefix(h, bs, i - 1, k);
    }
  }

  lemma SeenSnoc(h: History, bs: seq<Block>, k: Key)
    ensures Seen(h + [bs], k) == Seen(h, k) + (if HashIn(bs, k).Some? then [|h|] else [])
    ensures Hashes(h + [bs], k) == match HashIn(bs, k) case None => Hashes(h, k) case Some(x) => AddHash(Hashes(h, k), x)
  {
    assert (h + [bs])[..|h + [bs]| - 1] == h;
  }

  lemma AddHashDistinct(hs: seq<string>, x: string)
    requires Distinct(hs)
    ensures Distinct(AddHash(hs, x))
  {
  }

  /** A key last met before the previous turn is absent from it. */
  lemma {:induction false} SeenIffPresent(h: History, k: Key, i: nat)
    requires i < |h|
    ensures i in Seen(h, k) <==> HashIn(h[i], k).Some?
  {
    var n := |h| - 1;
    if i < n {
      SeenIffPresent(h[..n], k, i);
    }
  }

  lemma LastOfSeen(seen: seq<int>, n: int)
    requires StrictlyIncreasing(seen) && n in seen && forall j :: 0 <= j < |seen| ==> seen[j] <= n
    ensures seen[|seen| - 1] == n
  {
  }

  /** The hash history of a touched record. */
  lemma TouchHashes(old_: Option<BlockLineage>, h: History, bs: seq<Block>, k: Key, b: Block)
    requires FirstWithKey(bs, k) == Some(b)
    requires if Seen(h, k) == [] then old_.None? else old_.Some? && RecordAgrees(old_.value, h, k)
    ensures var rec := Touch(old_, |h|, b);
            && rec.historicalHashes == Hashes(h + [bs], k)
            && (rec.contentHash != "" ==> rec.contentHash in rec.historicalHashes)
  {
    hide FirstWithKey, Streak;
    SeenSnoc(h, bs, k);
    if old_.None? {
      HashesOfUnseen(h, k);
    }
  }

  /** The survival count of a touched record. */
  lemma TouchStreak(rec: BlockLineage, h: History, bs: seq<Block>, k: Key, b: Block)
    requires FirstWithKey(bs, k) == Some(b)
    requires RecordAgrees(rec, h, k)
    ensures Touch(Some(rec), |h|, b).turnsSurvived == Streak(h + [bs], |h|, k)
  {
    hide Hashes, AddHash, FirstWithKey;
    var n, h', seen := |h|, h + [bs], Seen(h, k);
    assert h'[n] == bs && h'[n - 1] == h[n - 1];
    SeenIffPresent(h, k, n - 1);
    StreakPrefix(h, bs, n - 1, k);
    assert seen[|seen| - 1] in seen;
  }

  /** A key that was never seen has no streak behind it. */
  lemma NewStreak(h: History, bs: seq<Block>, k: Key)
    requires Seen(h, k) == [] && HashIn(bs, k).Some?
    ensures Streak(h + [bs], |h|, k) == 0
  {
    var n, h' := |h|, h + [bs];
    if n > 0 {
      SeenIffPresent(h, k, n - 1);
      assert h'[n - 1] == h[n - 1] && h'[n] == bs;
    }
  }

  /** What meeting a key in a newer turn does to its record besides the count and the hash history. */
  lemma TouchMoves(rec: BlockLineage, t: nat, b: Block)
    requires rec.lastSeenTurn != t
    ensures var rec' := Touch(Some(rec), t, b);
            && rec'.seenTurns == rec.seenTurns + [t] && rec'.lastSeenTurn == t && rec'.contentHash == b.contentHash
            && rec'.firstSeenTurn == rec.firstSeenTurn && rec'.blockType == rec.blockType && rec'.identityKey == rec.identityKey
  {
  }

  lemma OldRecordAgrees(rec: BlockLineage, h: History, bs: seq<Block>, k: Key, b: Block)
    requires FirstWithKey(bs, k) == Some(b) && RecordAgrees(rec, h, k)
    ensures RecordAgrees(Touch(Some(rec), |h|, b), h + [bs], k)
  {
    hide Hashes, Streak, Seen, FirstWithKey, Touch;
    var h' := h + [bs];
    SeenSnoc(h, bs, k);
    TouchHashes(Some(rec), h, bs, k, b);
    TouchMoves(rec, |h|, b);
    TouchStreak(rec, h, bs, k, b);
    assert h'[|h|] == bs && h'[Seen(h, k)[0]] == h[Seen(h, k)[0]];
  }

  lemma NewRecordAgrees(h: History, bs: seq<Block>, k: Key, b: Block)
    requires FirstWithKey(bs, k) == Some(b) && Seen(h, k) == []
    ensures RecordAgrees(NewRecord(|h|, b), h + [bs], k)
  {
    hide Hashes, Streak, Seen, FirstWithKey, AddHash;
    var h', n := h + [bs], |h|;
    SeenSnoc(h, bs, k);
    TouchHashes(None, h, bs, k, b);
    NewStreak(h, bs, k);
    KeyOfFirst(bs, k);
    assert h'[n] == bs;
    assert Seen(h', k) == [n] by { assert [] + [n] == [n]; }
  }

  lemma TouchAgrees(old_: Option<BlockLineage>, h: History, bs: seq<Block>, k: Key, b: Block)
    requires FirstWithKey(bs, k) == Some(b)
    requires if Seen(h, k) == [] then old_.None? else old_.Some? && RecordAgrees(old_.value, h, k)
    ensures RecordAgrees(Touch(old_, |h|, b), h + [bs], k)
  {
    hide RecordAgrees;
    if old_.None? {
      NewRecordAgrees(h, bs, k, b);
    } else {
      OldRecordAgrees(old_.value, h, bs, k, b);
    }
  }

  lemma KeyOfFirst(bs: seq<Block>, k: Key)
    ensures FirstWithKey(bs, k).Some? ==> FirstWithKey(bs, k).value.blockType == k.blockType
  {
  }

  lemma {:induction false} HashesOfUnseen(h: History, k: Key)
    requires Seen(h, k) == []
    ensures Hashes(h, k) == []
  {
    if h != [] {
      HashesOfUnseen(h[..|h| - 1], k);
    }
  }

  lemma AddTurnAgreesAt(records: Records, h: History, bs: seq<Block>, k: Key)
    requires AgreesAt(records, h, k)
    ensures AgreesAt(VisitAll(records, |h|, bs), h + [bs], k)
  {
    VisitAllAtKey(records, |h|, bs, k);
    SeenSnoc(h, bs, k);
    if FirstWithKey(bs, k).Some? {
      TouchAgrees(Lookup(records, k), h, bs, k, FirstWithKey(bs, k).value);
    } else if k in records {
      StreakPrefix(h, bs, records[k].lastSeenTurn, k);
    }
  }

  /** Adding a turn keeps the incremental records equal to the recount. */
  lemma AddTurnAgrees(records: Records, h: History, bs: seq<Block>)
    requires Agrees(records, h)
    ensures Agrees(VisitAll(records, |h|, bs), h + [bs])
  {
    forall k ensures AgreesAt(VisitAll(records, |h|, bs), h + [bs], k) {
      AddTurnAgreesAt(records, h, bs, k);
    }
  }

  /** The records after adding turns 0, 1, 2, ... */
  function Replay(h: History): Records {
    if h == [] then map[] else VisitAll(Replay(h[..|h| - 1]), |h| - 1, h[|h| - 1])
  }

  /** After any run of turn additions the incremental records are the full recount. */
  lemma {:induction false} ReplayAgrees(h: History)
    ensures Agrees(Replay(h), h)
  {
    if h != [] {
      var n := |h| - 1;
      ReplayAgrees(h[..n]);
      AddTurnAgrees(Replay(h[..n]), h[..n], h[n]);
      assert h[..n] + [h[n]] == h;
    }
  }

  // ---------- what the recount means ----------

  /** s preceding turns carry the same first hash for k as turn i, and the turn before them does not. */
  ghost predicate IsLongestRun(h: History, i: nat, k: Key, s: nat)
    requires i < |h|
  {
    && s <= i
    && (forall j :: i - s <= j <= i ==> HashIn(h[j], k) == HashIn(h[i], k))
    && (s < i ==> HashIn(h[i - s - 1], k) != HashIn(h[i], k))
  }

  lemma {:induction false} StreakIsLongestRun(h: History, i: nat, k: Key, s: nat)
    requires i < |h|
    ensures IsLongestRun(h, i, k, s) <==> s == Streak(h, i, k)
  {
    if 0 < s <= i {
      StreakIsLongestRun(h, i - 1, k, s - 1);
      var same := HashIn(h[i - 1], k) == HashIn(h[i], k);
      if IsLongestRun(h, i, k, s) {
        assert same;
      } else if same {
        assert !IsLongestRun(h, i - 1, k, s - 1);
      }
    }
  }

  /** The head of Seen is the earliest turn with the key. */
  lemma FirstSeenIsEarliest(h: History, k: Key, i: nat)
    requires i < |h| && HashIn(h[i], k).Some?
    ensures Seen(h, k) != [] && 0 <= Seen(h, k)[0] <= i
    ensures HashIn(h[Seen(h, k)[0]], k).Some?
  {
    SeenIffPresent(h, k, i);
    var first := Seen(h, k)[0];
    assert first in Seen(h, k);
    SeenIffPresent(h, k, first);
  }

  // ---------- refreshing a turn ----------

  /** The record of a block's key after the block is met while turn t is refreshed: the hash is left alone. */
  function Refresh(old_: Option<BlockLineage>, t: nat, b: Block): BlockLineage {
    match old_
    case None => NewRecord(t, b)
    case Some(rec) =>
      rec.(lastSeenTurn := t, seenTurns := if t in rec.seenTurns then rec.seenTurns else rec.seenTurns + [t as int])
  }

  function RefreshAll(records: Records, t: nat, bs: seq<Block>): Records {
    if bs == [] then records
    else
      var before, b := RefreshAll(records, t, bs[..|bs| - 1]), bs[|bs| - 1];
      before[MatchKey(b) := Refresh(Lookup(before, MatchKey(b)), t, b)]
  }

  /** A second refresh in the same turn changes nothing. */
  lemma RefreshTwice(old_: Option<BlockLineage>, t: nat, b: Block, c: Block)
    ensures Refresh(Some(Refresh(old_, t, b)), t, c) == Refresh(old_, t, b)
  {
  }

  lemma {:induction false} RefreshAllAtKey(records: Records, t: nat, bs: seq<Block>, k: Key)
    ensures Lookup(RefreshAll(records, t, bs), k)
         == match FirstWithKey(bs, k)
            case None => Lookup(records, k)
            case Some(b) => Some(Refresh(Lookup(records, k), t, b))
  {
    if bs != [] {
      hide Refresh, FirstWithKey, MatchKey;
      var init, last := bs[..|bs| - 1], bs[|bs| - 1];
      RefreshAllAtKey(records, t, init, k);
      FirstWithKeySnoc(init, last, k);
      assert init + [last] == bs;
      if FirstWithKey(init, k).Some? {
        RefreshTwice(Lookup(records, k), t, FirstWithKey(init, k).value, last);
      }
    }
  }

  /** The shape every record keeps, whatever the mix of additions and refreshes. */
  ghost predicate Shaped(rec: BlockLineage) {
    var seen := rec.seenTurns;
    && seen != []
    && StrictlyIncreasing(seen)
    && seen[0] == rec.firstSeenTurn
    && seen[|seen| - 1] == rec.lastSeenTurn
    && Distinct(rec.historicalHashes)
  }

  ghost predicate AllShaped(records: Records) {
    forall k :: k in records ==> Shaped(records[k])
  }

  /** No key of the turn has been met in a later turn. */
  predicate IsLatestFor(records: Records, t: nat, bs: seq<Block>) {
    forall b | b in bs :: MatchKey(b) in records ==> records[MatchKey(b)].lastSeenTurn <= t
  }

  lemma TouchShapedIff(rec: BlockLineage, t: nat, b: Block)
    requires Shaped(rec)
    ensures Shaped(Touch(Some(rec), t, b)) <==> rec.lastSeenTurn <= t
  {
    AddHashDistinct(rec.historicalHashes, rec.contentHash);
    AddHashDistinct(AddHash(rec.historicalHashes, rec.contentHash), b.contentHash);
    var rec', n := Touch(Some(rec), t, b), |rec.seenTurns|;
    if rec.lastSeenTurn > t {
      assert rec'.seenTurns[n - 1] == rec.lastSeenTurn && rec'.seenTurns[n] == t;
    }
  }

  lemma RefreshShapedIff(rec: BlockLineage, t: nat, b: Block)
    requires Shaped(rec)
    ensures Shaped(Refresh(Some(rec), t, b)) <==> rec.lastSeenTurn <= t
  {
    var rec', n := Refresh(Some(rec), t, b), |rec.seenTurns|;
    if t in rec.seenTurns {
      var i :| 0 <= i < n && rec.seenTurns[i] == t;
      assert i == n - 1 || rec.seenTurns[i] < rec.seenTurns[n - 1];
    } else {
      assert rec'.seenTurns[n - 1] == rec.lastSeenTurn && rec'.seenTurns[n] == t;
    }
  }

  /** Refreshing turn t keeps every record in shape exactly when t is not older than what its keys have seen. */
  lemma RefreshAllShapedIff(records: Records, t: nat, bs: seq<Block>)
    requires AllShaped(records)
    ensures AllShaped(RefreshAll(records, t, bs)) <==> IsLatestFor(records, t, bs)
  {
    var after := RefreshAll(records, t, bs);
    forall k
      ensures FirstWithKey(bs, k).Some? && k in records ==>
                k in after && (Shaped(after[k]) <==> records[k].lastSeenTurn <= t)
      ensures !(FirstWithKey(bs, k).Some? && k in records) && k in after ==> Shaped(after[k])
    {
      RefreshAllAtKey(records, t, bs, k);
      var first := FirstWithKey(bs, k);
      if first.Some? && k in records {
        RefreshShapedIff(records[k], t, first.value);
      }
    }
    if AllShaped(after) {
      forall b | b in bs ensures MatchKey(b) in records ==> records[MatchKey(b)].lastSeenTurn <= t {
        assert FirstWithKey(bs, MatchKey(b)).Some?;
      }
    }
  }

  /** Adding turn t keeps every record in shape when t is newer than all of them. */
  lemma VisitAllShaped(records: Records, t: nat, bs: seq<Block>)
    requires AllShaped(records)
    requires forall k :: k in records ==> records[k].lastSeenTurn < t
    ensures AllShaped(VisitAll(records, t, bs))
    ensures forall k :: k in VisitAll(records, t, bs) ==> VisitAll(records, t, bs)[k].lastSeenTurn <= t
  {
    var after := VisitAll(records, t, bs);
    forall k | k in after ensures Shaped(after[k]) && after[k].lastSeenTurn <= t {
      VisitAllAtKey(records, t, bs, k);
      var first := FirstWithKey(bs, k);
      if first.Some? && k in records {
        TouchShapedIff(records[k], t, first.value);
      }
    }
  }

  // One call on a graph: a new turn, or a refresh of its latest turn with another snapshot of blocks.
  datatype GraphCall = AddTurn(blocks: seq<Block>) | UpdateLatest(blocks: seq<Block>)

  function TurnsAfter(calls: seq<GraphCall>): nat {
    if calls == [] then 0
    else TurnsAfter(calls[..|calls| - 1]) + (if calls[|calls| - 1].AddTurn? then 1 else 0)
  }

  function RecordsAfter(calls: seq<GraphCall>): Records {
    if calls == [] then map[]
    else
      var before, n := RecordsAfter(calls[..|calls| - 1]), TurnsAfter(calls[..|calls| - 1]);
      match calls[|calls| - 1]
      case AddTurn(bs) => VisitAll(before, n, bs)
      case UpdateLatest(bs) => if n == 0 then before else RefreshAll(before, n - 1, bs)
  }

  lemma OlderIsLatest(records: Records, t: nat, bs: seq<Block>)
    requires forall k :: k in records ==> records[k].lastSeenTurn <= t
    ensures IsLatestFor(records, t, bs)
  {
  }

  /** All records are in shape and none has been seen in turn n or later. */
  ghost predicate ShapedBelow(records: Records, n: nat) {
    AllShaped(records) && forall k :: k in records ==> records[k].lastSeenTurn < n
  }

  lemma VisitShapedBelow(records: Records, n: nat, bs: seq<Block>)
    requires ShapedBelow(records, n)
    ensures ShapedBelow(VisitAll(records, n, bs), n + 1)
  {
    hide VisitAll;
    VisitAllShaped(records, n, bs);
  }

  lemma RefreshShapedBelow(records: Records, n: nat, bs: seq<Block>)
    requires n > 0 && ShapedBelow(records, n)
    ensures ShapedBelow(RefreshAll(records, n - 1, bs), n)
  {
    hide RefreshAll, IsLatestFor, AllShaped;
    RefreshAllShapedIff(records, n - 1, bs);
    OlderIsLatest(records, n - 1, bs);
    var after := RefreshAll(records, n - 1, bs);
    forall k | k in after ensures after[k].lastSeenTurn < n {
      RefreshAllAtKey(records, n - 1, bs, k);
    }
  }

  lemma {:induction false} RunShapedBelow(calls: seq<GraphCall>)
    ensures ShapedBelow(RecordsAfter(calls), TurnsAfter(calls))
  {
    if calls != [] {
      hide ShapedBelow, VisitAll, RefreshAll;
      var init, last := calls[..|calls| - 1], calls[|calls| - 1];
      RunShapedBelow(init);
      if last.AddTurn? {
        VisitShapedBelow(RecordsAfter(init), TurnsAfter(init), last.blocks);
      } else if TurnsAfter(init) > 0 {
        RefreshShapedBelow(RecordsAfter(init), TurnsAfter(init), last.blocks);
      }
    }
  }

  /** Every record stays in shape over any mix of additions and refreshes of the latest turn. */
  lemma RunKeepsShape(calls: seq<GraphCall>)
    ensures AllShaped(RecordsAfter(calls))
    ensures forall k :: k in RecordsAfter(calls) ==> RecordsAfter(calls)[k].lastSeenTurn < TurnsAfter(calls)
  {
    hide RecordsAfter, TurnsAfter;
    RunShapedBelow(calls);
  }

  /** A block in turns 0 and 1: a refresh of turn 0 sets the last turn seen back to 0. */
  lemma RefreshOfOldTurnBreaksShape(b: Block)
    ensures var calls := [AddTurn([b]), AddTurn([b])];
            && TurnsAfter(calls) == 2 && AllShaped(RecordsAfter(calls))
            && !AllShaped(RefreshAll(RecordsAfter(calls), 0, [b]))
            && MatchKey(b) in RefreshAll(RecordsAfter(calls), 0, [b])
            && RefreshAll(RecordsAfter(calls), 0, [b])[MatchKey(b)].seenTurns == [0, 1]
            && RefreshAll(RecordsAfter(calls), 0, [b])[MatchKey(b)].lastSeenTurn == 0
  {
    var calls, k := [AddTurn([b]), AddTurn([b])], MatchKey(b);
    TwoTurns(b);
    RunKeepsShape(calls);
    var records := RecordsAfter(calls);
    RefreshAllAtKey(records, 0, [b], k);
    RefreshAllShapedIff(records, 0, [b]);
    assert !IsLatestFor(records, 0, [b]) by { assert b in [b]; }
  }

  lemma TwoTurns(b: Block)
    ensures var calls := [AddTurn([b]), AddTurn([b])];
            && TurnsAfter(calls) == 2 && MatchKey(b) in RecordsAfter(calls)
            && RecordsAfter(calls)[MatchKey(b)].seenTurns == [0, 1]
            && RecordsAfter(calls)[MatchKey(b)].lastSeenTurn == 1
  {
    var one, calls, k := [AddTurn([b])], [AddTurn([b]), AddTurn([b])], MatchKey(b);
    assert calls[..1] == one && one[..0] == [];
    VisitOne(map[], 0, b);
    assert RecordsAfter([]) == map[] && TurnsAfter([]) == 0;
    assert RecordsAfter(one)[k] == NewRecord(0, b) && TurnsAfter(one) == 1;
    VisitOne(RecordsAfter(one), 1, b);
    assert [0] + [1] == [0, 1];
  }

  lemma VisitOne(records: Records, t: nat, b: Block)
    ensures VisitAll(records, t, [b]) == Visit(records, t, b)
  {
    assert [b][..0] == [];
    assert VisitAll(records, t, []) == records;
  }
}

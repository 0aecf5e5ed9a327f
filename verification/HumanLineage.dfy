/**
 * The lineage of a session whose turns are both added and updated, as in human granularity: what an update keeps,
 * and when the records are the recount of everything a turn has held (src/core/graph/turn_tree.py, update_turn).
 */
module HumanLineage {
  import opened Collections
  import opened Blocks
  import opened Lineage

  // ---------- what a refresh keeps ----------

  /** A record that was there keeps everything but the turns it was seen in; the latter gain the refreshed turn. */
  lemma RefreshKeeps(records: Records, t: nat, bs: seq<Block>, k: Key)
    requires k in records
    ensures k in RefreshAll(records, t, bs)
    ensures var old_, new_ := records[k], RefreshAll(records, t, bs)[k];
            && new_.turnsSurvived == old_.turnsSurvived && new_.contentHash == old_.contentHash
            && new_.firstSeenTurn == old_.firstSeenTurn && new_.historicalHashes == old_.historicalHashes
            && new_.blockType == old_.blockType && new_.identityKey == old_.identityKey
            && (FirstWithKey(bs, k).None? ==> new_ == old_)
            && (FirstWithKey(bs, k).Some? ==>
                  && new_.lastSeenTurn == t
                  && new_.seenTurns == if t in old_.seenTurns then old_.seenTurns else old_.seenTurns + [t])
  {
    RefreshAllAtKey(records, t, bs, k);
  }

  /** A key that was not there starts with its first block in the turn, as it does in an added turn. */
  lemma RefreshStarts(records: Records, t: nat, bs: seq<Block>, k: Key)
    requires k !in records
    ensures Lookup(RefreshAll(records, t, bs), k) == Lookup(VisitAll(records, t, bs), k)
    ensures k in RefreshAll(records, t, bs) <==> FirstWithKey(bs, k).Some?
  {
    RefreshAllAtKey(records, t, bs, k);
    VisitAllAtKey(records, t, bs, k);
  }

  // ---------- histories that look the same to a key ----------

  ghost predicate SameForKey(h: History, g: History, k: Key) {
    |h| == |g| && forall i :: 0 <= i < |h| ==> FirstWithKey(h[i], k) == FirstWithKey(g[i], k)
  }

  lemma {:induction false} SameStreak(h: History, g: History, i: nat, k: Key)
    requires SameForKey(h, g, k) && i < |h|
    ensures Streak(h, i, k) == Streak(g, i, k)
  {
    hide FirstWithKey;
    if i > 0 {
      SameStreak(h, g, i - 1, k);
      assert HashIn(h[i - 1], k) == HashIn(g[i - 1], k) && HashIn(h[i], k) == HashIn(g[i], k);
    }
  }

  lemma {:induction false} SameSeen(h: History, g: History, k: Key)
    requires SameForKey(h, g, k)
    ensures Seen(h, k) == Seen(g, k) && Hashes(h, k) == Hashes(g, k)
  {
    if h != [] {
      var n := |h| - 1;
      SameSeen(h[..n], g[..n], k);
      assert HashIn(h[n], k) == HashIn(g[n], k);
    }
  }

  lemma SameAgrees(rec: BlockLineage, h: History, g: History, k: Key)
    requires SameForKey(h, g, k)
    ensures RecordAgrees(rec, h, k) <==> RecordAgrees(rec, g, k)
  {
    hide Seen, Streak, Hashes, FirstWithKey;
    SameSeen(h, g, k);
    if rec.lastSeenTurn < |h| {
      SameStreak(h, g, rec.lastSeenTurn, k);
    }
    assert forall i :: 0 <= i < |h| ==> FirstWithKey(h[i], k) == FirstWithKey(g[i], k);
  }

  /** A history determines the record of a key. */
  lemma RecordUnique(a: BlockLineage, b: BlockLineage, h: History, k: Key)
    requires RecordAgrees(a, h, k) && RecordAgrees(b, h, k)
    ensures a == b
  {
  }

  /** So the recount determines the records. */
  lemma AgreementUnique(a: Records, b: Records, h: History)
    requires Agrees(a, h) && Agrees(b, h)
    ensures a == b
  {
    forall k ensures Lookup(a, k) == Lookup(b, k) {
      assert AgreesAt(a, h, k) && AgreesAt(b, h, k);
      if k in a {
        RecordUnique(a[k], b[k], h, k);
      }
    }
    SameLookups(a, b);
  }

  lemma SameLookups(a: Records, b: Records)
    requires forall k :: Lookup(a, k) == Lookup(b, k)
    ensures a == b
  {
    forall k ensures (k in a <==> k in b) && (k in a ==> a[k] == b[k]) {
      assert Lookup(a, k) == Lookup(b, k);
    }
  }

  // ---------- one refresh of the latest turn ----------

  /** The latest turn has held these blocks too. */
  function Extended(h: History, bs: seq<Block>): History {
    if h == [] then [] else h[|h| - 1 := h[|h| - 1] + bs]
  }

  lemma {:induction false} FirstWithKeyAppend(a: seq<Block>, b: seq<Block>, k: Key)
    ensures FirstWithKey(a + b, k) == if FirstWithKey(a, k).Some? then FirstWithKey(a, k) else FirstWithKey(b, k)
  {
    if a == [] {
      assert a + b == b;
    } else {
      assert (a + b)[0] == a[0] && (a + b)[1..] == a[1..] + b;
      FirstWithKeyAppend(a[1..], b, k);
    }
  }

  /**
   * The record takes no harm when the refresh of turn t meets block b under its key: the key has been met in this turn
   * already; or b carries the recorded hash, the count stands at zero, and the key was missing from the turn before.
   */
  predicate TakesNoHarm(rec: BlockLineage, t: nat, b: Block) {
    rec.lastSeenTurn == t
    || (b.contentHash == rec.contentHash && rec.turnsSurvived == 0 && rec.lastSeenTurn + 1 < t)
  }

  lemma RefreshIsTouchIff(rec: BlockLineage, t: nat, b: Block)
    requires rec.lastSeenTurn < t && t !in rec.seenTurns
    ensures Refresh(Some(rec), t, b) == Touch(Some(rec), t, b) <==> TakesNoHarm(rec, t, b)
  {
  }

  /** The key is not among the new blocks, or the turn has it already: the recount of the key stays. */
  lemma NothingNew(rec: BlockLineage, h: History, bs: seq<Block>, k: Key)
    requires h != [] && (FirstWithKey(bs, k).None? || FirstWithKey(h[|h| - 1], k).Some?)
    ensures RecordAgrees(rec, h, k) <==> RecordAgrees(rec, Extended(h, bs), k)
    ensures Seen(h, k) == Seen(Extended(h, bs), k)
  {
    hide RecordAgrees;
    FirstWithKeyAppend(h[|h| - 1], bs, k);
    assert SameForKey(h, Extended(h, bs), k);
    SameAgrees(rec, h, Extended(h, bs), k);
    SameSeen(h, Extended(h, bs), k);
  }

  /** The latest turn lacks the key: its record agrees with the turns before. */
  lemma WithoutLatest(rec: BlockLineage, init: History, last: seq<Block>, k: Key)
    requires HashIn(last, k).None? && RecordAgrees(rec, init + [last], k)
    ensures RecordAgrees(rec, init, k)
  {
    hide Seen, Streak, Hashes, FirstWithKey;
    SeenSnoc(init, last, k);
    assert Seen(init, k)[|Seen(init, k)| - 1] in Seen(init, k);
    StreakPrefix(init, last, rec.lastSeenTurn, k);
    assert forall i :: 0 <= i < |init| ==> (init + [last])[i] == init[i];
  }

  lemma InSeenOnlyOnce(rec: BlockLineage, h: History, k: Key)
    requires RecordAgrees(rec, h, k) && |h| > 0
    ensures |h| - 1 in rec.seenTurns <==> FirstWithKey(h[|h| - 1], k).Some?
    ensures FirstWithKey(h[|h| - 1], k).Some? ==> rec.lastSeenTurn == |h| - 1
  {
    SeenIffPresent(h, k, |h| - 1);
    if |h| - 1 in Seen(h, k) {
      LastOfSeen(Seen(h, k), |h| - 1);
    }
  }

  /** The key comes back to the latest turn, or comes to it for the first time. */
  lemma ComesBack(rec: BlockLineage, h: History, bs: seq<Block>, k: Key, b: Block)
    requires h != [] && RecordAgrees(rec, h, k) && FirstWithKey(h[|h| - 1], k).None? && FirstWithKey(bs, k) == Some(b)
    ensures RecordAgrees(Refresh(Some(rec), |h| - 1, b), Extended(h, bs), k) <==> TakesNoHarm(rec, |h| - 1, b)
  {
    hide RecordAgrees, Touch, Refresh, Seen;
    var t, init, last := |h| - 1, h[..|h| - 1], h[|h| - 1];
    assert h == init + [last] && Extended(h, bs) == init + [last + bs];
    InSeenOnlyOnce(rec, h, k);
    WithoutLatest(rec, init, last, k);
    LastSeenBelow(rec, init, k);
    FirstWithKeyAppend(last, bs, k);
    OldRecordAgrees(rec, init, last + bs, k, b);
    RefreshIsTouchIff(rec, t, b);
    if RecordAgrees(Refresh(Some(rec), t, b), Extended(h, bs), k) {
      RecordUnique(Refresh(Some(rec), t, b), Touch(Some(rec), t, b), Extended(h, bs), k);
    }
  }

  lemma LastSeenBelow(rec: BlockLineage, h: History, k: Key)
    requires RecordAgrees(rec, h, k)
    ensures rec.lastSeenTurn < |h|
  {
  }

  lemma ComesNew(h: History, bs: seq<Block>, k: Key, b: Block)
    requires h != [] && Seen(h, k) == [] && FirstWithKey(bs, k) == Some(b)
    ensures Seen(Extended(h, bs), k) != [] && RecordAgrees(NewRecord(|h| - 1, b), Extended(h, bs), k)
  {
    hide RecordAgrees, Seen, FirstWithKey, NewRecord;
    var init, last := h[..|h| - 1], h[|h| - 1];
    assert h == init + [last] && Extended(h, bs) == init + [last + bs];
    NotSeenBefore(init, last, k);
    FirstWithKeyAppend(last, bs, k);
    NewRecordAgrees(init, last + bs, k, b);
    AgreedIsSeen(NewRecord(|h| - 1, b), Extended(h, bs), k);
  }

  lemma NotSeenBefore(init: History, last: seq<Block>, k: Key)
    requires Seen(init + [last], k) == []
    ensures Seen(init, k) == [] && FirstWithKey(last, k).None?
  {
    hide FirstWithKey, Seen;
    SeenSnoc(init, last, k);
  }

  lemma AgreedIsSeen(rec: BlockLineage, h: History, k: Key)
    requires RecordAgrees(rec, h, k)
    ensures Seen(h, k) != []
  {
  }

  lemma StaysSeen(h: History, bs: seq<Block>, k: Key)
    requires h != [] && Seen(h, k) != []
    ensures Seen(Extended(h, bs), k) != []
  {
    var init, last := h[..|h| - 1], h[|h| - 1];
    assert h == init + [last] && Extended(h, bs) == init + [last + bs];
    SeenSnoc(init, last, k);
    SeenSnoc(init, last + bs, k);
    FirstWithKeyAppend(last, bs, k);
  }

  /** A refresh of the latest turn at one key. */
  lemma RefreshAgreesAtIff(records: Records, h: History, bs: seq<Block>, k: Key)
    requires h != [] && AgreesAt(records, h, k)
    ensures AgreesAt(RefreshAll(records, |h| - 1, bs), Extended(h, bs), k)
       <==> (k in records && FirstWithKey(bs, k).Some? ==> TakesNoHarm(records[k], |h| - 1, FirstWithKey(bs, k).value))
  {
    hide RecordAgrees, RefreshAll, Seen, TakesNoHarm;
    var t := |h| - 1;
    RefreshAllAtKey(records, t, bs, k);
    if k !in records {
      if FirstWithKey(bs, k).Some? {
        ComesNew(h, bs, k, FirstWithKey(bs, k).value);
      } else {
        NothingNew(BlockLineage(System, "", 0, 0, 0, [], "", []), h, bs, k);
      }
    } else {
      StaysSeen(h, bs, k);
      InSeenOnlyOnce(records[k], h, k);
      if FirstWithKey(bs, k).None? {
        NothingNew(records[k], h, bs, k);
      } else if FirstWithKey(h[t], k).Some? {
        NothingNew(records[k], h, bs, k);
        SeenAlready(records[k], t, FirstWithKey(bs, k).value);
      } else {
        ComesBack(records[k], h, bs, k, FirstWithKey(bs, k).value);
      }
    }
  }

  /** A refresh leaves a record alone that has been seen in this turn. */
  lemma SeenAlready(rec: BlockLineage, t: nat, b: Block)
    requires rec.lastSeenTurn == t && t in rec.seenTurns
    ensures Refresh(Some(rec), t, b) == rec && TakesNoHarm(rec, t, b)
  {
  }

  /** No key of the blocks has a record that takes harm. */
  ghost predicate Harmless(records: Records, t: nat, bs: seq<Block>) {
    forall k :: k in records && FirstWithKey(bs, k).Some? ==> TakesNoHarm(records[k], t, FirstWithKey(bs, k).value)
  }

  /**
   * A refresh of the latest turn keeps the records equal to the recount of everything the turns have held exactly when
   * no record takes harm: a key that comes back to the turn after the turn was added is not counted again.
   */
  lemma RefreshAgreesIff(records: Records, h: History, bs: seq<Block>)
    requires h != [] && Agrees(records, h)
    ensures Agrees(RefreshAll(records, |h| - 1, bs), Extended(h, bs)) <==> Harmless(records, |h| - 1, bs)
  {
    hide AgreesAt, TakesNoHarm, RefreshAll;
    forall k
      ensures AgreesAt(RefreshAll(records, |h| - 1, bs), Extended(h, bs), k)
         <==> (k in records && FirstWithKey(bs, k).Some? ==> TakesNoHarm(records[k], |h| - 1, FirstWithKey(bs, k).value))
    {
      assert AgreesAt(records, h, k);
      RefreshAgreesAtIff(records, h, bs, k);
    }
    var after, h' := RefreshAll(records, |h| - 1, bs), Extended(h, bs);
    if Agrees(after, h') {
      forall k | k in records && FirstWithKey(bs, k).Some? ensures TakesNoHarm(records[k], |h| - 1, FirstWithKey(bs, k).value) {
        assert AgreesAt(after, h', k);
      }
    }
    if Harmless(records, |h| - 1, bs) {
      forall k ensures AgreesAt(after, h', k) {
        assert k in records && FirstWithKey(bs, k).Some? ==> TakesNoHarm(records[k], |h| - 1, FirstWithKey(bs, k).value);
      }
    }
  }

  // ---------- whole runs ----------

  /** Everything each turn has held over a run: the blocks it was added with and those of its updates. */
  function Snapshots(calls: seq<GraphCall>): History {
    if calls == [] then []
    else
      var before := Snapshots(calls[..|calls| - 1]);
      match calls[|calls| - 1]
      case AddTurn(bs) => before + [bs]
      case UpdateLatest(bs) => Extended(before, bs)
  }

  lemma {:induction false} SnapshotsAreTurns(calls: seq<GraphCall>)
    ensures |Snapshots(calls)| == TurnsAfter(calls)
  {
    if calls != [] {
      SnapshotsAreTurns(calls[..|calls| - 1]);
    }
  }

  /** No update of the run does harm. */
  ghost predicate AllHarmless(calls: seq<GraphCall>) {
    calls != [] ==>
      var init, last := calls[..|calls| - 1], calls[|calls| - 1];
      && AllHarmless(init)
      && (last.UpdateLatest? && TurnsAfter(init) > 0 ==> Harmless(RecordsAfter(init), TurnsAfter(init) - 1, last.blocks))
  }

  /** Over any mix of added turns and harmless updates the records are the recount of everything the turns have held. */
  lemma {:induction false} MixedRunIsRecount(calls: seq<GraphCall>)
    requires AllHarmless(calls)
    ensures Agrees(RecordsAfter(calls), Snapshots(calls))
    ensures RecordsAfter(calls) == Replay(Snapshots(calls))
  {
    hide Agrees, Harmless, VisitAll, RefreshAll, Extended;
    if calls == [] {
      ReplayAgrees([]);
    } else {
      var init, last := calls[..|calls| - 1], calls[|calls| - 1];
      var records, h := RecordsAfter(init), Snapshots(init);
      MixedRunIsRecount(init);
      SnapshotsAreTurns(init);
      if last.AddTurn? {
        AddTurnAgrees(records, h, last.blocks);
      } else if h != [] {
        RefreshAgreesIff(records, h, last.blocks);
      } else {
        NothingToExtend(last.blocks);
      }
    }
    ReplayAgrees(Snapshots(calls));
    AgreementUnique(RecordsAfter(calls), Replay(Snapshots(calls)), Snapshots(calls));
  }

  lemma NothingToExtend(bs: seq<Block>)
    ensures Extended([], bs) == []
  {
  }

  /** In particular an update with keys that the turn has had already changes no record. */
  lemma KnownKeysChangeNothing(calls: seq<GraphCall>, bs: seq<Block>)
    requires AllHarmless(calls) && Snapshots(calls) != []
    requires forall b :: b in bs ==> HashIn(Snapshots(calls)[|Snapshots(calls)| - 1], MatchKey(b)).Some?
    ensures RecordsAfter(calls + [UpdateLatest(bs)]) == RecordsAfter(calls)
  {
    hide RecordAgrees, RefreshAll;
    var records, h, t := RecordsAfter(calls), Snapshots(calls), TurnsAfter(calls) - 1;
    assert (calls + [UpdateLatest(bs)])[..|calls|] == calls;
    SnapshotsAreTurns(calls);
    MixedRunIsRecount(calls);
    forall k ensures Lookup(RefreshAll(records, t, bs), k) == Lookup(records, k) {
      RefreshAllAtKey(records, t, bs, k);
      assert AgreesAt(records, h, k);
      if FirstWithKey(bs, k).Some? {
        SeenIffPresent(h, k, t);
        InSeenOnlyOnce(records[k], h, k);
        SeenAlready(records[k], t, FirstWithKey(bs, k).value);
      }
    }
    SameLookups(RefreshAll(records, t, bs), records);
  }

  /** A block of turns 0 and 1 that turn 1 gets again by an update survives into turn 2 with a count of 2. */
  lemma UpdateKeepsCounting(b: Block)
    ensures var calls := [AddTurn([b]), AddTurn([b]), UpdateLatest([b]), AddTurn([b])];
            MatchKey(b) in RecordsAfter(calls) && RecordsAfter(calls)[MatchKey(b)].turnsSurvived == 2
  {
    var two := [AddTurn([b]), AddTurn([b])];
    var k := MatchKey(b);
    TwoTurns(b);
    TwoTurnsCount(b);
    RefreshKeeps(RecordsAfter(two), 1, [b], k);
    var three := two + [UpdateLatest([b])];
    assert three[..2] == two;
    var records := RecordsAfter(three);
    assert records[k].seenTurns == [0, 1] && records[k].lastSeenTurn == 1;
    VisitOne(records, 2, b);
    var four := three + [AddTurn([b])];
    assert four[..3] == three && TurnsAfter(three) == 2;
    assert four == [AddTurn([b]), AddTurn([b]), UpdateLatest([b]), AddTurn([b])];
  }

  lemma TwoTurnsCount(b: Block)
    ensures var records := RecordsAfter([AddTurn([b]), AddTurn([b])]);
            MatchKey(b) in records && records[MatchKey(b)].turnsSurvived == 1
            && records[MatchKey(b)].contentHash == b.contentHash
  {
    var one, two, k := [AddTurn([b])], [AddTurn([b]), AddTurn([b])], MatchKey(b);
    assert two[..1] == one && one[..0] == [];
    VisitOne(map[], 0, b);
    assert RecordsAfter([]) == map[] && TurnsAfter([]) == 0;
    VisitOne(RecordsAfter(one), 1, b);
  }

  /** A block of turn 0 that comes to turn 1 only by an update: the recount is one, the record says zero. */
  lemma LateBlockIsNotCounted(b: Block)
    ensures var calls := [AddTurn([b]), AddTurn([]), UpdateLatest([b])];
            && MatchKey(b) in RecordsAfter(calls) && RecordsAfter(calls)[MatchKey(b)].turnsSurvived == 0
            && Snapshots(calls) == [[b], [b]] && Streak([[b], [b]], 1, MatchKey(b)) == 1
            && !Agrees(RecordsAfter(calls), Snapshots(calls))
  {
    hide RecordsAfter, Agrees, Streak, RecordAgrees;
    var k, calls := MatchKey(b), [AddTurn([b]), AddTurn([]), UpdateLatest([b])];
    LateBlockRecord(b);
    LateBlockSnapshots(b);
    StreakOfTwo(b);
    if Agrees(RecordsAfter(calls), [[b], [b]]) {
      AgreedCount(RecordsAfter(calls), [[b], [b]], k);
    }
  }

  lemma LateBlockRecord(b: Block)
    ensures var calls := [AddTurn([b]), AddTurn([]), UpdateLatest([b])];
            MatchKey(b) in RecordsAfter(calls) && RecordsAfter(calls)[MatchKey(b)].turnsSurvived == 0
  {
    var k, one := MatchKey(b), [AddTurn([b])];
    var two, three := [AddTurn([b]), AddTurn([])], [AddTurn([b]), AddTurn([]), UpdateLatest([b])];
    assert one[..0] == [] && two[..1] == one && three[..2] == two;
    assert RecordsAfter([]) == map[] && TurnsAfter([]) == 0;
    VisitOne(map[], 0, b);
    assert RecordsAfter(one)[k] == NewRecord(0, b) && TurnsAfter(one) == 1;
    assert RecordsAfter(two) == RecordsAfter(one);
    RefreshKeeps(RecordsAfter(two), 1, [b], k);
  }

  lemma LateBlockSnapshots(b: Block)
    ensures Snapshots([AddTurn([b]), AddTurn([]), UpdateLatest([b])]) == [[b], [b]]
  {
    var one := [AddTurn([b])];
    var two, three := [AddTurn([b]), AddTurn([])], [AddTurn([b]), AddTurn([]), UpdateLatest([b])];
    assert one[..0] == [] && two[..1] == one && three[..2] == two;
    assert Snapshots([]) == [];
    assert [] + [[b]] == [[b]] && Snapshots(one) == [[b]];
    assert Snapshots(two) == [[b], []] && [] + [b] == [b];
  }

  lemma StreakOfTwo(b: Block)
    ensures Streak([[b], [b]], 1, MatchKey(b)) == 1 && FirstWithKey([b], MatchKey(b)) == Some(b)
  {
    var h := [[b], [b]];
    assert h[0] == h[1] == [b];
    assert Streak(h, 0, MatchKey(b)) == 0;
  }

  /** Records that agree hold the streak of the latest turn for the keys it has. */
  lemma AgreedCount(records: Records, h: History, k: Key)
    requires Agrees(records, h) && h != [] && FirstWithKey(h[|h| - 1], k).Some?
    ensures k in records && records[k].turnsSurvived == Streak(h, |h| - 1, k)
  {
    hide Streak;
    assert AgreesAt(records, h, k);
    SeenIffPresent(h, k, |h| - 1);
    InSeenOnlyOnce(records[k], h, k);
  }
}

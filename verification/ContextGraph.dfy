/** The session graph as an object: turns, their blocks and the lineage records it updates in place (src/core/graph/turn_tree.py). */
module ContextGraphs {
  import opened Collections
  import opened Blocks
  import opened Lineage
  import opened Diff

  class ContextBlock {
    const data: Block
    var firstSeenTurn: nat
    var turnsSurvived: nat

    constructor (data: Block)
      ensures this.data == data && firstSeenTurn == 0 && turnsSurvived == 0
    {
      this.data := data;
      firstSeenTurn, turnsSurvived := 0, 0;
    }
  }

  function Data(bs: seq<ContextBlock>): (r: seq<Block>)
    ensures |r| == |bs| && forall i :: 0 <= i < |bs| ==> r[i] == bs[i].data
  {
    seq(|bs|, i requires 0 <= i < |bs| => bs[i].data)
  }

  lemma {:induction false} FlattenData(bss: seq<seq<ContextBlock>>, dss: seq<seq<Block>>)
    requires |bss| == |dss| && forall i :: 0 <= i < |bss| ==> Data(bss[i]) == dss[i]
    ensures Data(Flatten(bss)) == Flatten(dss)
  {
    if bss != [] {
      FlattenData(bss[1..], dss[1..]);
      assert Data(bss[0] + Flatten(bss[1..])) == Data(bss[0]) + Data(Flatten(bss[1..]));
    }
  }

  function DataOf(bss: seq<seq<ContextBlock>>): (h: History)
    ensures |h| == |bss| && forall i :: 0 <= i < |h| ==> h[i] == Data(bss[i])
  {
    seq(|bss|, i requires 0 <= i < |bss| => Data(bss[i]))
  }

  class CanonicalTurn {
    const turnId: string
    const sessionId: string
    const model: string
    const turnIndex: nat
    var systemBlocks: seq<ContextBlock>
    var toolDefs: seq<ContextBlock>
    var conversationHistory: seq<ContextBlock>
    var toolResults: seq<ContextBlock>
    var assistantBlocks: seq<ContextBlock>
    var inputTokens: int
    var outputTokens: int
    var cachedReadTokens: int
    var cachedCreatedTokens: int
    var durationMs: real
    var stepCount: nat

    function AllBlocks(): seq<ContextBlock>
      reads this
    {
      Flatten([systemBlocks, toolDefs, conversationHistory, toolResults, assistantBlocks])
    }

    function Value(): Turn
      reads this
    {
      Turn(turnId, sessionId, model, turnIndex, Data(systemBlocks), Data(toolDefs), Data(conversationHistory),
           Data(toolResults), Data(assistantBlocks), inputTokens, outputTokens, cachedReadTokens, cachedCreatedTokens,
           durationMs, stepCount)
    }

    lemma ValueBlocks()
      ensures Value().AllBlocks() == Data(AllBlocks())
    {
      var v := Value();
      FlattenData([systemBlocks, toolDefs, conversationHistory, toolResults, assistantBlocks],
                  [v.systemBlocks, v.toolDefs, v.conversationHistory, v.toolResults, v.assistantBlocks]);
    }

    /** A turn with fresh blocks, as the normalizers build it. */
    constructor (v: Turn)
      ensures Value() == v
      ensures forall b :: b in AllBlocks() ==> fresh(b)
    {
      turnId, sessionId, model, turnIndex := v.turnId, v.sessionId, v.model, v.turnIndex;
      inputTokens, outputTokens := v.inputTokens, v.outputTokens;
      cachedReadTokens, cachedCreatedTokens := v.cachedReadTokens, v.cachedCreatedTokens;
      durationMs, stepCount := v.durationMs, v.stepCount;
      new;
      systemBlocks := NewBlocks(v.systemBlocks);
      toolDefs := NewBlocks(v.toolDefs);
      conversationHistory := NewBlocks(v.conversationHistory);
      toolResults := NewBlocks(v.toolResults);
      assistantBlocks := NewBlocks(v.assistantBlocks);
      InFlatten([systemBlocks, toolDefs, conversationHistory, toolResults, assistantBlocks]);
    }
  }

  method NewBlocks(data: seq<Block>) returns (bs: seq<ContextBlock>)
    ensures Data(bs) == data
    ensures forall b :: b in bs ==> fresh(b)
  {
    bs := [];
    for i := 0 to |data|
      invariant Data(bs) == data[..i]
      invariant forall b :: b in bs ==> fresh(b)
    {
      var b := new ContextBlock(data[i]);
      bs := bs + [b];
    }
  }

  /** The child joins its parent's list; an empty or missing parent has none. */
  function WithChild(children: map<string, seq<string>>, parent: Option<string>, child: string): map<string, seq<string>> {
    if parent.None? || parent.value == "" then children
    else children[parent.value := (if parent.value in children then children[parent.value] else []) + [child]]
  }

  /** A turn is listed as a child exactly under its parent, once. */
  ghost predicate Mirrored(parents: map<string, Option<string>>, children: map<string, seq<string>>) {
    && (forall p :: p in children ==> p != "" && Distinct(children[p]))
    && (forall p, c :: (p in children && c in children[p]) <==> (p != "" && c in parents && parents[c] == Some(p)))
  }

  lemma MirroredAdd(parents: map<string, Option<string>>, children: map<string, seq<string>>, child: string, parent: Option<string>)
    requires child !in parents
    ensures Mirrored(parents, children) ==> Mirrored(parents[child := parent], WithChild(children, parent, child))
  {
    if Mirrored(parents, children) && parent.Some? && parent.value in children {
      DistinctSnoc(children[parent.value], child);
    }
  }

  // One link: a turn and the parent it was given.
  datatype Link = Link(child: string, parent: Option<string>)

  function ChildrenAfter(links: seq<Link>): map<string, seq<string>> {
    if links == [] then map[]
    else WithChild(ChildrenAfter(links[..|links| - 1]), links[|links| - 1].parent, links[|links| - 1].child)
  }

  /** The children that the links give a parent, in the order of the links. */
  function ChildrenOf(links: seq<Link>, parent: string): seq<string> {
    if links == [] then []
    else
      var last := links[|links| - 1];
      ChildrenOf(links[..|links| - 1], parent) + (if last.parent == Some(parent) then [last.child] else [])
  }

  /** Over any run of links a parent's list holds its children in the order in which they came. */
  lemma {:induction false} ChildrenInOrder(links: seq<Link>, parent: string)
    requires parent != ""
    ensures var children := ChildrenAfter(links);
            (if parent in children then children[parent] else []) == ChildrenOf(links, parent)
    ensures "" !in ChildrenAfter(links)
  {
    if links != [] {
      ChildrenInOrder(links[..|links| - 1], parent);
    }
  }

  class ContextGraph {
    var turns: seq<CanonicalTurn>
    var lineage: Records
    var deltas: seq<TurnDelta>
    var sessionId: Option<string>
    var turnsById: map<string, CanonicalTurn>
    var turnsByIndex: map<int, CanonicalTurn>
    var deltasByTurn: map<int, TurnDelta>
    var parents: map<string, Option<string>>
    var children: map<string, seq<string>>
    ghost var added: seq<seq<ContextBlock>>  // the blocks of each added turn

    constructor (sessionId: Option<string>)
      ensures turns == [] && lineage == map[] && deltas == [] && added == [] && this.sessionId == sessionId
      ensures Recounted() && Filed()
    {
      turns, lineage, deltas, added := [], map[], [], [];
      this.sessionId, turnsById, turnsByIndex, deltasByTurn, parents, children := sessionId, map[], map[], map[], map[], map[];
    }

    /** Turns and deltas are found by position, every turn id has its turn, and parents and children mirror each other. */
    ghost predicate Filed()
      reads this
    {
      && |deltas| == |turns|
      && (forall i :: 0 <= i < |turns| ==>
            && turns[i].turnIndex == i && i in turnsByIndex && turnsByIndex[i] == turns[i]
            && i in deltasByTurn && deltasByTurn[i] == deltas[i])
      && (forall id :: id in turnsById ==> turnsById[id].turnId == id)
      && Mirrored(parents, children)
    }

    /** A turn that is new to the graph and comes next in it. */
    ghost predicate Follows(turn: CanonicalTurn)
      reads this
    {
      turn.turnIndex == |turns| && turn.turnId !in parents
    }

    ghost function Added(): (h: History)
      reads this`added
      ensures |h| == |added| && forall i :: 0 <= i < |h| ==> h[i] == Data(added[i])
    {
      DataOf(added)
    }

    ghost function BlockSet(): set<ContextBlock>
      reads this`added
    {
      set bs, b | bs in added && b in bs :: b
    }

    /** The counters on a block of turn i are those of a recount over the history h. */
    static ghost predicate Stamped(b: ContextBlock, h: History, i: nat)
      requires i < |h|
      reads b
    {
      var k := MatchKey(b.data);
      && Seen(h, k) != [] && b.firstSeenTurn == Seen(h, k)[0]
      && b.turnsSurvived == Streak(h, i, k)
    }

    /** Records and block counters are what a recount of the whole history gives. */
    ghost predicate Recounted()
      reads this`lineage, this`added, BlockSet()
    {
      && Agrees(lineage, Added())
      && forall i, b :: 0 <= i < |added| && b in added[i] ==> Stamped(b, Added(), i)
    }

    /** The turn that a recounted graph adds next, with blocks of its own. */
    ghost predicate IsNext(t: nat, bs: seq<ContextBlock>)
      reads this`lineage, this`added, BlockSet()
    {
      && Recounted()
      && t == |added|
      && forall b :: b in bs ==> b !in BlockSet()
    }

    /** The counters on a block of turn t are read off the record of its key. */
    ghost predicate MirrorsRecord(t: int, b: ContextBlock)
      reads this`lineage, b
    {
      var k := MatchKey(b.data);
      && k in lineage && lineage[k].lastSeenTurn == t
      && b.firstSeenTurn == lineage[k].firstSeenTurn
      && b.turnsSurvived == lineage[k].turnsSurvived
    }

    ghost predicate MirrorsRecords(t: int, bs: seq<ContextBlock>)
      reads this`lineage, bs
    {
      forall b :: b in bs ==> MirrorsRecord(t, b)
    }

    /** One step of add_turn: the record of the block's key moves, and the block takes its counters. */
    method TouchBlock(t: int, block: ContextBlock)
      requires t >= 0
      modifies this`lineage, block
      ensures lineage == Visit(old(lineage), t, block.data)
      ensures MirrorsRecord(t, block)
    {
      var key := MatchKey(block.data);
      if key in lineage {
        var rec := lineage[key];
        block.firstSeenTurn := rec.firstSeenTurn;
        if rec.lastSeenTurn == t {
          block.turnsSurvived := rec.turnsSurvived;
        } else {
          var hashes := rec.historicalHashes;
          if block.data.contentHash == rec.contentHash {
            block.turnsSurvived := if rec.lastSeenTurn == t - 1 then rec.turnsSurvived + 1 else 0;
          } else {
            block.turnsSurvived := 0;
            hashes := AddHash(AddHash(hashes, rec.contentHash), block.data.contentHash);
          }
          lineage := lineage[key := rec.(
            contentHash := block.data.contentHash,
            historicalHashes := hashes,
            turnsSurvived := block.turnsSurvived,
            lastSeenTurn := t,
            seenTurns := rec.seenTurns + [t])];
        }
      } else {
        block.firstSeenTurn := t;
        block.turnsSurvived := 0;
        lineage := lineage[key := NewRecord(t, block.data)];
      }
    }

    method TouchBlocks(t: int, bs: seq<ContextBlock>)
      requires t >= 0
      modifies this`lineage, bs
      ensures lineage == VisitAll(old(lineage), t, Data(bs))
      ensures MirrorsRecords(t, bs)
    {
      for i := 0 to |bs|
        invariant lineage == VisitAll(old(lineage), t, Data(bs[..i]))
        invariant MirrorsRecords(t, bs[..i])
      {
        assert bs[..i + 1] == bs[..i] + [bs[i]];
        assert Data(bs[..i + 1]) == Data(bs[..i]) + [bs[i].data];
        TouchBlock(t, bs[i]);
      }
      assert bs[..|bs|] == bs;
    }

    function LastTurn(): (r: Option<Turn>)
      reads this`turns, turns
    {
      if turns == [] then None else Some(turns[|turns| - 1].Value())
    }

    /** The parent a turn gets: the one named, or the turn before it. */
    function ParentOf(named: Option<string>): Option<string>
      reads this`turns
    {
      if named.Some? then named else if turns == [] then None else Some(turns[|turns| - 1].turnId)
    }

    /** A named parent is taken as it is; without one the turn before is the parent, and the first turn has none. */
    lemma ParentMeans(named: Option<string>)
      ensures named.Some? ==> ParentOf(named) == named
      ensures named.None? && turns == [] ==> ParentOf(named) == None
      ensures named.None? && turns != [] ==> ParentOf(named) == Some(turns[|turns| - 1].turnId)
    {
    }

    /** Links a turn to its parent. */
    method Link(child: string, parent: Option<string>)
      modifies this`parents, this`children
      ensures parents == old(parents)[child := parent] && children == WithChild(old(children), parent, child)
      ensures old(child !in parents && Mirrored(parents, children)) ==> Mirrored(parents, children)
    {
      if child !in parents {
        MirroredAdd(parents, children, child, parent);
      }
      parents := parents[child := parent];
      if parent.Some? && parent.value != "" {
        if parent.value !in children {
          children := children[parent.value := []];
        }
        children := children[parent.value := children[parent.value] + [child]];
      }
    }

    /** Files the turn and its delta and links it to its parent. */
    method File(turn: CanonicalTurn, delta: TurnDelta, parent: Option<string>)
      modifies this`turns, this`deltas, this`turnsById, this`turnsByIndex, this`deltasByTurn, this`parents, this`children
      ensures turns == old(turns) + [turn] && deltas == old(deltas) + [delta]
      ensures turnsById == old(turnsById)[turn.turnId := turn] && turnsByIndex == old(turnsByIndex)[turn.turnIndex := turn]
      ensures deltasByTurn == old(deltasByTurn)[turn.turnIndex := delta]
      ensures parents == old(parents)[turn.turnId := parent] && children == WithChild(old(children), parent, turn.turnId)
      ensures old(Filed() && Follows(turn)) ==> Filed()
    {
      hide Mirrored, WithChild;
      turns := turns + [turn];
      turnsById := turnsById[turn.turnId := turn];
      turnsByIndex := turnsByIndex[turn.turnIndex := turn];
      deltas := deltas + [delta];
      deltasByTurn := deltasByTurn[turn.turnIndex := delta];
      Link(turn.turnId, parent);
    }

    method AddTurn(turn: CanonicalTurn, parentTurnId: Option<string>) returns (delta: TurnDelta)
      modifies this, turn.AllBlocks()
      ensures turns == old(turns) + [turn] && added == old(added) + [turn.AllBlocks()]
      ensures lineage == VisitAll(old(lineage), turn.turnIndex, Data(turn.AllBlocks()))
      ensures MirrorsRecords(turn.turnIndex, turn.AllBlocks())
      ensures delta == Delta(old(LastTurn()), turn.Value())
      ensures deltas == old(deltas) + [delta]
      ensures turnsById == old(turnsById)[turn.turnId := turn] && turnsByIndex == old(turnsByIndex)[turn.turnIndex := turn]
      ensures deltasByTurn == old(deltasByTurn)[turn.turnIndex := delta]
      ensures parents == old(parents)[turn.turnId := old(ParentOf(parentTurnId))]
      ensures children == WithChild(old(children), old(ParentOf(parentTurnId)), turn.turnId)
      ensures sessionId == if old(sessionId).None? && turn.sessionId != "" then Some(turn.sessionId) else old(sessionId)
      ensures old(IsNext(turn.turnIndex, turn.AllBlocks())) ==> Recounted()
      ensures old(Filed() && Follows(turn)) ==> Filed()
    {
      hide VisitAll, Agrees, Delta, Stamped, Mirrored, WithChild;
      // The delta does not read the counters, so it does not matter that they are set last here.
      delta := ComputeDelta(LastTurn(), turn.Value());
      if sessionId.None? && turn.sessionId != "" {
        sessionId := Some(turn.sessionId);
      }
      File(turn, delta, ParentOf(parentTurnId));
      TouchTurn(turn.turnIndex, turn.AllBlocks());
    }

    /** Records and counters take in the blocks of a turn; a recounted graph stays recounted. */
    method TouchTurn(t: nat, bs: seq<ContextBlock>)
      modifies this`lineage, this`added, bs
      ensures added == old(added) + [bs]
      ensures lineage == VisitAll(old(lineage), t, Data(bs))
      ensures MirrorsRecords(t, bs)
      ensures old(IsNext(t, bs)) ==> Recounted()
    {
      hide VisitAll, Agrees, Seen, Streak;
      ghost var next, h, earlier, records := IsNext(t, bs), Added(), added, lineage;
      TouchBlocks(t, bs);
      added := added + [bs];
      if next {
        forall i, b | 0 <= i < |h| && b in earlier[i] ensures Stamped(b, h, i) {
          assert earlier[i] in earlier;
          assert old(b in BlockSet() && Stamped(b, h, i));
        }
        KeepsStamps(h, earlier, bs);
        AddTurnAgrees(records, h, Data(bs));
        NewStamps(h, bs);
        assert Added() == h + [Data(bs)];
      }
    }

    /** update_turn: the turn takes its place (or the last one) and the records of its keys are refreshed. */
    method UpdateTurn(turn: CanonicalTurn)
      modifies this
      ensures turns == if turn.turnIndex < |old(turns)| then old(turns)[turn.turnIndex := turn]
                       else if old(turns) != [] then old(turns)[|old(turns)| - 1 := turn]
                       else []
      ensures lineage == RefreshAll(old(lineage), turn.turnIndex, Data(turn.AllBlocks()))
      ensures turnsById == old(turnsById)[turn.turnId := turn] && turnsByIndex == old(turnsByIndex)[turn.turnIndex := turn]
      ensures deltas == old(deltas) && added == old(added) && deltasByTurn == old(deltasByTurn)
      ensures parents == old(parents) && children == old(children) && sessionId == old(sessionId)
      ensures old(Filed() && turn.turnIndex < |turns|) ==> Filed()
      ensures old(AllShaped(lineage)) ==>
                (AllShaped(lineage) <==> IsLatestFor(old(lineage), turn.turnIndex, Data(turn.AllBlocks())))
    {
      hide Mirrored, RefreshAll, AllShaped, IsLatestFor;
      if turn.turnIndex < |turns| {
        turns := turns[turn.turnIndex := turn];
      } else if turns != [] {
        turns := turns[|turns| - 1 := turn];
      }
      turnsById := turnsById[turn.turnId := turn];
      turnsByIndex := turnsByIndex[turn.turnIndex := turn];
      RefreshTurn(turn.turnIndex, turn.AllBlocks());
    }

    /** Refreshes the records of a turn's keys. */
    method RefreshTurn(t: nat, bs: seq<ContextBlock>)
      modifies this`lineage
      ensures lineage == RefreshAll(old(lineage), t, Data(bs))
      ensures old(AllShaped(lineage)) ==> (AllShaped(lineage) <==> IsLatestFor(old(lineage), t, Data(bs)))
    {
      for i := 0 to |bs|
        invariant lineage == RefreshAll(old(lineage), t, Data(bs)[..i])
      {
        var b := bs[i].data;
        var key := MatchKey(b);
        assert Data(bs)[..i + 1][..i] == Data(bs)[..i];
        if key in lineage {
          var rec := lineage[key];
          var seen := if t in rec.seenTurns then rec.seenTurns else rec.seenTurns + [t];
          lineage := lineage[key := rec.(lastSeenTurn := t, seenTurns := seen)];
        } else {
          lineage := lineage[key := NewRecord(t, b)];
        }
      }
      assert Data(bs)[..|bs|] == Data(bs);
      if old(AllShaped(lineage)) {
        RefreshAllShapedIff(old(lineage), t, Data(bs));
      }
    }

    /** Counters that were right stay right when a turn is added. */
    static lemma KeepsStamps(h: History, earlier: seq<seq<ContextBlock>>, bs: seq<ContextBlock>)
      requires |h| == |earlier|
      requires forall i, b :: 0 <= i < |h| && b in earlier[i] ==> Stamped(b, h, i)
      ensures forall i, b :: 0 <= i < |h| && b in earlier[i] ==> Stamped(b, h + [Data(bs)], i)
    {
      forall i, b | 0 <= i < |h| && b in earlier[i] ensures Stamped(b, h + [Data(bs)], i) {
        StreakPrefix(h, Data(bs), i, MatchKey(b.data));
        SeenSnoc(h, Data(bs), MatchKey(b.data));
      }
    }

    /** Counters read off records that agree with the history are right. */
    lemma NewStamps(h: History, bs: seq<ContextBlock>)
      requires Agrees(lineage, h + [Data(bs)])
      requires MirrorsRecords(|h|, bs)
      ensures forall b :: b in bs ==> Stamped(b, h + [Data(bs)], |h|)
    {
      forall b | b in bs ensures Stamped(b, h + [Data(bs)], |h|) {
        assert AgreesAt(lineage, h + [Data(bs)], MatchKey(b.data));
        assert MirrorsRecord(|h|, b);
      }
    }
  }
}

/** The canonical turn as values: blocks, their match keys and the blocks of one turn (src/schema/ast.py). */
module Blocks {
  import opened Collections

  datatype BlockType =
    | System | ToolDef | UserMsg | AssistantMsg | ToolResult | InjectedContext | Skill | Thought | InjectedState

  // The metadata entries the modelled code reads; an absent entry is the empty string.
  // flaggedError stands for any of the error markers of a result: two metadata flags
  // or the word "error" near the start of its content.
  datatype Metadata = Metadata(kind: string, name: string, toolName: string, tool: string, flaggedError: bool)

  datatype Block = Block(
    blockId: string,
    blockType: BlockType,
    contentHash: string,
    identityKey: string,
    tokenCount: nat,
    callId: string,
    metadata: Metadata)

  datatype Turn = Turn(
    turnId: string,
    sessionId: string,
    model: string,
    turnIndex: nat,
    systemBlocks: seq<Block>,
    toolDefs: seq<Block>,
    conversationHistory: seq<Block>,
    toolResults: seq<Block>,
    assistantBlocks: seq<Block>,
    inputTokens: int,
    outputTokens: int,
    cachedReadTokens: int,
    cachedCreatedTokens: int,
    durationMs: real,
    stepCount: nat)
  {
    function AllBlocks(): seq<Block> {
      Flatten([systemBlocks, toolDefs, conversationHistory, toolResults, assistantBlocks])
    }
  }

  /** A turn of system blocks and results alone. */
  function PlainTurn(index: nat, systemBlocks: seq<Block>, toolResults: seq<Block>): Turn {
    Turn("", "", "", index, systemBlocks, [], [], toolResults, [], 0, 0, 0, 0, 0.0, 1)
  }

  lemma PlainTurnBlocks(index: nat, systemBlocks: seq<Block>, toolResults: seq<Block>)
    ensures PlainTurn(index, systemBlocks, toolResults).AllBlocks() == systemBlocks + toolResults
  {
    var none: seq<Block> := [];
    var results := toolResults;
    assert Flatten([none]) == [] by { assert [none][1..] == []; }
    assert Flatten([results, none]) == results by { assert [results, none][1..] == [none]; }
    assert Flatten([none, results, none]) == results by { assert [none, results, none][1..] == [results, none]; }
    assert Flatten([none, none, results, none]) == results by {
      assert [none, none, results, none][1..] == [none, results, none];
    }
    assert [systemBlocks, none, none, results, none][1..] == [none, none, results, none];
  }

  datatype Key = Key(blockType: BlockType, name: string)

  /** The key that follows a block across turns; the lineage and the diff engine compute the same one. */
  function MatchKey(b: Block): Key {
    if b.identityKey != "" then Key(b.blockType, b.identityKey)
    else if b.contentHash != "" then Key(b.blockType, b.contentHash)
    else Key(b.blockType, b.blockId)
  }

  /** Two blocks have one key exactly when they agree on the type and on the identity, the hash or else the id. */
  lemma SameKeyIff(a: Block, b: Block)
    requires a.identityKey != "" <==> b.identityKey != ""
    requires a.identityKey == "" ==> (a.contentHash != "" <==> b.contentHash != "")
    ensures MatchKey(a) == MatchKey(b)
       <==> && a.blockType == b.blockType
            && (if a.identityKey != "" then a.identityKey == b.identityKey
                else if a.contentHash != "" then a.contentHash == b.contentHash
                else a.blockId == b.blockId)
  {
  }

  /** The first block of a turn that carries a key. */
  function FirstWithKey(bs: seq<Block>, k: Key): (r: Option<Block>)
    ensures r.Some? ==> r.value in bs && MatchKey(r.value) == k
    ensures r.None? <==> forall b :: b in bs ==> MatchKey(b) != k
  {
    if bs == [] then None
    else if MatchKey(bs[0]) == k then Some(bs[0])
    else FirstWithKey(bs[1..], k)
  }

  lemma {:induction false} FirstWithKeySnoc(bs: seq<Block>, b: Block, k: Key)
    ensures FirstWithKey(bs + [b], k)
         == if FirstWithKey(bs, k).Some? then FirstWithKey(bs, k) else if MatchKey(b) == k then Some(b) else None
  {
    if bs == [] {
      assert bs + [b] == [b];
    } else {
      assert (bs + [b])[0] == bs[0] && (bs + [b])[1..] == bs[1..] + [b];
      FirstWithKeySnoc(bs[1..], b, k);
    }
  }

  /** With unique match keys, a block is the first one with its key. */
  lemma {:induction false} UniqueKeyIsFirst(bs: seq<Block>, i: nat)
    requires i < |bs|
    requires forall p, q :: 0 <= p < q < |bs| ==> MatchKey(bs[p]) != MatchKey(bs[q])
    ensures FirstWithKey(bs, MatchKey(bs[i])) == Some(bs[i])
  {
    if i > 0 {
      UniqueKeyIsFirst(bs[1..], i - 1);
    }
  }

  // ---------- ids and tokens ----------

  function Ids(bs: seq<Block>): seq<string> {
    if bs == [] then [] else Ids(bs[..|bs| - 1]) + [bs[|bs| - 1].blockId]
  }

  lemma {:induction false} IdsMeans(bs: seq<Block>, id: string)
    ensures id in Ids(bs) <==> exists b :: b in bs && b.blockId == id
  {
    if bs != [] {
      IdsMeans(bs[..|bs| - 1], id);
      assert bs == bs[..|bs| - 1] + [bs[|bs| - 1]];
    }
  }

  lemma IdsSnoc(init: seq<Block>, last: Block)
    ensures Ids(init + [last]) == Ids(init) + [last.blockId]
  {
    assert (init + [last])[..|init|] == init;
  }

  lemma {:induction false} IdsAt(bs: seq<Block>)
    ensures |Ids(bs)| == |bs|
    ensures forall i :: 0 <= i < |bs| ==> Ids(bs)[i] == bs[i].blockId
  {
    if bs != [] {
      IdsAt(bs[..|bs| - 1]);
    }
  }

  lemma SameIdSameBlock(bs: seq<Block>, b: Block, c: Block)
    requires Distinct(Ids(bs)) && b in bs && c in bs && b.blockId == c.blockId
    ensures b == c
  {
    IdsAt(bs);
    var i :| 0 <= i < |bs| && bs[i] == b;
    var j :| 0 <= j < |bs| && bs[j] == c;
    assert Ids(bs)[i] == Ids(bs)[j];
  }

  lemma DistinctIdsSplit(init: seq<Block>, last: Block)
    requires Distinct(Ids(init + [last]))
    ensures Distinct(Ids(init)) && last.blockId !in Ids(init)
  {
    IdsSnoc(init, last);
    DistinctSplit(Ids(init), last.blockId);
  }

  function Tokens(bs: seq<Block>): nat {
    if bs == [] then 0 else Tokens(bs[..|bs| - 1]) + bs[|bs| - 1].tokenCount
  }
}

# Verified model of ctxins

ctxins taps LLM traffic, ships it over a Unix socket, and keeps a history of context blocks per session.
This Dafny project models the parts of it whose correctness is hard to see from any one function, and proves
what they promise over whole runs. `dafny verify dfyconfig.toml` checks everything.

- **Lineage, diff, store, rollup.** `Lineage.dfy` has the incremental record that `ContextGraph.add_turn` keeps per
  block key, a recount of the same facts from the whole history, and the proof that they agree after any run.
  `HumanLineage.dfy` says what an update of a turn keeps, and when the records of a session whose turns are updated are
  still the recount.
  `ContextGraph.dfy` is the graph as an object that updates records and block counters in place. `Diff.dfy` is the diff
  engine, and `LineageDiff.dfy` says exactly when diff and lineage agree on a block. `Rollup.dfy` is the bridge in step
  and in human granularity, with the refinement between the two. `Store.dfy` and `SessionStore.dfy` are the session
  store as values and as an object, `SessionNotes.dfy` is about its rule index and metadata, and `BridgeStore.dfy` is the
  bridge working on that store.
- **Transport.** `RingBuffer.dfy`, `Framing.dfy`, `Transport.dfy`, `Delivery.dfy` and `UdsClient.dfy`: the drop-oldest
  buffer, the length-prefixed frames and their incremental decoder, the step system of producers, sender, connections
  and server with what it never does, what it never loses, and the sender's worker loop, which takes exactly steps of
  that system.
- **Streams.** `Sse.dfy` is the event parser, `SseReading.dfy` says when it matters in which pieces a text is read, where a
  line or the handling of an event can raise, and `SseStandard.dfy` compares what the parser emits with the dispatch of
  section 9.2.6 of the HTML Living Standard. `StreamFold.dfy` is an accumulator behind the parser, `OpenAi.dfy` and
  `Anthropic.dfy` are the two accumulators over the blocks of `ContentBlocks.dfy`, and `OpenAiStream.dfy` and
  `AnthropicStream.dfy` read off the JSON of a stream what the result has to be.
- **Matching and accounting.** `Pairing.dfy` pairs tool calls with tool results, `Recurring.dfy` accounts for recurring
  results, `Zombie.dfy` is the backward recount of the zombie rule.
- **Comment stripping.** `Jsonc.dfy`.

A part of the program that changes objects step by step is a class or a loop here too, and its `ensures` ties the new
state to a function of the old one. The properties are proved about those functions. Content hashes and ids are opaque
strings. `str.isdigit` with `int`, `json.loads`, `str.strip` and `str.lower` are arbitrary functions, and reading a number or
handling a decoded event may raise. Text similarity and the reference test of the zombie rule are arbitrary relations. No
axiom is assumed about any of them.

## Findings

In nine places the code does not do what its names, its comments or the standard suggest. The model follows the code; for
each place one lemma gives the exact condition, for all inputs, and another an input on which it fails.

- Diff and lineage disagree on a block without an identity key when the first block of the previous turn under its key has
  another hash: that block's identity key is this one's hash (or its id, if it has no hash), or one of the two has no
  hash and its id is the hash of the other (`LineageDiff.AgreeIffNoClash`, `LineageDiff.DiffAndLineageClash`). The
  normalizers make no identity key and no id that is a hash, so this takes turns built elsewhere.
- `update_turn` on a turn older than the last one that a key of it has been seen in sets that key's `last_seen_turn` back,
  and puts `seen_turns` out of order if the turn was not in it (`Lineage.RefreshAllShapedIff`,
  `Lineage.RefreshOfOldTurnBreaksShape`). The bridge updates only the latest turn, and `Lineage.RunKeepsShape` covers it.
- In human granularity a block that a turn gets only by an update is not counted as surviving: when a step brings a key back
  to its turn, the record keeps its old count and hash. The records are the recount of everything a turn has held exactly
  when no update brings back a key so that this shows (`HumanLineage.RefreshAgreesIff`, over runs
  `HumanLineage.MixedRunIsRecount`, with `HumanLineage.LateBlockIsNotCounted`).
- The zombie rule's recount can be below the cached survival count of a tool result whose hash differs from that of the
  first block under its key, if the result has no identity key or one equal to that block's hash
  (`Zombie.RecountSoundIff`, `Zombie.UnsoundTurn`). Sharing an identity key that is no hash of the turn is harmless
  (`Zombie.SharedIdentityIsSound`), and the normalizers give tool results no identity key.
- A session stays listed under a model that an update has replaced (`Store.UpdateExactIff`, `Store.UpdateLeavesStaleModel`).
  It is always listed under the models it does have (`Store.IndexAlwaysCovers`), and the bridge updates a turn without
  changing its model.
- A frame over the size limit makes `feed` drop the frames it had extracted in the same call. Which frames arrive depends on
  how the bytes were read exactly in the streams that hold such a frame after a whole one (`Framing.ChunkingMattersIff`,
  `Framing.OversizedLosesFrames`).
- A `retry` whose value is made of digit characters that `int` rejects makes `feed` and `close` raise and lose the events of
  the call; an event whose JSON has an unexpected shape makes an accumulator drop the later events of its call. The caller
  logs the exception and goes on (src/interceptor/correlation/tracker.py:240-249), so what a stream amounts to depends on
  how it was cut, exactly in the texts where this loses something (`SseReading.ReadingMattersIff`,
  `SseReading.ParserReadingMattersIff`, with `SseReading.RaisingRetryLosesEvent`, `SseReading.BadEventDropsNext`,
  `OpenAi.RaisingEventHidesNext`, `Anthropic.RaisingEventHidesNext`). A second end of stream does something exactly after
  one that raised (`SseReading.SecondCloseIff`, `SseReading.SecondCloseEmits`, `StreamFold.SecondEofIff`,
  `OpenAi.SecondEofMattersIff`, `Anthropic.SecondEofMattersIff`).
- Compared with section 9.2.6 of the HTML Living Standard, the parser also emits a named event without data, forgets the
  last id with every event it emits, where the standard keeps it for the stream, and keeps a leading byte order mark, which
  hides the first line from it (`Sse.ParserReadsStreamIff`). Line by line it emits the same messages exactly when none of
  this shows (`SseStandard.SameAtEachLineIff`, `SseStandard.NamedWithoutData`, `SseStandard.IdIsForgotten`,
  `SseStandard.MarkHidesData`). At the end of a stream it also emits what is pending, which the standard discards
  (`SseStandard.SameStreamAtEachLineIff`). Behind a marked data line the two can come to the same messages by accident,
  each at another line (`SseStandard.SameByAccident`); on all other streams the condition decides for the messages as a
  whole too (`SseStandard.SameMessagesIff`, `SseStandard.SameStreamIff`).
- Closing the parser splits its rest with `str.splitlines`, which breaks at more characters than the stream format does: it
  reads the rest as the last line exactly when the rest holds none of them (`Sse.CloseReadsLastLine`,
  `Sse.ExtraSeparatorCutsData`).

## Model

| member | source | states |
|---|---|---|
| Lineage.VisitAllAtKey | src/core/graph/turn_tree.py:76-129 | within a turn only the first block with a key moves that key's record, whatever else the turn holds |
| Lineage.TouchStreak | src/core/graph/turn_tree.py:84-100 | the new survival count of a record that agreed with the history is the recount's streak one turn later |
| Lineage.TouchHashes | src/core/graph/turn_tree.py:91-97 | the hash history is the list of non-empty hashes carried so far, each once, in the order in which they were first carried |
| Lineage.HashesMean | src/core/graph/turn_tree.py:91-97 | that list is free of duplicates and holds exactly the non-empty hashes carried |
| Lineage.TouchAgrees | src/core/graph/turn_tree.py:78-129 | new, continuing, mutated and re-introduced keys: the moved record is the recount of the longer history |
| Lineage.AddTurnAgrees | src/core/graph/turn_tree.py:76-129 | adding the next turn keeps every record equal to the recount of the whole history |
| Lineage.ReplayAgrees | src/core/graph/turn_tree.py:76-129 | after any run of turns 0, 1, 2, ... the incremental records are the full recount: first and last turn, seen turns, survival count, hash history, type and identity key |
| Lineage.StreakIsLongestRun | src/core/graph/turn_tree.py:84-100 | a number is the recounted survival count exactly when it is the longest run of immediately preceding turns whose first block with the key has the same hash |
| Lineage.FirstSeenIsEarliest | src/core/graph/turn_tree.py:115-127 | the recounted first turn contains the key and no earlier turn does |
| Lineage.SeenIffPresent | src/core/graph/turn_tree.py:100-113 | a turn is among the seen turns exactly when it contains the key |
| Lineage.TouchShapedIff | src/core/graph/turn_tree.py:78-113 | meeting a key in a turn keeps its record in shape exactly when the turn is not older than the last one seen |
| Lineage.RefreshAllAtKey | src/core/graph/turn_tree.py:166-184 | a refresh gives each key of the turn one refreshed record, made from its first block, and leaves the other keys alone |
| Lineage.RefreshShapedIff | src/core/graph/turn_tree.py:168-172 | the same for a refresh of one record |
| Lineage.RefreshAllShapedIff | src/core/graph/turn_tree.py:156-184 | a refresh keeps all records in shape (strictly increasing seen turns from first to last, no duplicate hashes) if and only if no key of the turn was seen in a later turn |
| Lineage.VisitAllShaped | src/core/graph/turn_tree.py:76-129 | adding a newer turn keeps all records in shape |
| Lineage.RunKeepsShape | src/core/graph/turn_tree.py:54-184 | every record is in shape after any mix of added turns and refreshes of the latest turn |
| Lineage.RefreshOfOldTurnBreaksShape | src/core/graph/turn_tree.py:168-172 | a block met in turns 0 and 1: a refresh of turn 0 leaves both turns seen and turn 0 as the last one |
| HumanLineage.RefreshKeeps | src/core/graph/turn_tree.py:166-172 | a refresh leaves the survival count, the hash, the hash history, the first turn, the type and the identity key of a known key alone; it only marks the turn as seen |
| HumanLineage.RefreshStarts | src/core/graph/turn_tree.py:173-184 | a new key starts as it does in an added turn |
| HumanLineage.AgreementUnique | src/core/graph/turn_tree.py:76-129 | the recount determines the records, hash history in order, type and identity key included |
| HumanLineage.RefreshAgreesIff | src/core/graph/turn_tree.py:166-184 | records that are the recount are, after a refresh of the latest turn, the recount of everything the turns have held if and only if each key of the refresh is new, is in the turn already, or comes back with its recorded hash, a count of zero and an absence from the turn before |
| HumanLineage.MixedRunIsRecount | src/core/graph/turn_tree.py:54-184 | hence over any mix of added turns and such updates the records are those of a replay of everything the turns have held |
| HumanLineage.KnownKeysChangeNothing | src/core/graph/turn_tree.py:166-172 | an update with keys that the turn has had already changes no record |
| HumanLineage.UpdateKeepsCounting | src/core/graph/turn_tree.py:166-172 | a block of turns 0 and 1 that turn 1 gets again survives into turn 2 with a count of two |
| HumanLineage.LateBlockIsNotCounted | src/core/graph/turn_tree.py:168-172 | a witness: a block of turn 0 that comes to turn 1 by an update has a recount of one and a record of zero |
| ContextGraphs.CanonicalTurn.ValueBlocks | src/schema/ast.py:173-181 | the blocks of a turn object are those of its value, in order |
| ContextGraphs.ContextGraph.TouchBlock | src/core/graph/turn_tree.py:76-129 | the branches of the loop body move the record as the specification says, and the block takes the record's counters |
| ContextGraphs.ContextGraph.TouchTurn | src/core/graph/turn_tree.py:75-129 | all records and counters of the turn; a graph whose records and block counters are all recounts of its history still is one with the next turn's own blocks |
| ContextGraphs.ContextGraph.Link | src/core/graph/turn_tree.py:142-152 | the parent and child tables after one more turn; with a turn id that is new they still mirror each other, each child listed once |
| ContextGraphs.ChildrenInOrder | src/core/graph/turn_tree.py:142-152 | over any run of links a parent lists its children in the order in which they came |
| ContextGraphs.ContextGraph.ParentMeans | src/core/graph/turn_tree.py:142-147 | which parent a turn gets, named or not |
| ContextGraphs.ContextGraph.File | src/core/graph/turn_tree.py:135-152 | the turn, its delta and its parent in every table; in a graph whose tables find each turn and delta by position they still do after the next turn |
| ContextGraphs.ContextGraph.AddTurn | src/core/graph/turn_tree.py:54-154 | the whole new graph: the delta against the previous turn, the tables, the links and the records, and every counter on every block ever added stays the recount |
| ContextGraphs.ContextGraph.RefreshTurn | src/core/graph/turn_tree.py:166-184 | the loop refreshes the records as specified, and when their shape survives |
| ContextGraphs.ContextGraph.UpdateTurn | src/core/graph/turn_tree.py:156-184 | where the turn lands in the list and the tables, the refreshed records, the deltas and links left alone, and when the shape survives |
| Diff.SumTokens | src/core/graph/diff.py:127-128 | the loop's total is the sum over the blocks |
| Diff.IndexByKey | src/core/graph/diff.py:72-82 | the table finds the first block with each key and no other |
| Diff.Classify | src/core/graph/diff.py:84-102 | the loop lists the distinct ids of the current turn by what became of their first block |
| Diff.FindRemoved | src/core/graph/diff.py:104-113 | the removed loop lists the distinct ids of the previous turn whose key the current one lacks |
| Diff.FindBreakpoint | src/core/graph/diff.py:115-121 | the loop finds the specified breakpoint |
| Diff.ComputeDelta | src/core/graph/diff.py:27-139 | the engine returns the specified delta, with and without a previous turn |
| Diff.FirstByIdMeans | src/core/graph/diff.py:89-92 | skipping ids already met leaves each id of the turn exactly once |
| Diff.FirstByIdIsFirst | src/core/graph/diff.py:89-92 | what is left is the first block with each id, in the turn's order |
| Diff.ListsKeepOrder | src/core/graph/diff.py:94-102 | the lists keep the order of the blocks |
| Diff.IdsWithStatusMeans | src/core/graph/diff.py:94-102 | an id is in a list exactly when some block with it has that status |
| Diff.StatusSplitsIds | src/core/graph/diff.py:89-102 | the three status lists of a duplicate-free turn are duplicate-free, disjoint and cover its ids |
| Diff.RemovedIsAddedBackwards | src/core/graph/diff.py:94-113 | the removed loop lists what the added branch would list with the turns exchanged |
| Diff.RemovedMeans | src/core/graph/diff.py:104-113 | an id is removed exactly when it is that of a distinct previous block whose key no current block has, and it is listed once |
| Diff.DeltaIsPartition | src/core/graph/diff.py:72-139 | added, persisted and mutated are disjoint, duplicate-free and together list the distinct ids of the current turn |
| Diff.BreakpointIsFirst | src/core/graph/diff.py:115-121 | the breakpoint is the first block that is not persisted, and there is none exactly when all are |
| Diff.DeltaBreakpoint | src/core/graph/diff.py:55-121 | the same of a delta's own lists and breakpoint, and what a first turn's delta leaves empty |
| Diff.DeltaSwap | src/core/graph/diff.py:104-129 | reading two turns the other way round exchanges removed and added and negates the growth |
| LineageDiff.ReportedGrowthTelescopes | src/core/graph/diff.py:123-129 | when every turn of a session reports its input tokens, the growths add up to those of the last turn |
| LineageDiff.CountedGrowthTelescopes | src/core/graph/diff.py:126-129 | when none does, they add up to the tokens of its blocks |
| LineageDiff.GrowthIsDifferenceIff | src/core/graph/diff.py:123-129 | a growth is the difference of what the two turns report or hold if and only if both report or neither does, or the silent one holds what it would have reported |
| LineageDiff.LastRecordExists | src/core/graph/turn_tree.py:76-129 | every block of the latest turn has a record, whose count is the streak of the latest turn |
| LineageDiff.StatusDecides | src/core/graph/diff.py:89-102 | with unique ids, the list a block's id lands in is given by the block's status |
| LineageDiff.SurvivalDecides | src/core/graph/turn_tree.py:84-100 | with unique keys, the cached count is positive exactly when the previous turn has the key with the same hash |
| LineageDiff.AgreeIffNoClash | src/core/graph/turn_tree.py:76-133 | over any run, persisted is survival of at least one, mutated is zero with the key present before, added is key absent before, if and only if the block does not meet another hash under a key it made without an identity key |
| LineageDiff.DiffAndLineageClash | src/core/graph/diff.py:97-100 | two turns with unique keys in which the diff says persisted and the cached count is zero |
| LineageDiff.AgreeOnUnmixedKeys | src/core/graph/diff.py:89-102 | diff and lineage agree on a whole turn when equal keys are made of the same field in both turns |
| Rollup.StepsAndFlags | src/cli.py:569-575 | step mode numbers its turns by position, each of one step |
| Rollup.StepsAreContents | src/cli.py:569-575 | step mode lists exactly the turns that the normalizers made, and sets only their position and step count |
| Rollup.HumanNextSummarizes | src/cli.py:525-568 | one more envelope keeps the human list the summary of the groups, whether it opens a turn or joins one |
| Rollup.HumanRefinesStep | src/cli.py:523-578 | for every run of envelopes the human list is the step list grouped at human boundaries: counters and durations summed, blocks of the last step, step count the group's size, index the list position |
| Rollup.GroupsIsGrouping | src/cli.py:527-538 | the groups cut the step list into non-empty runs that open exactly at human steps |
| Rollup.GroupingUnique | src/cli.py:527-538 | and no other cutting does |
| Rollup.RollupConserves | src/cli.py:543-561 | both granularities account for the same tokens, cache traffic, time and steps |
| Rollup.RollupConservesContents | src/cli.py:543-561 | they are the tokens, cache traffic and time that the normalizers counted, one step for each envelope they could read |
| Rollup.CorePipelineBridge.HandleCompleted | src/cli.py:516-578 | the object's turn list moves as the mode's specification says, also when the normalizer raises |
| Rollup.CorePipelineBridge.Accumulate | src/cli.py:543-562 | the active turn is updated in place to what absorbing the step gives, and nothing else changes |
| BridgeStore.EnvelopeMovesList | src/cli.py:523-578 | the store call that an envelope makes moves the session's list as the mode says |
| BridgeStore.OtherKeepsList | src/core/store/session_store.py:64-148 | a call for another session leaves the list alone, or ends the session by evicting it |
| BridgeStore.StoreHoldsModeRun | src/cli.py:523-578 | among any other store calls, the session's list in the store is the human or the step list of the envelopes completed since it was last created, across evictions and re-creation |
| BridgeStore.EnvelopeMovesRecords | src/core/graph/turn_tree.py:54-184 | the same call moves the session's lineage records as one added turn or one refresh of the latest turn |
| BridgeStore.StoreHoldsModeRecords | src/core/graph/turn_tree.py:54-184 | among any other store calls, in human mode too, the session's records are those of the calls that these envelopes make on a graph, hence in shape |
| BridgeStore.StoreHoldsRecount | src/core/graph/turn_tree.py:54-184 | they are the recount of everything the session's turns have held, as long as no step brings a key back in a way that an update does not count |
| BridgeStore.StepsAreHarmless | src/core/graph/turn_tree.py:54-129 | in step granularity that asks nothing of the steps |
| RingBuffer.BoundedRingBuffer.Push | src/interceptor/egress/ring_buffer.py:45-62 | the new queue and drop count |
| RingBuffer.BoundedRingBuffer.Pop | src/interceptor/egress/ring_buffer.py:64-73 | the oldest item, or none from an empty buffer |
| RingBuffer.BoundedRingBuffer.Unpop | src/interceptor/egress/ring_buffer.py:75-88 | the item goes back to the head, or is dropped and counted when the buffer is full |
| RingBuffer.NewBuffer | src/interceptor/egress/ring_buffer.py:16-31 | a buffer is made exactly for a positive capacity |
| Framing.UnpackPack | src/interceptor/egress/framing.py:37-56 | unpacking inverts packing on every length up to 2^32 - 1 |
| Framing.PackUnpack | src/interceptor/egress/framing.py:37-56 | packing inverts unpacking on every four bytes |
| Framing.HeaderIsBigEndian | src/interceptor/egress/framing.py:37-56 | the first byte of a header is the most significant one |
| Framing.HeaderOfFrame | src/interceptor/egress/framing.py:14-56 | the header of a frame decodes to the payload's length and the rest is the payload |
| Framing.DecodeAppend | src/core/server/framer.py:113-140 | decoding can stop at any byte and go on from what was left over |
| Framing.RaisesForGood | src/core/server/framer.py:125-129 | a forbidden length is not cured by more bytes and no frame comes after it |
| Framing.DecodeFramesAndTail | src/core/server/framer.py:119-140 | whole frames and an incomplete tail decode to the payloads and that tail |
| Framing.FeedContinues | src/core/server/framer.py:101-140 | a call of feed extends the decoding of all bytes fed before |
| Framing.DecodeIsEncode | src/core/server/framer.py:119-140 | decoding loses nothing: any bytes are the encodings of the frames decoded, followed by the rest |
| Framing.ServeIsDecode | src/core/server/uds_server.py:145-161 | reading in any chunks dispatches the frames of the whole stream in order and keeps the tail; with a forbidden length, a prefix of the frames before it |
| Framing.RoundTrip | src/core/server/framer.py:101-140 | any chunking of the encodings of fitting payloads gives back exactly the payloads and ends empty |
| Framing.RoundTripPrefix | src/core/server/framer.py:101-140 | after any prefix of the stream the buffer is exactly the incomplete tail |
| Framing.TwoReadsSuffice | src/core/server/framer.py:119-140 | every stream has a reading that dispatches all frames before a fault: those frames first, then the rest |
| Framing.ChunkingMattersIff | src/core/server/framer.py:126-129 | every reading of a stream dispatches all of its frames if and only if the stream holds no forbidden length or no frame before it |
| Framing.OversizedLosesFrames | src/core/server/framer.py:126-129 | a witness: a stream whose good frame arrives in two reads and is lost in one |
| Framing.FrameDecoder.Feed | src/core/server/framer.py:101-140 | the loop returns and leaves what the specification says, also when it raises |
| Framing.HandleClient | src/core/server/uds_server.py:138-161 | one fresh decoder per connection dispatches what serving its chunks gives, up to the first refused frame |
| Transport.PushKeeps | src/interceptor/egress/ring_buffer.py:57-62 | a push at any time keeps the transport invariant |
| Transport.ConnectKeeps | src/interceptor/egress/uds_client.py:101-136 | so does a new connection |
| Transport.PopKeeps | src/interceptor/egress/uds_client.py:199-204 | so does taking the oldest payload |
| Transport.AfterSendKeeps | src/interceptor/egress/uds_client.py:159-169 | so does a partial or final send |
| Transport.SendFailsKeeps | src/interceptor/egress/uds_client.py:207-210 | so does a broken connection with unpop, after any pushes in between |
| Transport.AbandonKeeps | src/interceptor/egress/uds_client.py:161-174 | so does a stop that interrupts a send |
| Transport.AfterReadKeeps | src/core/server/uds_server.py:148-161 | so does the server reading any number of bytes of any connection |
| Transport.ReadIsPrefix | src/core/server/uds_server.py:145-161 | any part of a connection's bytes decodes without error to an initial part of the payloads completed on it |
| Transport.RunKeeps | src/interceptor/egress/uds_client.py:147-211 | the invariant holds after every interleaving of all these steps |
| Transport.DeliversOnceInOrder | src/interceptor/egress/uds_client.py:147-211 | under every interleaving, completed frames are pushed payloads at strictly increasing places, so none is delivered twice; each connection dispatches whole payloads in push order, all of them once its bytes are read |
| Transport.BufferAndBalance | src/interceptor/egress/ring_buffer.py:45-88 | the buffer is always exactly the last items pushed, and pushes = fully sent + dropped + queued + in flight + abandoned |
| Delivery.NothingDroppedEarly | src/interceptor/egress/uds_client.py:199-211 | whatever breaks, nothing has been dropped while no more payloads have been pushed than the buffer holds |
| Delivery.RecentPayloadsAreSafe | src/interceptor/egress/uds_client.py:147-211 | under every interleaving each of the last payloads pushed, as many as the buffer holds, is sent, queued, in flight or was given up by a stop in mid-frame |
| Delivery.NothingGivenUp | src/interceptor/egress/uds_client.py:161-174 | a run without such a stop gives nothing up |
| Delivery.BrokenSendComesBack | src/interceptor/egress/uds_client.py:204-211 | a payload whose send breaks, with room in the buffer, is the next one taken after reconnecting, and nothing is dropped |
| Delivery.CanDeliverAll | src/interceptor/egress/uds_client.py:190-211 | from every reachable state the sender's own steps can send all that is in flight and queued, in order, and lose nothing |
| UdsClient.SendCountsBytes | src/interceptor/egress/uds_client.py:159-174 | a send never overshoots, counts every byte it puts on the wire, and ends well exactly when the whole frame is there |
| UdsClient.AttemptMeans | src/interceptor/egress/uds_client.py:165-174 | a send breaks by raising or by accepting nothing, and otherwise sends what is accepted and left |
| UdsClient.SendComesTo | src/interceptor/egress/uds_client.py:159-174 | the steps of a send complete the frame once, or leave it in flight with the bytes counted |
| UdsClient.ShipComesTo | src/interceptor/egress/uds_client.py:199-211 | sent: completed once; broken: completed nowhere, back at the head of the buffer, nothing dropped; interrupted: given up |
| UdsClient.UDSClient.TrySend | src/interceptor/egress/uds_client.py:165-174 | one turn of the send loop: steps taken, bytes put on the wire, what is left in flight |
| UdsClient.UDSClient.SendFrame | src/interceptor/egress/uds_client.py:147-174 | the loop takes exactly the steps of its trace, and the open connection gains exactly the part of the frame that was sent |
| UdsClient.UDSClient.Reconnect | src/interceptor/egress/uds_client.py:193-197 | a dead socket is dropped before a new connection is tried |
| UdsClient.UDSClient.Take | src/interceptor/egress/uds_client.py:199-202 | the oldest payload moves from the buffer into the sender's hands |
| UdsClient.UDSClient.Ship | src/interceptor/egress/uds_client.py:204-211 | what happens to a payload whose frame is sent, broken or interrupted |
| UdsClient.UDSClient.EgressTurn | src/interceptor/egress/uds_client.py:190-211 | one turn of the worker loop takes exactly the listed steps of the transport system, so its guarantees hold of the object |
| UdsClient.UDSClient.Stop | src/interceptor/egress/uds_client.py:79-92 | stopping at any time gives up a frame in flight and closes the socket |
| UdsClient.UDSClient.Start | src/interceptor/egress/uds_client.py:65-77 | a stopped client runs again |
| SseReading.HarmlessStep | src/interceptor/stream/sse_parser.py:46-102 | a text on which nothing is lost to an exception can be read in two pieces, also when CR LF is cut between them |
| SseReading.ChunkInvariance | src/interceptor/stream/sse_parser.py:36-102 | on such a text, events handled and final parser state depend on the text, not on how it was cut |
| SseReading.ChunkInvarianceThroughClose | src/interceptor/stream/sse_parser.py:36-141 | the same up to and including the close, whatever it raises |
| SseReading.ReadingMattersIff | src/interceptor/stream/sse_parser.py:46-102 | for every text, parser state and set of events on which handling raises, all cuttings into non-empty pieces handle the same events and leave the same state if and only if no complete line raises and no event but the last is such an event, or the last complete line alone raises and none before it emits |
| SseReading.ParserReadingMattersIff | src/interceptor/stream/sse_parser.py:46-102 | the same for the parser's own events: no line raises, or just the last one, after lines that emit nothing |
| SseReading.RaisingRetryLosesEvent | src/interceptor/stream/sse_parser.py:100-102 | a witness: a message and then a raising retry; one call loses the message, two calls deliver it |
| SseReading.BadEventDropsNext | src/interceptor/stream/accumulators/openai.py:58-74 | a witness: two messages, the first of which raises when it is handled; one call handles one of them, two calls both |
| SseReading.SecondCloseIff | src/interceptor/stream/sse_parser.py:123-141 | a second close finds nothing exactly when the first left nothing pending, as it does unless it raised |
| SseReading.SecondCloseEmits | src/interceptor/stream/sse_parser.py:129-141 | a witness: the first close raises at a retry, the second emits the pending message |
| Sse.LinesAppend | src/interceptor/stream/sse_parser.py:49-72 | cutting a text into lines can stop anywhere and go on from what was left over |
| Sse.NextBreakMeans | src/interceptor/stream/sse_parser.py:50-69 | a line break found is the first CR, LF or CR LF, and never a CR that ends the buffer |
| Sse.LinesAreTheStream | src/interceptor/stream/sse_parser.py:49-72 | lines are a reading of a text by the grammar of section 9.2.5 of the HTML Living Standard exactly when the parser cuts them from the text without its byte order mark, so there is one reading |
| Sse.MarkedLines | src/interceptor/stream/sse_parser.py:41-72 | a byte order mark stays in front of the first line and changes no other |
| Sse.ParserReadsStreamIff | src/interceptor/stream/sse_parser.py:41-72 | the parser's lines of a text are those of the grammar if and only if the text has no byte order mark |
| Sse.BlockFields | src/interceptor/stream/sse_parser.py:79-104 | whatever is pending, the lines of a block add to it their data values in order, the last event name, the last id without NUL and the last retry that is a number |
| Sse.FieldLine | src/interceptor/stream/sse_parser.py:83-91 | the value of a field is what follows the colon without one space; a line without a colon has the empty value and a comment says nothing |
| Sse.DataFieldLine | src/interceptor/stream/sse_parser.py:95-96 | a data line adds its value |
| Sse.EventFieldLine | src/interceptor/stream/sse_parser.py:93-94 | an event line sets the name |
| Sse.IdFieldLine | src/interceptor/stream/sse_parser.py:97-99 | an id line sets the id unless it holds a NUL |
| Sse.RetryFieldLine | src/interceptor/stream/sse_parser.py:100-102 | a retry line sets the retry if it is a number |
| Sse.OtherFieldLine | src/interceptor/stream/sse_parser.py:93-104 | any other field does nothing |
| Sse.JoinedDataReads | src/interceptor/stream/sse_parser.py:112-114 | an event's data read as lines gives back the data lines it was joined from |
| Sse.BlockEvent | src/interceptor/stream/sse_parser.py:106-121 | whatever is pending, a blank line emits one event with the pending fields exactly when there is data or a name, and then forgets them all; otherwise everything stays pending |
| Sse.CloseReadsLastLine | src/interceptor/stream/sse_parser.py:129-135 | closing reads the rest as one line if and only if the rest holds no separator that only str.splitlines knows |
| Sse.CloseEndsTheLine | src/interceptor/stream/sse_parser.py:123-141 | then closing gives the events and the state of ending the last line and dispatching |
| Sse.ExtraSeparatorCutsData | src/interceptor/stream/sse_parser.py:129-135 | an unterminated data line with any of the eight separators in it is cut off there |
| SseStandard.PendingIsSince | src/interceptor/stream/sse_parser.py:79-121 | after any lines, what is pending is what the lines since the last emitted event amount to |
| SseStandard.SameNameAndValue | src/interceptor/stream/sse_parser.py:83-91 | the search for the colon reads the name and the value that the standard's collecting of characters does |
| SseStandard.BuffersAlike | src/interceptor/stream/sse_parser.py:79-121 | after any lines, data and name are those of the standard's buffers, up to the first blank line with what a mark hides, and the standard's id is the last one of the stream |
| SseStandard.SameAtEachLineIff | src/interceptor/stream/sse_parser.py:79-121 | on any lines the parser emits, line by line, the messages of section 9.2.6 of the HTML Living Standard if and only if, at every blank line, a named event has data, an event with data has set an id since the last event unless the stream's last id is empty, and no data or name hidden by a mark makes a difference |
| SseStandard.SameMessagesIff | src/interceptor/stream/sse_parser.py:79-121 | the same for the sequence of all messages, unless the first line is a data line behind a mark |
| SseStandard.MeetsMeansSame | src/interceptor/stream/sse_parser.py:79-121 | on any lines that meet the condition the messages are the same |
| SseStandard.EachLineSumsUp | src/interceptor/stream/sse_parser.py:36-141 | what is emitted line by line amounts to what the parser emits for the whole text with its close, and to the standard's messages of the stream |
| SseStandard.SameStreamAtEachLineIff | src/interceptor/stream/sse_parser.py:36-141 | over a whole text with its close, on which no line raises, each line emits the same if and only if the condition holds and the parser emits nothing at the lines and the event left over, which the standard discards |
| SseStandard.SameStreamIff | src/interceptor/stream/sse_parser.py:36-141 | the same for the sequence of all messages, unless the first line is a data line behind a mark |
| SseStandard.NamedWithoutData | src/interceptor/stream/sse_parser.py:108-109 | on every named event without data the messages differ |
| SseStandard.IdIsForgotten | src/interceptor/stream/sse_parser.py:117-120 | on every event with an id and one without after it the messages differ |
| SseStandard.MarkHidesData | src/interceptor/stream/sse_parser.py:91-98 | behind a mark, a data line and a blank one give the standard a message and the parser nothing |
| SseStandard.MarkedTextDiffers | src/interceptor/stream/sse_parser.py:41-141 | the same for the whole text with its close |
| SseStandard.SameByAccident | src/interceptor/stream/sse_parser.py:41-141 | a marked data line, and the same line unfinished at the end: the messages agree although they are not emitted at the same lines |
| Sse.SSEParser.TakeLine | src/interceptor/stream/sse_parser.py:50-72 | the search for the next line break takes exactly the next line of the text |
| Sse.SSEParser.Process | src/interceptor/stream/sse_parser.py:79-104 | the field assignments of one line, and when it raises |
| Sse.SSEParser.IngestText | src/interceptor/stream/sse_parser.py:46-77 | the loop of feed, which a raising line leaves with the lines after it still in the buffer and the events lost |
| Sse.SSEParser.Close | src/interceptor/stream/sse_parser.py:123-141 | the close, which splits its rest as str.splitlines does, and what it leaves when a line raises |
| Sse.SSEParser.Feed | src/interceptor/stream/sse_parser.py:36-77 | an empty chunk closes, any other is ingested, and both report what they raise |
| StreamFold.FeedTextsFolds | src/interceptor/stream/accumulators/openai.py:39-40 | on any text in any pieces, whatever an accumulator holds is a fold over the events that the reading handles |
| StreamFold.ChunkingDoesNotMatter | src/interceptor/stream/accumulators/openai.py:30-40 | on a text that loses nothing to an exception, blocks, usage and stop reason do not depend on chunking |
| StreamFold.TextDecides | src/interceptor/stream/accumulators/anthropic.py:28-38 | the same through the end of the stream |
| StreamFold.SecondEofIsIdle | src/interceptor/stream/accumulators/openai.py:30-37 | a second end of stream changes nothing after one that raised nowhere |
| StreamFold.SecondEofIff | src/interceptor/stream/accumulators/openai.py:30-37 | and, when finishing would still change the state, only then |
| ContentBlocks.FinishTwice | src/interceptor/stream/accumulators/openai.py:153-162 | parsing a tool block's input again changes nothing, also when it parses to null |
| ContentBlocks.PartialParses | src/interceptor/stream/accumulators/anthropic.py:176-183 | what an input parses to: empty, a document, no JSON, or null |
| OpenAi.NewSlotRepresents | src/interceptor/stream/accumulators/openai.py:104-143 | a first mention of a slot appends the slot's block at the end of the ordered list |
| OpenAi.OldSlotRepresents | src/interceptor/stream/accumulators/openai.py:111-151 | a later mention changes the block at the slot's position and no other |
| OpenAi.BlocksAreSlots | src/interceptor/stream/accumulators/openai.py:76-162 | the ordered list holds one block per slot in order of first mention, each assembled from the slot's own items |
| OpenAi.AssembleFromProjection | src/interceptor/stream/accumulators/openai.py:93-151 | a slot's block does not depend on the items of the other slots |
| OpenAi.BlocksHoldTheirDeltas | src/interceptor/stream/accumulators/openai.py:93-151 | every block stands at the position its index says and holds the in-order concatenation of the deltas of its slot |
| OpenAi.InterleavingDoesNotMatter | src/interceptor/stream/accumulators/openai.py:93-151 | streams that mention the slots in the same order and agree slot by slot give the same blocks |
| OpenAi.AccumulatesTheText | src/interceptor/stream/accumulators/openai.py:30-74 | however a text is cut on which nothing is lost to an exception, the accumulator ends with the items of the whole text applied |
| OpenAiStream.BlocksAreAsTold | src/interceptor/stream/accumulators/openai.py:76-151 | after any chunks: one block per slot in order of first mention; the thinking block holds all reasoning of all choices, the text block all content, a tool call's block all arguments and names of the calls with its index and the last id given |
| OpenAiStream.InputsAreParsed | src/interceptor/stream/accumulators/openai.py:153-162 | a tool call's input is parsed from the arguments that had come when the stream first ended |
| OpenAiStream.CountsAreAsTold | src/interceptor/stream/accumulators/openai.py:76-101 | each usage count is the last one reported and the stop reason the last finish reason given |
| OpenAiStream.DoneAsTold | src/interceptor/stream/accumulators/openai.py:30-74 | the stream is done exactly when an end marker has come |
| OpenAiStream.StreamIsAsTold | src/interceptor/stream/accumulators/openai.py:30-162 | from the pieces of a text to the result: however it is cut, blocks, inputs, usage and stop reason are those that its chunks tell |
| OpenAi.SecondEofChangesNothing | src/interceptor/stream/accumulators/openai.py:30-37 | a second end of stream changes nothing if the first one did not raise |
| OpenAi.SecondEofMattersIff | src/interceptor/stream/accumulators/openai.py:30-37 | in a stream whose close leaves it unfinished, if and only if |
| OpenAi.RaisingEventHidesNext | src/interceptor/stream/accumulators/openai.py:58-74 | a witness: an event that raises and one with content; one call loses the content, two calls keep it |
| OpenAi.OpenAIAccumulator.HandleToolCall | src/interceptor/stream/accumulators/openai.py:127-151 | one tool delta, new or continued |
| OpenAi.OpenAIAccumulator.HandleChunk | src/interceptor/stream/accumulators/openai.py:76-151 | a chunk's effects in the order the code meets them |
| OpenAi.OpenAIAccumulator.Finalize | src/interceptor/stream/accumulators/openai.py:153-162 | the parsed inputs after finalization, in whatever order the blocks are visited |
| OpenAi.OpenAIAccumulator.FeedChunk | src/interceptor/stream/accumulators/openai.py:30-40 | the object refines the fold over the parsed events, up to the first that raises, and reports what it raises at the end of the stream |
| Anthropic.ResolveSame | src/interceptor/stream/accumulators/anthropic.py:94-95 | giving each start without an index the number of blocks there are changes nothing of what any items do |
| Anthropic.BlocksAreAssembled | src/interceptor/stream/accumulators/anthropic.py:94-165 | for any items, the block at an index is what its own items make of it, starts without an index counted where they open |
| Anthropic.AssembleFromProjection | src/interceptor/stream/accumulators/anthropic.py:94-165 | an index's block does not depend on the items of other indexes |
| Anthropic.InterleavingDoesNotMatter | src/interceptor/stream/accumulators/anthropic.py:94-165 | for any items, the block at an index is that of the items, every start naming its index, cut down to the index |
| Anthropic.ReceivedProjection | src/interceptor/stream/accumulators/anthropic.py:94-95 | cutting the items down as they were received loses nothing if and only if no start without an index opened the block |
| Anthropic.UnnamedStartsInterleave | src/interceptor/stream/accumulators/anthropic.py:94-95 | a witness: a start without an index whose block depends on the blocks of other indexes |
| Anthropic.BlocksHoldTheirDeltas | src/interceptor/stream/accumulators/anthropic.py:94-158 | after any items, a block stands at its own index and holds the in-order concatenation of the deltas since its last start, also when the start or its index was missing |
| Anthropic.AccumulatesTheText | src/interceptor/stream/accumulators/anthropic.py:28-82 | however a text is cut on which nothing is lost to an exception, the accumulator ends with the items of the whole text applied |
| AnthropicStream.BlocksAreAsTold | src/interceptor/stream/accumulators/anthropic.py:94-165 | after any events: a block at an index exactly when one opened it, with the type, id and name of its last start and the text entries, thinking entries and JSON entries of the deltas since then, each from the delta of its kind |
| AnthropicStream.InputsAreParsed | src/interceptor/stream/accumulators/anthropic.py:160-192 | a block's input is parsed at each stop of it, or else at the end |
| AnthropicStream.CountsAreAsTold | src/interceptor/stream/accumulators/anthropic.py:84-174 | each usage count is the last one reported, the stop reason the last one given, and the stream is done exactly after message_stop |
| AnthropicStream.StreamIsAsTold | src/interceptor/stream/accumulators/anthropic.py:28-192 | from the pieces of a text to the result: however it is cut, blocks, inputs, usage and stop reason are those that its events tell |
| Anthropic.SecondEofChangesNothing | src/interceptor/stream/accumulators/anthropic.py:28-35 | a second end of stream changes nothing if the first one did not raise |
| Anthropic.SecondEofMattersIff | src/interceptor/stream/accumulators/anthropic.py:28-35 | in a stream whose close leaves it unfinished, if and only if |
| Anthropic.RaisingEventHidesNext | src/interceptor/stream/accumulators/anthropic.py:56-82 | a witness: a delta that raises and one that does not; one call loses the second, two calls keep it |
| Anthropic.AnthropicAccumulator.HandleContentBlockDelta | src/interceptor/stream/accumulators/anthropic.py:126-158 | one delta, also for a block whose start was missing |
| Anthropic.AnthropicAccumulator.Finalize | src/interceptor/stream/accumulators/anthropic.py:185-192 | the parsed inputs after finalization, in whatever order the blocks are visited |
| Anthropic.AnthropicAccumulator.HandlePartial | src/interceptor/stream/accumulators/anthropic.py:126-174 | what an event that raises has done before it raises |
| Anthropic.AnthropicAccumulator.HandleEvent | src/interceptor/stream/accumulators/anthropic.py:69-82 | the dispatch by event name |
| Anthropic.AnthropicAccumulator.ProcessEvent | src/interceptor/stream/accumulators/anthropic.py:56-82 | which events have an effect, and which, and which raise |
| Anthropic.AnthropicAccumulator.FeedChunk | src/interceptor/stream/accumulators/anthropic.py:28-38 | the object refines the fold over the parsed events, up to the first that raises, and reports what it raises at the end of the stream |
| Jsonc.StripComments | src/core/store/jsonc_exporter.py:21-61 | the index loop with its two flags computes the specified text |
| Jsonc.SkipLine | src/core/store/jsonc_exporter.py:46-50 | skipping a line comment stops before the newline |
| Jsonc.SkipBlock | src/core/store/jsonc_exporter.py:51-56 | skipping a block comment goes past its end, or past the text when it is never closed |
| Jsonc.StripKeepsNonComments | src/core/store/jsonc_exporter.py:21-61 | on every well-formed segmentation the output is the concatenation of the segments that are not comments, so `//` inside a string stays |
| Jsonc.EveryTextIsSegmented | src/core/store/jsonc_exporter.py:21-61 | every text is a well-formed segmentation, with at most its last string or block comment left open |
| Jsonc.StripIsKept | src/core/store/jsonc_exporter.py:21-61 | hence on any text at all exactly the comments go |
| Jsonc.StripTwice | src/core/store/jsonc_exporter.py:21-61 | stripping is idempotent on every text |
| Pairing.MatchById | src/schema/ast.py:216-240 | the first pass and its two sets of used ids |
| Pairing.MatchByName | src/schema/ast.py:242-281 | the second pass over the calls that are left |
| Pairing.ToolInvocations | src/schema/ast.py:184-298 | the three loops compute the specified list |
| Pairing.IdPassIsMaximal | src/schema/ast.py:216-240 | after the first pass no call and result that share a call id are both unpaired |
| Pairing.NamePassIsMaximal | src/schema/ast.py:242-281 | after the second pass every call is listed once, and no call and result that match by id or by name are both left over |
| Pairing.RestPassAddsRest | src/schema/ast.py:283-296 | the last pass lists exactly the results that no pair has taken |
| Pairing.PairingIsMaximalMatching | src/schema/ast.py:184-298 | with unique ids every call and every result is listed exactly once, only matching ones are paired, no matching call and result are both unpaired, and the list has calls + results - pairs entries |
| Pairing.IdsComeFirst | src/schema/ast.py:187-192 | pairs by call id have priority and stay at the head of the list |
| Pairing.EveryEntryFollows | src/schema/ast.py:216-296 | every entry of the list: a call with the earliest result that matches it and is free, a call for which none is free, or a result that is left over, each with its ids, tool name and error marker |
| Pairing.CallBlocksMean | src/schema/ast.py:193-198 | the calls are exactly the blocks with a call id or a call's kind, in order |
| Pairing.ToolNameMeans | src/schema/ast.py:205-207 | which metadata entry names a tool |
| Recurring.CountTurns | src/core/analyzer/heuristics/ctx004_recurring_results.py:101-108 | the number of previous turns with a match |
| Recurring.FindDuplicates | src/core/analyzer/heuristics/ctx004_recurring_results.py:114-122 | the other unreported results of the turn that match |
| Recurring.Gather | src/core/analyzer/heuristics/ctx004_recurring_results.py:86-138 | the loop gathers what the specification says |
| Recurring.Analyze | src/core/analyzer/heuristics/ctx004_recurring_results.py:80-152 | a report is raised exactly when some result recurs and its tokens reach the threshold or the share of the input, with the gathered ids, tokens and occurrences |
| Recurring.FoundIsNew | src/core/analyzer/heuristics/ctx004_recurring_results.py:98-135 | a result about to be reported and its duplicates are distinct and were not reported before |
| Recurring.NeverCountsTwice | src/core/analyzer/heuristics/ctx004_recurring_results.py:91-138 | with unique ids and any matching relation the reported ids are distinct, the recurring tokens are exactly theirs, and they never exceed all tool-result tokens of the turn |
| Recurring.RecurringIsReported | src/core/analyzer/heuristics/ctx004_recurring_results.py:94-135 | a large enough result that recurs often enough when it is met ends up among the reported ids |
| Recurring.ReportedIff | src/core/analyzer/heuristics/ctx004_recurring_results.py:94-135 | exactly the results that qualify when they are met, and their unreported duplicates, are reported |
| Recurring.OccurrencesMean | src/core/analyzer/heuristics/ctx004_recurring_results.py:98-122 | a result occurs once, plus the number of previous turns with a match or its survival count if that is more, plus its duplicates |
| Recurring.DuplicatesAre | src/core/analyzer/heuristics/ctx004_recurring_results.py:114-122 | the duplicates are exactly the other unreported results that match, in order |
| Recurring.ExceedsMeans | src/core/analyzer/heuristics/ctx004_recurring_results.py:143-149 | the report is due when the tokens reach the threshold, or the ratio times the input tokens, the total tokens or one |
| Recurring.MaxOccurrencesMeans | src/core/analyzer/heuristics/ctx004_recurring_results.py:137-138 | the number reported is the largest number of occurrences of a qualifying result, or one |
| Zombie.CountConsecutive | src/core/analyzer/heuristics/zombie_context.py:77-88 | the backward loop counts the consecutive turns with a copy |
| Zombie.Analyze | src/core/analyzer/heuristics/zombie_context.py:71-131 | which results the rule reports |
| Zombie.ReportedMeans | src/core/analyzer/heuristics/zombie_context.py:71-113 | exactly the results are reported, in order, that are larger than the threshold, are not referred to, and have survived long enough by their own count or by a copy in each of the last turns |
| Zombie.RecountMeans | src/core/analyzer/heuristics/zombie_context.py:76-88 | the rule counts m turns exactly when each of the m turns before the current one has a copy |
| Zombie.CopyMeans | src/core/analyzer/heuristics/zombie_context.py:79-83 | what a copy is |
| Zombie.RecountNotBelow | src/core/analyzer/heuristics/zombie_context.py:76-90 | for a soundly keyed result the recount is never below the cached count, so the maximum is the recount |
| Zombie.RecountFallsBelow | src/core/analyzer/heuristics/zombie_context.py:76-90 | for any other result there is a history where it is below |
| Zombie.RecountSoundIff | src/core/analyzer/heuristics/zombie_context.py:76-90 | over all well-placed histories the recount is never below the cached count if and only if the result has the hash of the first block under its key, or an identity key that is not that hash |
| Zombie.UnsoundTurn | src/core/analyzer/heuristics/zombie_context.py:76-90 | a turn and a history in which the recount is below the cached count |
| Zombie.SharedIdentityIsSound | src/core/analyzer/heuristics/zombie_context.py:79-85 | a result whose identity key is no hash of its turn is soundly keyed, whatever shares the key |
| Zombie.CacheDoesNotMatter | src/core/analyzer/heuristics/zombie_context.py:71-92 | with soundly keyed results the report is the same with and without the cached counts |
| Store.EvictKeeps | src/core/store/session_store.py:400-413 | an eviction removes one session from everything and keeps the invariant |
| Store.OpenKeeps | src/core/store/session_store.py:67-74 | making room and creating a session keeps the invariant |
| Store.AppendKeeps | src/core/store/session_store.py:64-99 | so does appending a turn |
| Store.UpdateKeeps | src/core/store/session_store.py:101-127 | so does updating one |
| Store.ReplacedMeans | src/core/store/session_store.py:108-114 | where an updated turn lands, and that the other turns stay |
| Store.RegisterKeeps | src/core/store/session_store.py:129-148 | so does registering a session |
| Store.RunKeeps | src/core/store/session_store.py:64-148 | after any run the capacity is respected, order and graphs cover exactly the live sessions, each graph has its session's turns, and indexes and metadata name only live sessions |
| Store.OrderIsActivity | src/core/store/session_store.py:76-77 | the order of the sessions is the order of their last append or registration |
| Store.EvictsLeastRecentlyActive | src/core/store/session_store.py:67-71 | a new session in a full store costs exactly one session, the one least recently appended to or registered |
| Store.IndexIsRecomputation | src/core/store/session_store.py:85-90 | in runs without updates a session is listed under a model exactly when one of its live turns has it lower-cased, across evictions and re-creation |
| Store.UpdateExactIff | src/core/store/session_store.py:101-121 | an update leaves the model index exact if and only if the model of the turn put aside is empty or still used by the session |
| Store.UpdateLeavesStaleModel | src/core/store/session_store.py:108-121 | replacing a session's only turn by one of another model leaves it listed under the old one |
| Store.IndexAlwaysCovers | src/core/store/session_store.py:85-121 | in every run, updates included, a session is listed under each model one of its live turns has |
| SessionNotes.RuleIndexIsRecomputation | src/core/store/session_store.py:92-125 | in every run a session is listed under a rule exactly when it is live and a turn of it was recorded under the rule since it was last created |
| SessionNotes.MetadataIsLastGiven | src/core/store/session_store.py:129-148 | in every run a live session has the metadata last given to it since it was created, the default if none was, and no other session has any |
| Store.LiveSessionsAreRecounted | src/core/store/session_store.py:64-99 | in step mode the lineage of every live session is the recount of its own turns, across evictions and re-creation |
| SessionStores.SessionStore.EvictSession | src/core/store/session_store.py:400-413 | the object's fields after an eviction |
| SessionStores.SessionStore.OpenSession | src/core/store/session_store.py:67-74 | the object's fields once the session exists |
| SessionStores.SessionStore.AppendTurn | src/core/store/session_store.py:50-99 | the object follows the specification, keeps the invariant and returns the delta against the session's latest turn |
| SessionStores.SessionStore.UpdateTurn | src/core/store/session_store.py:101-127 | the same for an update |
| SessionStores.SessionStore.RegisterSession | src/core/store/session_store.py:129-148 | the same for a registration |
| SessionStores.SessionStore.DeleteSession | src/core/store/session_store.py:359-365 | the same for a deletion, and whether there was a session to delete |
| SessionStores.SessionStore.Clear | src/core/store/session_store.py:390-398 | a cleared store is a new one |

## Left out

- Sockets, select, threads, locks and asyncio: connecting, partial sends, failures and reads are steps that may happen at any time. Two connections are not ordered against each other, so order is claimed per connection.
- Transport.DeliversOnceInOrder: payloads must fit the server's frame limit, because a larger one makes the server drop the connection; and stop() is taken to wait until the worker has ended, where the code gives up waiting after a timeout.
- Framing: a payload that is not bytes (TypeError), and what is done with a dispatched frame (`decode_payload`, the callback).
- Bytes and UTF-8: chunks are pieces of decoded text. A chunk of bytes that completes no character is the empty piece, which the model covers; replacement of malformed bytes is not modelled.
- SseStandard.SameStreamIff: says nothing of a stream in which a line raises, nor of one whose first line is a data line behind a mark, for which `SseStandard.SameStreamAtEachLineIff` is exact line by line; the reconnection time that retry sets is not part of a message.
- SseStandard.SameMessagesIff: the same for lines; `SseStandard.SameAtEachLineIff` has no such exception.
- SseReading.ReadingMattersIff: pieces are not empty, because an empty chunk ends the stream; the parser has no complete line waiting, as before its first call and after every call that did not raise.
- OpenAi.AccumulatesTheText: what a JSON shape that raises does is a parameter (`Decoded`): the part of the event handled before it raises. Other values of the wrong type, which Python stores as they are, are not modelled, nor are exceptions of `json.loads` on a collected tool input.
- Anthropic.AccumulatesTheText: the same.
- `GeminiAccumulator`, whose mode depends on the first chunk, and the worker that hands chunks to accumulators: the model starts from an ordered list of chunks.
- ContextGraphs.ContextGraph.UpdateTurn: deltas after an update are not recomputed by the code, nor are the counters on the blocks of an updated turn; what the records are then is in `HumanLineage.RefreshAgreesIff`.
- HumanLineage.MixedRunIsRecount: asks of each update that it does no harm to a record, which is exact for one update; records can come to agree again later.
- ContextGraphs.ContextGraph.AddTurn: records are values in a map, so a caller holding a record is not seen; that counters stay the recount is claimed for turns with blocks of their own, as the normalizers build them. `get_lineage` and the searches for calls and results across turns are not modelled.
- OpenAi.OpenAIAccumulator.FeedChunk: blocks are values in the ordered list and the three references are positions in it.
- Rollup.HumanRefinesStep: a turn id does not depend on the turn's index. For an envelope without turn id and correlation id the normalizer makes it from the index, which differs between the two modes.
- BridgeStore.StoreHoldsModeRun: the turn of an envelope bears the session id that the bridge looks up. Where `normalize_session_id` changes that id (a bare number, for one), the bridge looks up a session that is never stored, and human mode opens a new turn for every envelope.
- BridgeStore.StoreHoldsModeRecords: the same.
- Rollup.CorePipelineBridge.HandleCompleted: the session id is not an alias, analysis results are not carried, and `is_human_interaction` is an arbitrary flag on the envelope.
- Rollup.CorePipelineBridge.Accumulate: the two cost sums, which the analysis after each envelope overwrites.
- SessionStores.SessionStore.AppendTurn: a session's graph is a value, its turns and records, so the parent turn id, the links and the tables are left to `ContextGraphs.ContextGraph.AddTurn`; `max_sessions` is positive, because 0 raises.
- SessionStores.SessionStore.RegisterSession: session metadata is one opaque value with its granularity already filled in.
- Session aliases, the exported set, queries over the store and violations grouping.
- Recurring.Analyze: the price, severity and text of a report; the ratio is a real number.
- Zombie.Analyze: the price and text of a report; the reference test is an arbitrary relation.
- Pairing.ToolInvocations: metadata entries are strings with the empty string for an absent one, and the three error markers of a result are one flag.
- Session splitting in `addon.py` and `normalize_session_id`, the turn tracker, provider normalizers, hashing, prices and scores, the user interfaces and exports: bookkeeping, field plucking or presentation.

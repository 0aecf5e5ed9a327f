/** The bridge on the store: what the session list is in a run of completed envelopes and other store calls (src/cli.py). */
module BridgeStore {
  import opened Collections
  import opened Blocks
  import opened Lineage
  import opened HumanLineage
  import opened Rollup
  import opened Store

  // What reaches the store: a completed envelope of the session, with the rules that the turn it is stored
  // as violates, or any other call.
  datatype Happening = Completed(envelope: Envelope, rules: seq<string>) | Other(op: Op)

  function ListOf(s: State, sid: string): seq<Turn> {
    if sid in s.sessions then s.sessions[sid] else []
  }

  /** The store call that an envelope makes; None when its normalizer raises. */
  function CallOf(human: bool, turns: seq<Turn>, e: Envelope, rules: seq<string>): Option<Op> {
    match e.content
    case None => None
    case Some(c) =>
      var last := |turns| - 1;
      if human && turns != [] && !e.human then Some(UpdateTurn(Absorb(turns[last], Normalized(c, last)), rules))
      else Some(AppendTurn(Normalized(c, |turns|), rules))
  }

  function Happen(lower: string -> string, human: bool, sid: string, s: State, h: Happening): State {
    match h
    case Other(op) => Apply(lower, s, op)
    case Completed(e, rules) =>
      match CallOf(human, ListOf(s, sid), e, rules)
      case None => s
      case Some(op) => Apply(lower, s, op)
  }

  function HappenAll(lower: string -> string, human: bool, maxSessions: nat, sid: string, hs: seq<Happening>): State {
    if hs == [] then NewStore(maxSessions)
    else Happen(lower, human, sid, HappenAll(lower, human, maxSessions, sid, hs[..|hs| - 1]), hs[|hs| - 1])
  }

  /** The envelopes completed since the session was last created. */
  function SinceCreated(lower: string -> string, human: bool, maxSessions: nat, sid: string, hs: seq<Happening>): seq<Envelope> {
    if hs == [] then []
    else
      var before := SinceCreated(lower, human, maxSessions, sid, hs[..|hs| - 1]);
      match hs[|hs| - 1]
      case Completed(e, _) => before + [e]
      case Other(_) => if sid in HappenAll(lower, human, maxSessions, sid, hs).sessions then before else []
  }

  /** Envelopes carry turns of the session, and no other call stores one. */
  predicate Owned(sid: string, h: Happening) {
    match h
    case Completed(e, _) => e.content.Some? ==> e.content.value.sessionId == sid
    case Other(op) => op.AppendTurn? || op.UpdateTurn? ==> op.turn.sessionId != sid
  }

  function ModeRun(human: bool, es: seq<Envelope>): seq<Turn> {
    if human then HumanRun(es) else Rollup.StepRun(es)
  }

  /** In either mode the turns of a session are numbered by position and bear its id. */
  ghost predicate Placed(turns: seq<Turn>, sid: string) {
    forall i :: 0 <= i < |turns| ==> turns[i].turnIndex == i && turns[i].sessionId == sid
  }

  lemma {:induction false} RunIsPlaced(human: bool, es: seq<Envelope>, sid: string)
    requires forall e :: e in es && e.content.Some? ==> e.content.value.sessionId == sid
    ensures Placed(ModeRun(human, es), sid)
  {
    if es != [] {
      RunIsPlaced(human, es[..|es| - 1], sid);
      assert es[|es| - 1] in es;
    }
  }

  lemma ModeRunSnoc(human: bool, es: seq<Envelope>, e: Envelope)
    ensures ModeRun(human, es + [e])
         == if human then HumanNext(ModeRun(human, es), e) else StepNext(ModeRun(human, es), e)
  {
    assert (es + [e])[..|es|] == es;
  }

  /** Another call leaves the session's list alone, or ends or opens the session with an empty one. */
  lemma OtherKeepsList(lower: string -> string, s: State, sid: string, op: Op)
    requires Inv(s) && Owned(sid, Other(op))
    ensures var s' := Apply(lower, s, op);
            ListOf(s', sid) == if sid in s'.sessions then ListOf(s, sid) else []
  {
    match op {
      case AppendTurn(t, rules) => OpenKeepsList(s, t.sessionId, sid);
      case UpdateTurn(t, rules) =>
      case RegisterSession(x, metadata) => OpenKeepsList(s, x, sid);
      case DeleteSession(x) =>
      case Clear =>
    }
  }

  lemma OpenKeepsList(s: State, newSid: string, sid: string)
    requires Inv(s)
    ensures ListOf(Open(s, newSid), sid) == if sid in Open(s, newSid).sessions then ListOf(s, sid) else []
  {
  }

  /** An envelope moves the session's list as its mode says. */
  lemma EnvelopeMovesList(lower: string -> string, human: bool, s: State, sid: string, e: Envelope, rules: seq<string>)
    requires Inv(s) && Placed(ListOf(s, sid), sid)
    requires e.content.Some? ==> e.content.value.sessionId == sid
    ensures ListOf(Happen(lower, human, sid, s, Completed(e, rules)), sid)
         == if human then HumanNext(ListOf(s, sid), e) else StepNext(ListOf(s, sid), e)
  {
    var turns := ListOf(s, sid);
    if e.content.Some? {
      var last := |turns| - 1;
      if human && turns != [] && !e.human {
        var t := Absorb(turns[last], Normalized(e.content.value, last));
        assert turns[last].turnIndex == last;
        assert t.turnIndex == last && t.sessionId == sid;
        assert Replaced(turns, t) == turns[last := t];
      } else {
        AppendExtendsList(lower, s, Normalized(e.content.value, |turns|), rules);
      }
    }
  }

  lemma AppendExtendsList(lower: string -> string, s: State, t: Turn, rules: seq<string>)
    requires Inv(s)
    ensures ListOf(Append(lower, s, t, rules), t.sessionId) == ListOf(s, t.sessionId) + [t]
  {
    OpenKeeps(s, t.sessionId);
    OpenKeepsList(s, t.sessionId, t.sessionId);
    MoveKeeps(Open(s, t.sessionId), t.sessionId);
  }

  lemma HappenKeeps(lower: string -> string, human: bool, sid: string, s: State, h: Happening)
    requires Inv(s)
    ensures Inv(Happen(lower, human, sid, s, h))
  {
    match h {
      case Other(op) => ApplyKeeps(lower, s, op);
      case Completed(e, rules) =>
        var call := CallOf(human, ListOf(s, sid), e, rules);
        if call.Some? { ApplyKeeps(lower, s, call.value); }
    }
  }

  lemma {:induction false} SinceIsOwned(lower: string -> string, human: bool, maxSessions: nat, sid: string, hs: seq<Happening>)
    requires forall h :: h in hs ==> Owned(sid, h)
    ensures forall e :: e in SinceCreated(lower, human, maxSessions, sid, hs) && e.content.Some?
              ==> e.content.value.sessionId == sid
  {
    if hs != [] {
      SinceIsOwned(lower, human, maxSessions, sid, hs[..|hs| - 1]);
      assert Owned(sid, hs[|hs| - 1]);
    }
  }

  /**
   * Whatever other sessions do, and however often the session is evicted, deleted and created again, its list
   * in the store is the human or the step list of the envelopes completed since it was last created.
   */
  lemma {:induction false} StoreHoldsModeRun(lower: string -> string, human: bool, maxSessions: nat, sid: string, hs: seq<Happening>)
    requires 0 < maxSessions && forall h :: h in hs ==> Owned(sid, h)
    ensures var s := HappenAll(lower, human, maxSessions, sid, hs);
            && Inv(s)
            && ListOf(s, sid) == ModeRun(human, SinceCreated(lower, human, maxSessions, sid, hs))
  {
    if hs != [] {
      var init, h := hs[..|hs| - 1], hs[|hs| - 1];
      assert h in hs;
      StoreHoldsModeRun(lower, human, maxSessions, sid, init);
      SinceIsOwned(lower, human, maxSessions, sid, init);
      var s, es := HappenAll(lower, human, maxSessions, sid, init), SinceCreated(lower, human, maxSessions, sid, init);
      RunIsPlaced(human, es, sid);
      HappenKeeps(lower, human, sid, s, h);
      match h {
        case Completed(e, rules) =>
          EnvelopeMovesList(lower, human, s, sid, e, rules);
          ModeRunSnoc(human, es, e);
        case Other(op) =>
          OtherKeepsList(lower, s, sid, op);
      }
    }
  }
  // ---------- the lineage of the session ----------

  function RecordsOf(s: State, sid: string): Records {
    if sid in s.graphs then s.graphs[sid].records else map[]
  }

  /** The call that an envelope makes on the session's graph; none when its normalizer raises. */
  function CallOn(human: bool, turns: seq<Turn>, e: Envelope): seq<GraphCall> {
    match e.content
    case None => []
    case Some(c) =>
      if human && turns != [] && !e.human then [UpdateLatest(c.AllBlocks())] else [AddTurn(c.AllBlocks())]
  }

  function GraphCalls(human: bool, es: seq<Envelope>): seq<GraphCall> {
    if es == [] then []
    else
      var init := es[..|es| - 1];
      GraphCalls(human, init) + CallOn(human, ModeRun(human, init), es[|es| - 1])
  }

  lemma GraphCallsSnoc(human: bool, es: seq<Envelope>, e: Envelope)
    ensures GraphCalls(human, es + [e]) == GraphCalls(human, es) + CallOn(human, ModeRun(human, es), e)
  {
    assert (es + [e])[..|es|] == es;
  }

  lemma AfterSnoc(calls: seq<GraphCall>, call: GraphCall)
    ensures TurnsAfter(calls + [call]) == TurnsAfter(calls) + (if call.AddTurn? then 1 else 0)
    ensures call.AddTurn? ==> RecordsAfter(calls + [call]) == VisitAll(RecordsAfter(calls), TurnsAfter(calls), call.blocks)
    ensures call.UpdateLatest? && TurnsAfter(calls) > 0 ==>
              RecordsAfter(calls + [call]) == RefreshAll(RecordsAfter(calls), TurnsAfter(calls) - 1, call.blocks)
  {
    assert (calls + [call])[..|calls|] == calls;
  }

  lemma CallAddsTheTurn(human: bool, turns: seq<Turn>, e: Envelope, calls: seq<GraphCall>)
    requires TurnsAfter(calls) == |turns|
    ensures TurnsAfter(calls + CallOn(human, turns, e)) == |if human then HumanNext(turns, e) else StepNext(turns, e)|
  {
    hide TurnsAfter;
    var more := CallOn(human, turns, e);
    if more == [] {
      assert calls + more == calls;
    } else {
      assert more == [more[0]];
      AfterSnoc(calls, more[0]);
    }
  }

  /** The calls add as many turns as the mode's list has. */
  lemma {:induction false} CallsAddTheTurns(human: bool, es: seq<Envelope>)
    ensures TurnsAfter(GraphCalls(human, es)) == |ModeRun(human, es)|
  {
    if es != [] {
      hide TurnsAfter, CallOn, HumanNext, StepNext;
      var init, e := es[..|es| - 1], es[|es| - 1];
      CallsAddTheTurns(human, init);
      assert es == init + [e];
      ModeRunSnoc(human, init, e);
      GraphCallsSnoc(human, init, e);
      CallAddsTheTurn(human, ModeRun(human, init), e, GraphCalls(human, init));
    }
  }

  /** Another call leaves the session's lineage alone, or starts it anew. */
  lemma OtherKeepsRecords(lower: string -> string, s: State, sid: string, op: Op)
    requires Inv(s) && Owned(sid, Other(op))
    ensures var s' := Apply(lower, s, op);
            RecordsOf(s', sid) == if sid in s'.sessions then RecordsOf(s, sid) else map[]
  {
    hide EnlistModel, EnlistAll, Inv, Updated, Added;
    match op {
      case AppendTurn(t, rules) => OpenKeepsRecords(s, t.sessionId, sid);
      case UpdateTurn(t, rules) => LiveHasGraph(s, sid);
      case RegisterSession(x, metadata) => OpenKeepsRecords(s, x, sid);
      case DeleteSession(x) => LiveHasGraph(s, sid);
      case Clear =>
    }
  }

  lemma LiveHasGraph(s: State, sid: string)
    requires Inv(s)
    ensures sid in s.graphs <==> sid in s.sessions
  {
  }

  lemma OpenKeepsRecords(s: State, newSid: string, sid: string)
    requires Inv(s)
    ensures RecordsOf(Open(s, newSid), sid) == if sid in Open(s, newSid).sessions then RecordsOf(s, sid) else map[]
  {
  }

  lemma AppendExtendsRecords(lower: string -> string, s: State, t: Turn, rules: seq<string>)
    requires Inv(s)
    ensures RecordsOf(Append(lower, s, t, rules), t.sessionId) == VisitAll(RecordsOf(s, t.sessionId), t.turnIndex, t.AllBlocks())
  {
    OpenKeeps(s, t.sessionId);
    OpenKeepsRecords(s, t.sessionId, t.sessionId);
    MoveKeeps(Open(s, t.sessionId), t.sessionId);
  }

  lemma UpdateRefreshesRecords(lower: string -> string, s: State, t: Turn, rules: seq<string>)
    requires Inv(s) && ListOf(s, t.sessionId) != []
    ensures RecordsOf(Update(lower, s, t, rules), t.sessionId) == RefreshAll(RecordsOf(s, t.sessionId), t.turnIndex, t.AllBlocks())
  {
    hide RefreshAll;
  }

  /** An envelope moves the session's lineage as one call on its graph. */
  lemma EnvelopeMovesRecords(lower: string -> string, human: bool, s: State, sid: string, e: Envelope, rules: seq<string>,
                             calls: seq<GraphCall>)
    requires Inv(s) && Placed(ListOf(s, sid), sid)
    requires e.content.Some? ==> e.content.value.sessionId == sid
    requires RecordsOf(s, sid) == RecordsAfter(calls) && TurnsAfter(calls) == |ListOf(s, sid)|
    ensures RecordsOf(Happen(lower, human, sid, s, Completed(e, rules)), sid)
         == RecordsAfter(calls + CallOn(human, ListOf(s, sid), e))
  {
    hide VisitAll, RefreshAll, Append, Update, RecordsAfter, TurnsAfter, Inv;
    var turns := ListOf(s, sid);
    if e.content.None? {
      assert calls + [] == calls;
    } else {
      var last, blocks := |turns| - 1, e.content.value.AllBlocks();
      if human && turns != [] && !e.human {
        var t := Absorb(turns[last], Normalized(e.content.value, last));
        assert turns[last].turnIndex == last && turns[last].sessionId == sid;
        assert t.turnIndex == last && t.sessionId == sid && t.AllBlocks() == blocks;
        UpdateRefreshesRecords(lower, s, t, rules);
        AfterSnoc(calls, UpdateLatest(blocks));
      } else {
        AppendExtendsRecords(lower, s, Normalized(e.content.value, |turns|), rules);
        assert Normalized(e.content.value, |turns|).AllBlocks() == blocks;
        AfterSnoc(calls, AddTurn(blocks));
      }
    }
  }

  /**
   * In either mode the session's lineage records are those of the calls that its envelopes make on a graph,
   * one added turn or one refresh of the latest turn each, and so in shape.
   */
  lemma {:induction false} StoreHoldsModeRecords(lower: string -> string, human: bool, maxSessions: nat, sid: string, hs: seq<Happening>)
    requires 0 < maxSessions && forall h :: h in hs ==> Owned(sid, h)
    ensures var s := HappenAll(lower, human, maxSessions, sid, hs);
            && RecordsOf(s, sid) == RecordsAfter(GraphCalls(human, SinceCreated(lower, human, maxSessions, sid, hs)))
            && AllShaped(RecordsOf(s, sid))
  {
    hide AllShaped, RecordsAfter;
    var es' := SinceCreated(lower, human, maxSessions, sid, hs);
    NoCallNoRecord();
    if hs != [] {
      var init, h := hs[..|hs| - 1], hs[|hs| - 1];
      assert h in hs;
      StoreHoldsModeRecords(lower, human, maxSessions, sid, init);
      StoreHoldsModeRun(lower, human, maxSessions, sid, init);
      SinceIsOwned(lower, human, maxSessions, sid, init);
      var s, es := HappenAll(lower, human, maxSessions, sid, init), SinceCreated(lower, human, maxSessions, sid, init);
      RunIsPlaced(human, es, sid);
      match h {
        case Completed(e, rules) =>
          CallsAddTheTurns(human, es);
          EnvelopeMovesRecords(lower, human, s, sid, e, rules, GraphCalls(human, es));
          GraphCallsSnoc(human, es, e);
        case Other(op) =>
          OtherKeepsRecords(lower, s, sid, op);
      }
    }
    RunKeepsShape(GraphCalls(human, es'));
  }

  lemma NoCallNoRecord()
    ensures RecordsAfter([]) == map[]
  {
  }
  /**
   * Hence they are the recount of everything the session's turns have held, as long as no step brings a key back to
   * the turn it joins in a way that the update does not count.
   */
  lemma StoreHoldsRecount(lower: string -> string, human: bool, maxSessions: nat, sid: string, hs: seq<Happening>)
    requires 0 < maxSessions && forall h :: h in hs ==> Owned(sid, h)
    requires AllHarmless(GraphCalls(human, SinceCreated(lower, human, maxSessions, sid, hs)))
    ensures Agrees(RecordsOf(HappenAll(lower, human, maxSessions, sid, hs), sid),
                   Snapshots(GraphCalls(human, SinceCreated(lower, human, maxSessions, sid, hs))))
  {
    StoreHoldsModeRecords(lower, human, maxSessions, sid, hs);
    MixedRunIsRecount(GraphCalls(human, SinceCreated(lower, human, maxSessions, sid, hs)));
  }

  /** In step granularity no call is an update, so nothing is asked of the steps. */
  lemma {:induction false} StepsAreHarmless(es: seq<Envelope>)
    ensures AllHarmless(GraphCalls(false, es))
    ensures forall call :: call in GraphCalls(false, es) ==> call.AddTurn?
  {
    if es != [] {
      StepsAreHarmless(es[..|es| - 1]);
      var init := es[..|es| - 1];
      var before, more := GraphCalls(false, init), CallOn(false, ModeRun(false, init), es[|es| - 1]);
      if more == [] {
        assert before + more == before;
      } else {
        assert (before + more)[..|before + more| - 1] == before;
      }
    }
  }
}

/** The session store as an object (src/core/store/session_store.py). */
module SessionStores {
  import opened Collections
  import opened Blocks
  import Diff
  import opened Store

  class SessionStore {
    const maxSessions: nat
    const lower: string -> string  // str.lower
    var order: seq<string>         // the keys of the OrderedDict, least recently active first
    var sessions: map<string, seq<Turn>>
    var graphs: map<string, Graph>
    var modelToSessions: Index
    var violationToSessions: Index
    var metadata: map<string, string>

    constructor (maxSessions: nat, lower: string -> string)
      requires 0 < maxSessions
      ensures this.maxSessions == maxSessions && this.lower == lower
      ensures View() == NewStore(maxSessions) && Inv(View())
    {
      this.maxSessions, this.lower := maxSessions, lower;
      order, sessions, graphs := [], map[], map[];
      modelToSessions, violationToSessions, metadata := map[], map[], map[];
    }

    function View(): State
      reads this
    {
      State(maxSessions, order, sessions, graphs, modelToSessions, violationToSessions, metadata)
    }

    /** Takes a session out of every entry of an index. */
    static method DiscardFrom(index: Index, sid: string) returns (r: Index)
      ensures r == Discard(index, sid)
    {
      r := index;
      var todo := index.Keys;
      while todo != {}
        invariant todo <= index.Keys && r.Keys == index.Keys
        invariant forall k :: k in index ==> r[k] == if k in todo then index[k] else index[k] - {sid}
        decreases |todo|
      {
        var k := Pick(todo);
        todo := todo - {k};
        r := r[k := r[k] - {sid}];
      }
    }

    method EvictSession(sid: string)
      modifies this
      ensures View() == Evict(old(View()), sid)
    {
      order := Without(order, sid);
      sessions := sessions - {sid};
      graphs := graphs - {sid};
      metadata := metadata - {sid};
      modelToSessions := DiscardFrom(modelToSessions, sid);
      violationToSessions := DiscardFrom(violationToSessions, sid);
    }

    /** Creates the session if it is new, after making room for it. */
    method OpenSession(sid: string)
      requires Inv(View())
      modifies this
      ensures View() == Open(old(View()), sid) && Inv(View()) && sid in sessions
    {
      hide NamesInv, GraphInv;
      OpenKeeps(View(), sid);
      if sid !in sessions {
        if |order| >= maxSessions {
          EvictSession(order[0]);
        }
        order := order + [sid];
        sessions := sessions[sid := []];
        graphs := graphs[sid := Graph([], map[])];
      }
    }

    static method EnlistRules(index: Index, rules: seq<string>, sid: string) returns (r: Index)
      ensures r == EnlistAll(index, rules, sid)
    {
      r := index;
      for i := 0 to |rules|
        invariant r == EnlistAll(index, rules[..i], sid)
      {
        assert rules[..i + 1][..i] == rules[..i];
        if rules[i] !in r {
          r := r[rules[i] := {}];
        }
        r := r[rules[i] := r[rules[i]] + {sid}];
      }
      assert rules[..|rules|] == rules;
    }

    method IndexTurn(turn: Turn, rules: seq<string>)
      modifies this`modelToSessions, this`violationToSessions
      ensures modelToSessions == EnlistModel(lower, old(modelToSessions), turn.model, turn.sessionId)
      ensures violationToSessions == EnlistAll(old(violationToSessions), rules, turn.sessionId)
    {
      if turn.model != "" {
        var model := lower(turn.model);
        if model !in modelToSessions {
          modelToSessions := modelToSessions[model := {}];
        }
        modelToSessions := modelToSessions[model := modelToSessions[model] + {turn.sessionId}];
      }
      violationToSessions := EnlistRules(violationToSessions, rules, turn.sessionId);
    }

    /** The turn joins its open session, the session's graph and the indexes. */
    method Record(turn: Turn, rules: seq<string>)
      requires turn.sessionId in graphs && turn.sessionId in sessions
      modifies this
      ensures View() == Recorded(lower, old(View()), turn, rules)
    {
      var sid := turn.sessionId;
      graphs := graphs[sid := Added(graphs[sid], turn)];
      sessions := sessions[sid := sessions[sid] + [turn]];
      IndexTurn(turn, rules);
    }

    /** The latest turn of a session that has one. */
    static function LastOfSession(s: State, sid: string): Option<Turn> {
      if sid in s.sessions && s.sessions[sid] != [] then Some(s.sessions[sid][|s.sessions[sid]| - 1]) else None
    }

    static lemma OpenKeepsLast(s: State, sid: string)
      requires Inv(s)
      ensures LastOfSession(Open(s, sid), sid) == LastOfSession(s, sid)
    {
    }

    method AppendTurn(turn: Turn, rules: seq<string>) returns (delta: Diff.TurnDelta)
      requires Inv(View())
      modifies this
      ensures View() == Append(lower, old(View()), turn, rules) && Inv(View())
      ensures delta == Diff.Delta(LastOfSession(old(View()), turn.sessionId), turn)
    {
      AppendKeeps(lower, View(), turn, rules);
      OpenKeepsLast(View(), turn.sessionId);
      OpenSession(turn.sessionId);
      assert turn.sessionId in graphs.Keys;
      MoveToEnd(turn.sessionId);
      delta := DeltaOf(turn);
      Record(turn, rules);
    }

    /** The delta of a turn against the latest one in its session's graph. */
    method DeltaOf(turn: Turn) returns (delta: Diff.TurnDelta)
      requires Inv(View()) && turn.sessionId in sessions && turn.sessionId in graphs
      ensures delta == Diff.Delta(LastOfSession(View(), turn.sessionId), turn)
    {
      var turns := graphs[turn.sessionId].turns;
      delta := Diff.ComputeDelta(if turns == [] then None else Some(turns[|turns| - 1]), turn);
    }

    method MoveToEnd(sid: string)
      modifies this`order
      ensures View() == MovedToEnd(old(View()), sid)
    {
      order := Without(order, sid) + [sid];
    }

    static method Place(turns: seq<Turn>, turn: Turn) returns (r: seq<Turn>)
      requires turns != []
      ensures r == Replaced(turns, turn)
    {
      if turn.turnIndex < |turns| {
        r := turns[turn.turnIndex := turn];
      } else {
        r := turns[|turns| - 1 := turn];
      }
    }

    method UpdateTurn(turn: Turn, rules: seq<string>)
      requires Inv(View())
      modifies this
      ensures View() == Update(lower, old(View()), turn, rules) && Inv(View())
    {
      hide NamesInv, OrderInv, EnlistAll, EnlistModel, Updated;
      UpdateKeeps(lower, View(), turn, rules);
      var sid := turn.sessionId;
      if sid !in sessions || sessions[sid] == [] {
        return;
      }
      var turns := Place(sessions[sid], turn);
      sessions := sessions[sid := turns];
      graphs := graphs[sid := Updated(graphs[sid], turn)];
      IndexTurn(turn, rules);
    }

    method RegisterSession(sid: string, given: Option<string>)
      requires Inv(View())
      modifies this
      ensures View() == Register(old(View()), sid, given) && Inv(View())
    {
      hide Inv, Open;
      RegisterKeeps(View(), sid, given);
      OpenSession(sid);
      if given.Some? {
        metadata := metadata[sid := given.value];
      } else if sid !in metadata {
        metadata := metadata[sid := DEFAULT_METADATA];
      }
      MoveToEnd(sid);
    }

    method DeleteSession(sid: string) returns (deleted: bool)
      requires Inv(View())
      modifies this
      ensures View() == Delete(old(View()), sid) && Inv(View())
      ensures deleted <==> sid in old(sessions)
    {
      EvictKeeps(View(), sid);
      deleted := sid in sessions;
      if deleted {
        EvictSession(sid);
      }
    }

    method Clear()
      requires Inv(View())
      modifies this
      ensures View() == NewStore(maxSessions) && Inv(View())
    {
      order, sessions, graphs := [], map[], map[];
      modelToSessions, violationToSessions, metadata := map[], map[], map[];
    }
  }
}

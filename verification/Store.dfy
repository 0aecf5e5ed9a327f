/** The session store: capacity, activity order, per-session graphs and secondary indexes (src/core/store/session_store.py). */
module Store {
  import opened Collections
  import opened Blocks
  import opened Lineage
  import opened LineageDiff

  // ---------- the store on values ----------

  // A session's graph: its turns and lineage records.
  datatype Graph = Graph(turns: seq<Turn>, records: Records)

  function Added(g: Graph, t: Turn): Graph {
    Graph(g.turns + [t], VisitAll(g.records, t.turnIndex, t.AllBlocks()))
  }

  /** The turn takes its place by index, or the last one. */
  function Replaced(turns: seq<Turn>, t: Turn): seq<Turn> {
    if t.turnIndex < |turns| then turns[t.turnIndex := t]
    else if turns != [] then turns[|turns| - 1 := t]
    else []
  }

  /** A turn whose index is a position of the list takes that position, any other the last one; the rest stays. */
  lemma ReplacedMeans(turns: seq<Turn>, t: Turn, i: nat)
    requires i < |turns|
    ensures |Replaced(turns, t)| == |turns|
    ensures i == t.turnIndex ==> Replaced(turns, t)[i] == t
    ensures t.turnIndex >= |turns| && i == |turns| - 1 ==> Replaced(turns, t)[i] == t
    ensures i != t.turnIndex && (t.turnIndex < |turns| || i < |turns| - 1) ==> Replaced(turns, t)[i] == turns[i]
  {
  }

  function Updated(g: Graph, t: Turn): Graph {
    Graph(Replaced(g.turns, t), RefreshAll(g.records, t.turnIndex, t.AllBlocks()))
  }

  type Index = map<string, set<string>>

  // order lists the session ids from the least to the most recently active.
  datatype State = State(
    maxSessions: nat,
    order: seq<string>,
    sessions: map<string, seq<Turn>>,
    graphs: map<string, Graph>,
    byModel: Index,
    byRule: Index,
    metadata: map<string, string>)

  const DEFAULT_METADATA := "granularity"

  function NewStore(maxSessions: nat): State {
    State(maxSessions, [], map[], map[], map[], map[], map[])
  }

  function Without(order: seq<string>, sid: string): seq<string> {
    if order == [] then []
    else if order[0] == sid then order[1..]
    else [order[0]] + Without(order[1..], sid)
  }

  function Discard(index: Index, sid: string): Index {
    map k | k in index :: index[k] - {sid}
  }

  function Listed(index: Index, key: string): set<string> {
    if key in index then index[key] else {}
  }

  function Enlist(index: Index, key: string, sid: string): Index {
    index[key := Listed(index, key) + {sid}]
  }

  function EnlistAll(index: Index, keys: seq<string>, sid: string): Index {
    if keys == [] then index else Enlist(EnlistAll(index, keys[..|keys| - 1], sid), keys[|keys| - 1], sid)
  }

  function EnlistModel(lower: string -> string, index: Index, model: string, sid: string): Index {
    if model == "" then index else Enlist(index, lower(model), sid)
  }

  function Evict(s: State, sid: string): State {
    s.(order := Without(s.order, sid),
       sessions := s.sessions - {sid},
       graphs := s.graphs - {sid},
       metadata := s.metadata - {sid},
       byModel := Discard(s.byModel, sid),
       byRule := Discard(s.byRule, sid))
  }

  /** A full store gives up its least recently active session. */
  function MakeRoom(s: State): State {
    if |s.order| >= s.maxSessions && s.order != [] then Evict(s, s.order[0]) else s
  }

  /** The session exists, if need be as a new one. */
  function Open(s: State, sid: string): State {
    if sid in s.sessions then s
    else
      var room := MakeRoom(s);
      room.(order := room.order + [sid],
            sessions := room.sessions[sid := []],
            graphs := room.graphs[sid := Graph([], map[])])
  }

  function MovedToEnd(s: State, sid: string): State {
    s.(order := Without(s.order, sid) + [sid])
  }

  function Append(lower: string -> string, s: State, t: Turn, rules: seq<string>): State {
    var sid := t.sessionId;
    Recorded(lower, MovedToEnd(Open(s, sid), sid), t, rules)
  }

  /** The turn joins its open session, the session's graph and the indexes. */
  function Recorded(lower: string -> string, o: State, t: Turn, rules: seq<string>): State {
    var sid := t.sessionId;
    if sid !in o.graphs || sid !in o.sessions then o
    else
      o.(graphs := o.graphs[sid := Added(o.graphs[sid], t)],
         sessions := o.sessions[sid := o.sessions[sid] + [t]],
         byModel := EnlistModel(lower, o.byModel, t.model, sid),
         byRule := EnlistAll(o.byRule, rules, sid))
  }

  function Update(lower: string -> string, s: State, t: Turn, rules: seq<string>): State {
    var sid := t.sessionId;
    if sid !in s.sessions || s.sessions[sid] == [] then s
    else
      s.(sessions := s.sessions[sid := Replaced(s.sessions[sid], t)],
         graphs := if sid in s.graphs then s.graphs[sid := Updated(s.graphs[sid], t)] else s.graphs,
         byModel := EnlistModel(lower, s.byModel, t.model, sid),
         byRule := EnlistAll(s.byRule, rules, sid))
  }

  function Register(s: State, sid: string, metadata: Option<string>): State {
    var o := Open(s, sid);
    MovedToEnd(
      o.(metadata := if metadata.Some? then o.metadata[sid := metadata.value]
                     else if sid !in o.metadata then o.metadata[sid := DEFAULT_METADATA]
                     else o.metadata),
      sid)
  }

  function Delete(s: State, sid: string): State {
    if sid in s.sessions then Evict(s, sid) else s
  }

  datatype Op =
    | AppendTurn(turn: Turn, rules: seq<string>)
    | UpdateTurn(turn: Turn, rules: seq<string>)
    | RegisterSession(sid: string, metadata: Option<string>)
    | DeleteSession(sid: string)
    | Clear

  function Apply(lower: string -> string, s: State, op: Op): State {
    match op
    case AppendTurn(t, rules) => Append(lower, s, t, rules)
    case UpdateTurn(t, rules) => Update(lower, s, t, rules)
    case RegisterSession(sid, metadata) => Register(s, sid, metadata)
    case DeleteSession(sid) => Delete(s, sid)
    case Clear => NewStore(s.maxSessions)
  }

  function Run(lower: string -> string, maxSessions: nat, ops: seq<Op>): State {
    if ops == [] then NewStore(maxSessions) else Apply(lower, Run(lower, maxSessions, ops[..|ops| - 1]), ops[|ops| - 1])
  }

  // ---------- the store invariant ----------

  ghost predicate NamesOnly(index: Index, sids: set<string>) {
    forall k :: k in index ==> index[k] <= sids
  }

  ghost predicate OrderInv(s: State) {
    && 0 < s.maxSessions && |s.order| <= s.maxSessions
    && Distinct(s.order) && (forall sid :: sid in s.order <==> sid in s.sessions)
  }

  ghost predicate GraphInv(s: State) {
    && s.graphs.Keys == s.sessions.Keys
    && (forall sid :: sid in s.sessions ==> s.graphs[sid].turns == s.sessions[sid])
  }

  ghost predicate NamesInv(s: State) {
    && NamesOnly(s.byModel, s.sessions.Keys) && NamesOnly(s.byRule, s.sessions.Keys)
    && s.metadata.Keys <= s.sessions.Keys
  }

  /**
   * Capacity is respected, the activity order and the graphs cover exactly the live sessions, each graph
   * has its session's turns, and indexes and metadata name only live sessions.
   */
  ghost predicate Inv(s: State) {
    OrderInv(s) && GraphInv(s) && NamesInv(s)
  }

  lemma {:induction false} WithoutMeans(order: seq<string>, sid: string)
    requires Distinct(order)
    ensures var r := Without(order, sid);
            && Distinct(r) && (forall x :: x in r <==> x in order && x != sid)
            && |r| == |order| - (if sid in order then 1 else 0)
  {
    if order != [] {
      DistinctTail(order);
      WithoutMeans(order[1..], sid);
      assert order == [order[0]] + order[1..];
      if order[0] != sid {
        DistinctCons(order[0], Without(order[1..], sid));
      }
    }
  }

  lemma DistinctTail(order: seq<string>)
    requires order != [] && Distinct(order)
    ensures Distinct(order[1..]) && order[0] !in order[1..]
  {
    forall i | 0 <= i < |order[1..]| ensures order[1..][i] != order[0] { assert order[0] != order[i + 1]; }
  }

  lemma DistinctCons(x: string, s: seq<string>)
    requires Distinct(s) && x !in s
    ensures Distinct([x] + s)
  {
    var r := [x] + s;
    forall i, j | 0 <= i < j < |r| ensures r[i] != r[j] {
      assert i > 0 ==> r[i] == s[i - 1] && r[j] == s[j - 1];
      assert r[j] in s;
    }
  }

  lemma EvictKeeps(s: State, sid: string)
    requires Inv(s)
    ensures Inv(Evict(s, sid)) && Evict(s, sid).sessions.Keys == s.sessions.Keys - {sid}
    ensures |Evict(s, sid).order| == |s.order| - (if sid in s.sessions then 1 else 0)
  {
    WithoutMeans(s.order, sid);
  }

  lemma MakeRoomKeeps(s: State)
    requires Inv(s)
    ensures Inv(MakeRoom(s)) && |MakeRoom(s).order| < s.maxSessions
    ensures MakeRoom(s).sessions.Keys <= s.sessions.Keys && MakeRoom(s).maxSessions == s.maxSessions
  {
    if s.order != [] {
      assert s.order[0] in s.order;
      EvictKeeps(s, s.order[0]);
    }
  }

  lemma OpenKeeps(s: State, sid: string)
    requires Inv(s)
    ensures Inv(Open(s, sid)) && sid in Open(s, sid).sessions
  {
    if sid !in s.sessions {
      MakeRoomKeeps(s);
      var o := Open(s, sid);
      DistinctSnoc(MakeRoom(s).order, sid);
      assert OrderInv(o);
      assert GraphInv(o);
    }
  }

  lemma MoveKeeps(s: State, sid: string)
    requires Inv(s) && sid in s.sessions
    ensures Inv(MovedToEnd(s, sid))
  {
    WithoutMeans(s.order, sid);
    DistinctSnoc(Without(s.order, sid), sid);
  }

  lemma {:induction false} EnlistAllNames(index: Index, keys: seq<string>, sid: string, sids: set<string>)
    requires NamesOnly(index, sids) && sid in sids
    ensures NamesOnly(EnlistAll(index, keys, sid), sids)
  {
    if keys != [] {
      EnlistAllNames(index, keys[..|keys| - 1], sid, sids);
    }
  }

  lemma RecordedKeeps(lower: string -> string, o: State, t: Turn, rules: seq<string>)
    requires Inv(o) && t.sessionId in o.sessions
    ensures Inv(Recorded(lower, o, t, rules)) && Recorded(lower, o, t, rules).sessions.Keys == o.sessions.Keys
  {
    var s' := Recorded(lower, o, t, rules);
    EnlistAllNames(o.byRule, rules, t.sessionId, o.sessions.Keys);
    assert s'.sessions.Keys == o.sessions.Keys;
    assert OrderInv(s') && GraphInv(s');
  }

  lemma AppendKeeps(lower: string -> string, s: State, t: Turn, rules: seq<string>)
    requires Inv(s)
    ensures Inv(Append(lower, s, t, rules))
    ensures Append(lower, s, t, rules).sessions.Keys == Open(s, t.sessionId).sessions.Keys
  {
    var sid := t.sessionId;
    OpenKeeps(s, sid);
    MoveKeeps(Open(s, sid), sid);
    RecordedKeeps(lower, MovedToEnd(Open(s, sid), sid), t, rules);
  }

  lemma UpdateKeeps(lower: string -> string, s: State, t: Turn, rules: seq<string>)
    requires Inv(s)
    ensures Inv(Update(lower, s, t, rules))
  {
    var sid, s' := t.sessionId, Update(lower, s, t, rules);
    if s' != s {
      EnlistAllNames(s.byRule, rules, sid, s.sessions.Keys);
      assert s'.sessions.Keys == s.sessions.Keys;
      assert OrderInv(s') && GraphInv(s');
    }
  }

  lemma RegisterKeeps(s: State, sid: string, metadata: Option<string>)
    requires Inv(s)
    ensures Inv(Register(s, sid, metadata))
  {
    OpenKeeps(s, sid);
    var o := Open(s, sid);
    var named := o.(metadata := Register(s, sid, metadata).metadata);
    assert OrderInv(named) && GraphInv(named) && NamesInv(named);
    MoveKeeps(named, sid);
  }

  lemma ApplyKeeps(lower: string -> string, s: State, op: Op)
    requires Inv(s)
    ensures Inv(Apply(lower, s, op))
  {
    match op {
      case AppendTurn(t, rules) => AppendKeeps(lower, s, t, rules);
      case UpdateTurn(t, rules) => UpdateKeeps(lower, s, t, rules);
      case RegisterSession(sid, metadata) => RegisterKeeps(s, sid, metadata);
      case DeleteSession(sid) => EvictKeeps(s, sid);
      case Clear =>
    }
  }

  /** The store invariant holds after every run of calls. */
  lemma {:induction false} RunKeeps(lower: string -> string, maxSessions: nat, ops: seq<Op>)
    requires 0 < maxSessions
    ensures Inv(Run(lower, maxSessions, ops))
  {
    if ops != [] {
      RunKeeps(lower, maxSessions, ops[..|ops| - 1]);
      ApplyKeeps(lower, Run(lower, maxSessions, ops[..|ops| - 1]), ops[|ops| - 1]);
    }
  }

  // ---------- eviction takes the least recently active session ----------

  function ActiveSid(op: Op): Option<string> {
    match op
    case AppendTurn(t, _) => Some(t.sessionId)
    case RegisterSession(sid, _) => Some(sid)
    case _ => None
  }

  /** Position of the last call that appended to or registered the session, or -1. */
  function LastActive(ops: seq<Op>, sid: string): (n: int)
    ensures -1 <= n < |ops|
  {
    if ops == [] then -1
    else if ActiveSid(ops[|ops| - 1]) == Some(sid) then |ops| - 1
    else LastActive(ops[..|ops| - 1], sid)
  }

  /** The order lists sessions strictly by their last activity. */
  ghost predicate ByActivity(order: seq<string>, ops: seq<Op>) {
    && (forall i, j :: 0 <= i < j < |order| ==> LastActive(ops, order[i]) < LastActive(ops, order[j]))
  }

  lemma ActivityTail(order: seq<string>, ops: seq<Op>)
    requires order != [] && ByActivity(order, ops)
    ensures ByActivity(order[1..], ops)
    ensures forall x :: x in order[1..] ==> LastActive(ops, order[0]) < LastActive(ops, x)
  {
    var tail := order[1..];
    forall i, j | 0 <= i < j < |tail| ensures LastActive(ops, tail[i]) < LastActive(ops, tail[j]) {
      assert tail[i] == order[i + 1] && tail[j] == order[j + 1];
    }
    forall x | x in tail ensures LastActive(ops, order[0]) < LastActive(ops, x) {
      var i :| 0 <= i < |tail| && tail[i] == x;
      assert order[i + 1] == x;
    }
  }

  lemma ActivityCons(head: string, tail: seq<string>, ops: seq<Op>)
    requires ByActivity(tail, ops) && forall x :: x in tail ==> LastActive(ops, head) < LastActive(ops, x)
    ensures ByActivity([head] + tail, ops)
  {
    hide LastActive;
    var order := [head] + tail;
    forall i, j | 0 <= i < j < |order| ensures LastActive(ops, order[i]) < LastActive(ops, order[j]) {
      assert order[j] == tail[j - 1] && order[j] in tail;
      assert i > 0 ==> order[i] == tail[i - 1];
    }
  }

  lemma {:induction false} WithoutIsSubsequence(order: seq<string>, sid: string, ops: seq<Op>)
    requires ByActivity(order, ops)
    ensures ByActivity(Without(order, sid), ops)
    ensures forall x :: x in Without(order, sid) ==> x in order
  {
    hide ByActivity, LastActive;
    if order != [] {
      ActivityTail(order, ops);
      WithoutIsSubsequence(order[1..], sid, ops);
      if order[0] != sid {
        ActivityCons(order[0], Without(order[1..], sid), ops);
      }
    }
  }

  /** A session that becomes active moves behind all the others; the others keep their places. */
  lemma ActiveGoesLast(order: seq<string>, sid: string, ops: seq<Op>, op: Op)
    requires ByActivity(order, ops) && sid !in order && ActiveSid(op) == Some(sid)
    ensures ByActivity(order + [sid], ops + [op])
  {
    assert (ops + [op])[..|ops|] == ops;
    forall i | 0 <= i < |order| ensures LastActive(ops + [op], order[i]) == LastActive(ops, order[i]) {
      assert order[i] in order;
    }
    assert LastActive(ops + [op], sid) == |ops|;
  }

  lemma PassiveKeepsOrder(order: seq<string>, ops: seq<Op>, op: Op)
    requires ByActivity(order, ops) && ActiveSid(op).None?
    ensures ByActivity(order, ops + [op])
  {
    assert (ops + [op])[..|ops|] == ops;
    forall i | 0 <= i < |order| ensures LastActive(ops + [op], order[i]) == LastActive(ops, order[i]) {}
  }

  lemma OpenAndMove(s: State, sid: string, ops: seq<Op>)
    requires Inv(s) && ByActivity(s.order, ops)
    ensures exists rest :: MovedToEnd(Open(s, sid), sid).order == rest + [sid] && sid !in rest && ByActivity(rest, ops)
  {
    var rest := Without(Open(s, sid).order, sid);
    OpenKeeps(s, sid);
    WithoutMeans(Open(s, sid).order, sid);
    if sid in s.sessions {
      WithoutIsSubsequence(s.order, sid, ops);
    } else {
      MakeRoomKeeps(s);
      if s.order != [] { WithoutIsSubsequence(s.order, s.order[0], ops); }
      var room := MakeRoom(s).order;
      assert sid !in room;
      WithoutLast(room, sid);
    }
    assert MovedToEnd(Open(s, sid), sid).order == rest + [sid];
  }

  lemma {:induction false} WithoutLast(order: seq<string>, sid: string)
    requires sid !in order
    ensures Without(order + [sid], sid) == order
  {
    if order != [] {
      WithoutLast(order[1..], sid);
      assert (order + [sid])[1..] == order[1..] + [sid] && order == [order[0]] + order[1..];
    }
  }

  /** After every run the store's order is the order of last activity. */
  lemma {:induction false} OrderIsActivity(lower: string -> string, maxSessions: nat, ops: seq<Op>)
    requires 0 < maxSessions
    ensures ByActivity(Run(lower, maxSessions, ops).order, ops)
  {
    if ops != [] {
      var init, op := ops[..|ops| - 1], ops[|ops| - 1];
      var s := Run(lower, maxSessions, init);
      RunKeeps(lower, maxSessions, init);
      OrderIsActivity(lower, maxSessions, init);
      assert ops == init + [op];
      match ActiveSid(op) {
        case Some(sid) =>
          OpenAndMove(s, sid, init);
          var rest :| MovedToEnd(Open(s, sid), sid).order == rest + [sid] && sid !in rest && ByActivity(rest, init);
          ActiveGoesLast(rest, sid, init, op);
        case None =>
          if op.DeleteSession? { WithoutIsSubsequence(s.order, op.sid, init); }
          PassiveKeepsOrder(Apply(lower, s, op).order, init, op);
      }
    }
  }

  /** Opening a new session in a full store gives up exactly one session: the one least recently active. */
  lemma EvictsLeastRecentlyActive(lower: string -> string, maxSessions: nat, ops: seq<Op>, op: Op)
    requires 0 < maxSessions && ActiveSid(op).Some?
    requires ActiveSid(op).value !in Run(lower, maxSessions, ops).sessions
    requires |Run(lower, maxSessions, ops).order| == maxSessions
    ensures var s, s' := Run(lower, maxSessions, ops), Run(lower, maxSessions, ops + [op]);
            var victim := s.order[0];
            && victim in s.sessions && s'.sessions.Keys == s.sessions.Keys - {victim} + {ActiveSid(op).value}
            && forall sid :: sid in s.sessions && sid != victim ==> LastActive(ops, victim) < LastActive(ops, sid)
  {
    hide Open, Recorded;
    var s := Run(lower, maxSessions, ops);
    RunKeeps(lower, maxSessions, ops);
    RunMaxSessions(lower, maxSessions, ops);
    OrderIsActivity(lower, maxSessions, ops);
    assert (ops + [op])[..|ops|] == ops;
    assert s.order[0] in s.order;
    OpenTakesPlace(s, ActiveSid(op).value);
    if op.AppendTurn? { AppendKeeps(lower, s, op.turn, op.rules); }
    forall sid | sid in s.sessions && sid != s.order[0] ensures LastActive(ops, s.order[0]) < LastActive(ops, sid) {
      assert sid in s.order;
      var i :| 0 <= i < |s.order| && s.order[i] == sid;
    }
  }

  lemma OpenTakesPlace(s: State, sid: string)
    requires Inv(s) && sid !in s.sessions && |s.order| == s.maxSessions
    ensures Open(s, sid).sessions.Keys == s.sessions.Keys - {s.order[0]} + {sid}
  {
  }

  lemma {:induction false} RunMaxSessions(lower: string -> string, maxSessions: nat, ops: seq<Op>)
    ensures Run(lower, maxSessions, ops).maxSessions == maxSessions
  {
    if ops != [] {
      RunMaxSessions(lower, maxSessions, ops[..|ops| - 1]);
    }
  }

  // ---------- the model index ----------

  /** Some live turn of the session has a model that lower-cases to m. */
  ghost predicate UsesModel(lower: string -> string, turns: seq<Turn>, m: string) {
    exists t :: t in turns && t.model != "" && lower(t.model) == m
  }

  ghost predicate ListsModels(lower: string -> string, s: State, m: string, sid: string) {
    sid in Listed(s.byModel, m) <==> sid in s.sessions && UsesModel(lower, s.sessions[sid], m)
  }

  /** A session is listed under m exactly when one of its live turns has that model. */
  ghost predicate IndexExact(lower: string -> string, s: State) {
    forall m, sid :: ListsModels(lower, s, m, sid)
  }

  lemma EvictExact(lower: string -> string, s: State, victim: string)
    requires IndexExact(lower, s)
    ensures IndexExact(lower, Evict(s, victim))
  {
    forall m, sid ensures ListsModels(lower, Evict(s, victim), m, sid) {
      assert ListsModels(lower, s, m, sid);
    }
  }

  lemma OpenExact(lower: string -> string, s: State, sid: string)
    requires IndexExact(lower, s)
    ensures IndexExact(lower, Open(s, sid))
  {
    if sid !in s.sessions {
      if s.order != [] { EvictExact(lower, s, s.order[0]); }
      forall m, x ensures ListsModels(lower, Open(s, sid), m, x) {
        assert ListsModels(lower, MakeRoom(s), m, x);
        assert ListsModels(lower, s, m, x);
      }
    }
  }

  lemma AppendExact(lower: string -> string, s: State, t: Turn, rules: seq<string>)
    requires Inv(s) && IndexExact(lower, s)
    ensures IndexExact(lower, Append(lower, s, t, rules))
  {
    hide Open, EnlistAll, UsesModel, Without;
    var sid := t.sessionId;
    OpenExact(lower, s, sid);
    OpenKeeps(s, sid);
    var o, s' := MovedToEnd(Open(s, sid), sid), Append(lower, s, t, rules);
    forall m, x ensures ListsModels(lower, s', m, x) {
      assert ListsModels(lower, Open(s, sid), m, x);
      if x == sid {
        UsesModelSnoc(lower, o.sessions[sid], t, m);
      }
    }
  }

  lemma UsesModelSnoc(lower: string -> string, turns: seq<Turn>, t: Turn, m: string)
    ensures UsesModel(lower, turns + [t], m) <==> UsesModel(lower, turns, m) || (t.model != "" && lower(t.model) == m)
  {
    assert t in turns + [t];
    if UsesModel(lower, turns, m) {
      var u :| u in turns && u.model != "" && lower(u.model) == m;
      assert u in turns + [t];
    }
  }

  /** In runs without turn updates the model index is the recomputation, across evictions and re-creations. */
  lemma {:induction false} IndexIsRecomputation(lower: string -> string, maxSessions: nat, ops: seq<Op>)
    requires 0 < maxSessions && forall op :: op in ops ==> !op.UpdateTurn?
    ensures IndexExact(lower, Run(lower, maxSessions, ops))
  {
    if ops == [] {
      forall m, sid ensures ListsModels(lower, NewStore(maxSessions), m, sid) {}
    } else {
      var init, op := ops[..|ops| - 1], ops[|ops| - 1];
      assert op in ops;
      RunKeeps(lower, maxSessions, init);
      IndexIsRecomputation(lower, maxSessions, init);
      var s := Run(lower, maxSessions, init);
      match op {
        case AppendTurn(t, rules) => AppendExact(lower, s, t, rules);
        case RegisterSession(sid, metadata) =>
          OpenExact(lower, s, sid);
          forall m, x ensures ListsModels(lower, Register(s, sid, metadata), m, x) {
            assert ListsModels(lower, Open(s, sid), m, x);
          }
        case DeleteSession(sid) => EvictExact(lower, s, sid);
        case Clear =>
          forall m, sid ensures ListsModels(lower, NewStore(s.maxSessions), m, sid) {}
      }
    }
  }

  /** The turn that an update puts aside. */
  function PutAside(turns: seq<Turn>, t: Turn): Turn
    requires turns != []
  {
    if t.turnIndex < |turns| then turns[t.turnIndex] else turns[|turns| - 1]
  }

  /** An update leaves the index exact just when the model put aside is still carried by some turn of the session. */
  lemma UpdateExactIff(lower: string -> string, s: State, t: Turn, rules: seq<string>)
    requires Inv(s) && IndexExact(lower, s)
    requires t.sessionId in s.sessions && s.sessions[t.sessionId] != []
    ensures var turns := s.sessions[t.sessionId];
            var old_ := PutAside(turns, t);
            IndexExact(lower, Update(lower, s, t, rules))
            <==> (old_.model != "" ==> UsesModel(lower, Replaced(turns, t), lower(old_.model)))
  {
    var sid, s' := t.sessionId, Update(lower, s, t, rules);
    var turns := s.sessions[sid];
    var old_, turns' := PutAside(turns, t), Replaced(turns, t);
    assert old_ in turns;
    if old_.model != "" && !UsesModel(lower, turns', lower(old_.model)) {
      assert ListsModels(lower, s, lower(old_.model), sid);
      assert UsesModel(lower, turns, lower(old_.model));
      assert !ListsModels(lower, s', lower(old_.model), sid);
    } else {
      forall m, x ensures ListsModels(lower, s', m, x) {
        assert ListsModels(lower, s, m, x);
        if x == sid {
          ReplacedModels(lower, turns, t, m);
        }
      }
    }
  }

  lemma ReplacedModels(lower: string -> string, turns: seq<Turn>, t: Turn, m: string)
    requires turns != []
    ensures UsesModel(lower, Replaced(turns, t), m) ==>
              UsesModel(lower, turns, m) || (t.model != "" && lower(t.model) == m)
    ensures t.model != "" && lower(t.model) == m ==> UsesModel(lower, Replaced(turns, t), m)
    ensures UsesModel(lower, turns, m) ==>
              || UsesModel(lower, Replaced(turns, t), m)
              || (PutAside(turns, t).model != "" && lower(PutAside(turns, t).model) == m)
  {
    var i := if t.turnIndex < |turns| then t.turnIndex else |turns| - 1;
    var turns' := Replaced(turns, t);
    assert turns'[i] == t && t in turns';
    if UsesModel(lower, turns, m) {
      var u :| u in turns && u.model != "" && lower(u.model) == m;
      var k :| 0 <= k < |turns| && turns[k] == u;
      assert k != i ==> turns'[k] == u;
    }
  }

  /** An update that replaces the only turn of a model leaves the session listed under it. */
  lemma UpdateLeavesStaleModel(lower: string -> string, maxSessions: nat, t: Turn, u: Turn)
    requires 0 < maxSessions && t.sessionId == u.sessionId && t.model != "" && u.model != ""
    requires lower(t.model) != lower(u.model)
    ensures var before := Run(lower, maxSessions, [AppendTurn(t, [])]);
            var after := Apply(lower, before, UpdateTurn(u, []));
            && IndexExact(lower, before) && !IndexExact(lower, after)
            && t.sessionId in Listed(after.byModel, lower(t.model))
            && after.sessions[t.sessionId] == [u]
  {
    hide Append, Open, Run, Inv;
    var ops := [AppendTurn(t, [])];
    RunKeeps(lower, maxSessions, ops);
    IndexIsRecomputation(lower, maxSessions, ops);
    FirstTurn(lower, maxSessions, t);
    var s := Run(lower, maxSessions, ops);
    UpdateExactIff(lower, s, u, []);
    assert Replaced([t], u) == [u];
    assert !UsesModel(lower, [u], lower(t.model));
    assert t in s.sessions[t.sessionId];
    assert ListsModels(lower, s, lower(t.model), t.sessionId);
  }

  lemma FirstTurn(lower: string -> string, maxSessions: nat, t: Turn)
    requires 0 < maxSessions
    ensures var s := Run(lower, maxSessions, [AppendTurn(t, [])]);
            t.sessionId in s.sessions && s.sessions[t.sessionId] == [t]
  {
    var ops := [AppendTurn(t, [])];
    assert ops[..|ops| - 1] == [];
    assert Run(lower, maxSessions, []) == NewStore(maxSessions);
    assert [] + [t] == [t];
  }

  // ---------- the model index in any run ----------

  /** A session is listed under every model its live turns have. */
  ghost predicate IndexCovers(lower: string -> string, s: State) {
    forall m, sid :: Covers(lower, s, m, sid)
  }

  ghost predicate Covers(lower: string -> string, s: State, m: string, sid: string) {
    sid in s.sessions && UsesModel(lower, s.sessions[sid], m) ==> sid in Listed(s.byModel, m)
  }

  lemma EvictCovers(lower: string -> string, s: State, victim: string)
    requires IndexCovers(lower, s)
    ensures IndexCovers(lower, Evict(s, victim))
  {
    forall m, sid ensures Covers(lower, Evict(s, victim), m, sid) { assert Covers(lower, s, m, sid); }
  }

  lemma OpenCovers(lower: string -> string, s: State, sid: string)
    requires IndexCovers(lower, s)
    ensures IndexCovers(lower, Open(s, sid))
  {
    if sid !in s.sessions {
      if s.order != [] { EvictCovers(lower, s, s.order[0]); }
      forall m, x ensures Covers(lower, Open(s, sid), m, x) { assert Covers(lower, MakeRoom(s), m, x); }
    }
  }

  lemma AppendCovers(lower: string -> string, s: State, t: Turn, rules: seq<string>)
    requires Inv(s) && IndexCovers(lower, s)
    ensures IndexCovers(lower, Append(lower, s, t, rules))
  {
    var sid := t.sessionId;
    OpenCovers(lower, s, sid);
    OpenKeeps(s, sid);
    var o, s' := MovedToEnd(Open(s, sid), sid), Append(lower, s, t, rules);
    forall m, x ensures Covers(lower, s', m, x) {
      assert Covers(lower, Open(s, sid), m, x);
      if x == sid {
        UsesModelSnoc(lower, o.sessions[sid], t, m);
      }
    }
  }

  lemma UpdateCovers(lower: string -> string, s: State, t: Turn, rules: seq<string>)
    requires Inv(s) && IndexCovers(lower, s)
    ensures IndexCovers(lower, Update(lower, s, t, rules))
  {
    var sid, s' := t.sessionId, Update(lower, s, t, rules);
    forall m, x ensures Covers(lower, s', m, x) {
      assert Covers(lower, s, m, x);
      if x == sid && x in s.sessions && s.sessions[sid] != [] {
        ReplacedModels(lower, s.sessions[sid], t, m);
      }
    }
  }

  /** In every run, updates included, a session is listed under each model that one of its live turns has. */
  lemma {:induction false} IndexAlwaysCovers(lower: string -> string, maxSessions: nat, ops: seq<Op>)
    requires 0 < maxSessions
    ensures IndexCovers(lower, Run(lower, maxSessions, ops))
  {
    if ops != [] {
      var init, op := ops[..|ops| - 1], ops[|ops| - 1];
      RunKeeps(lower, maxSessions, init);
      IndexAlwaysCovers(lower, maxSessions, init);
      var s := Run(lower, maxSessions, init);
      match op {
        case AppendTurn(t, rules) => AppendCovers(lower, s, t, rules);
        case UpdateTurn(t, rules) => UpdateCovers(lower, s, t, rules);
        case RegisterSession(sid, metadata) =>
          OpenCovers(lower, s, sid);
          forall m, x ensures Covers(lower, Register(s, sid, metadata), m, x) {
            assert Covers(lower, Open(s, sid), m, x);
          }
        case DeleteSession(sid) => EvictCovers(lower, s, sid);
        case Clear =>
      }
    }
  }

  // ---------- lineage of live sessions in step mode ----------

  /** The bridge in step mode gives a turn the number of turns its session has. */
  function Numbered(s: State, op: Op): Op {
    if op.AppendTurn? then
      var sid := op.turn.sessionId;
      AppendTurn(op.turn.(turnIndex := if sid in s.sessions then |s.sessions[sid]| else 0), op.rules)
    else op
  }

  function StepRun(lower: string -> string, maxSessions: nat, ops: seq<Op>): State {
    if ops == [] then NewStore(maxSessions)
    else
      var s := StepRun(lower, maxSessions, ops[..|ops| - 1]);
      Apply(lower, s, Numbered(s, ops[|ops| - 1]))
  }

  /** The session's turns are numbered by position and its records replay them. */
  ghost predicate Replays(s: State, sid: string) {
    sid in s.sessions ==>
      && sid in s.graphs && s.graphs[sid].records == Replay(Histories(s.sessions[sid]))
      && forall i :: 0 <= i < |s.sessions[sid]| ==> s.sessions[sid][i].turnIndex == i
  }

  lemma ReplayUnfold(h: History, bs: seq<Block>)
    ensures Replay(h + [bs]) == VisitAll(Replay(h), |h|, bs)
  {
    assert (h + [bs])[..|h|] == h;
  }

  lemma ReplaySnoc(turns: seq<Turn>, t: Turn)
    ensures Replay(Histories(turns + [t])) == VisitAll(Replay(Histories(turns)), |turns|, t.AllBlocks())
  {
    HistoriesSnoc(turns, t);
    ReplayUnfold(Histories(turns), t.AllBlocks());
  }

  lemma HistoriesSnoc(turns: seq<Turn>, t: Turn)
    ensures Histories(turns + [t]) == Histories(turns) + [t.AllBlocks()]
  {
  }

  ghost predicate AllReplay(s: State) {
    forall sid :: Replays(s, sid)
  }

  lemma EvictReplays(s: State, victim: string)
    requires AllReplay(s)
    ensures AllReplay(Evict(s, victim))
  {
    forall sid ensures Replays(Evict(s, victim), sid) { assert Replays(s, sid); }
  }

  lemma OpenReplays(s: State, sid: string)
    requires AllReplay(s)
    ensures AllReplay(Open(s, sid))
  {
    if sid !in s.sessions {
      if s.order != [] { EvictReplays(s, s.order[0]); }
      assert Histories([]) == [] && Replay([]) == map[];
      forall x ensures Replays(Open(s, sid), x) { assert Replays(MakeRoom(s), x); }
    }
  }

  lemma RecordedReplays(lower: string -> string, o: State, t: Turn, rules: seq<string>)
    requires AllReplay(o) && GraphInv(o) && t.sessionId in o.sessions && t.turnIndex == |o.sessions[t.sessionId]|
    ensures AllReplay(Recorded(lower, o, t, rules))
  {
    ReplaySnoc(o.sessions[t.sessionId], t);
    forall sid ensures Replays(Recorded(lower, o, t, rules), sid) { assert Replays(o, sid); }
  }

  /** Moving a session in the order and changing metadata leave turns and graphs alone. */
  lemma SameSessionsReplay(s: State, s': State)
    requires AllReplay(s) && s'.sessions == s.sessions && s'.graphs == s.graphs
    ensures AllReplay(s')
  {
    forall sid ensures Replays(s', sid) { assert Replays(s, sid); }
  }

  lemma StepReplays(lower: string -> string, s: State, op: Op)
    requires Inv(s) && AllReplay(s) && !op.UpdateTurn?
    ensures AllReplay(Apply(lower, s, Numbered(s, op)))
  {
    match Numbered(s, op) {
      case AppendTurn(t, rules) =>
        OpenKeeps(s, t.sessionId);
        OpenReplays(s, t.sessionId);
        var o := MovedToEnd(Open(s, t.sessionId), t.sessionId);
        SameSessionsReplay(Open(s, t.sessionId), o);
        RecordedReplays(lower, o, t, rules);
      case RegisterSession(sid, metadata) =>
        OpenReplays(s, sid);
        SameSessionsReplay(Open(s, sid), Register(s, sid, metadata));
      case DeleteSession(sid) =>
        EvictReplays(s, sid);
      case Clear =>
        forall sid ensures Replays(NewStore(s.maxSessions), sid) {}
    }
  }

  /**
   * In step mode, whatever sessions come, go, are evicted and come back, the lineage records of every
   * live session are the recount of its own turns.
   */
  lemma {:induction false} LiveSessionsAreRecounted(lower: string -> string, maxSessions: nat, ops: seq<Op>)
    requires 0 < maxSessions && forall op :: op in ops ==> !op.UpdateTurn?
    ensures var s := StepRun(lower, maxSessions, ops);
            && Inv(s) && AllReplay(s)
            && forall sid :: sid in s.sessions ==> Agrees(s.graphs[sid].records, Histories(s.sessions[sid]))
  {
    var s := StepRun(lower, maxSessions, ops);
    if ops == [] {
      forall sid ensures Replays(s, sid) {}
    } else {
      var init, op := ops[..|ops| - 1], ops[|ops| - 1];
      assert op in ops;
      LiveSessionsAreRecounted(lower, maxSessions, init);
      var before := StepRun(lower, maxSessions, init);
      ApplyKeeps(lower, before, Numbered(before, op));
      StepReplays(lower, before, op);
    }
    forall sid | sid in s.sessions ensures Agrees(s.graphs[sid].records, Histories(s.sessions[sid])) {
      assert Replays(s, sid);
      ReplayAgrees(Histories(s.sessions[sid]));
    }
  }
}

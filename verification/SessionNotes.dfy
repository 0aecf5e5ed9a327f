/**
 * What the store keeps beside a session's turns: under which rules it is listed, and its metadata
 * (src/core/store/session_store.py).
 */
module SessionNotes {
  import opened Collections
  import opened Blocks
  import opened Store

  // ---------- listings ----------

  lemma {:induction false} ListedAfterEnlistAll(index: Index, keys: seq<string>, sid: string, x: string, key: string)
    ensures x in Listed(EnlistAll(index, keys, sid), key) <==> x in Listed(index, key) || (x == sid && key in keys)
  {
    if keys != [] {
      ListedAfterEnlistAll(index, keys[..|keys| - 1], sid, x, key);
      assert keys == keys[..|keys| - 1] + [keys[|keys| - 1]];
    }
  }

  lemma ListedAfterDiscard(index: Index, sid: string, x: string, key: string)
    ensures x in Listed(Discard(index, sid), key) <==> x in Listed(index, key) && x != sid
  {
  }

  /** Opening a session changes no listing of a session that stays live, and a new one is listed nowhere. */
  lemma ListedAfterOpen(s: State, sid: string, x: string, key: string)
    requires Inv(s)
    ensures x in Listed(Open(s, sid).byRule, key) <==> x in Listed(s.byRule, key) && x in Open(s, sid).sessions
  {
    if sid !in s.sessions && s.order != [] {
      ListedAfterDiscard(s.byRule, s.order[0], x, key);
    }
    OnlyLiveListed(s, x, key);
  }

  lemma OnlyLiveListed(s: State, x: string, key: string)
    requires Inv(s)
    ensures x in Listed(s.byRule, key) ==> x in s.sessions
  {
  }

  // ---------- rules ----------

  /** The rules that a call records a session under. */
  function RulesOf(s: State, op: Op, sid: string): seq<string> {
    match op
    case AppendTurn(t, rules) => if t.sessionId == sid then rules else []
    case UpdateTurn(t, rules) => if t.sessionId == sid && sid in s.sessions && s.sessions[sid] != [] then rules else []
    case _ => []
  }

  /** The rules that a session has been recorded under since it was last created. */
  function RulesSince(lower: string -> string, maxSessions: nat, ops: seq<Op>, sid: string): set<string> {
    if ops == [] || sid !in Run(lower, maxSessions, ops).sessions then {}
    else
      var init := ops[..|ops| - 1];
      RulesSince(lower, maxSessions, init, sid) + Elements(RulesOf(Run(lower, maxSessions, init), ops[|ops| - 1], sid))
  }

  lemma AppendLists(lower: string -> string, s: State, t: Turn, rules: seq<string>, sid: string, rule: string)
    requires Inv(s)
    ensures var s' := Append(lower, s, t, rules);
            sid in Listed(s'.byRule, rule)
            <==> sid in s'.sessions && (sid in Listed(s.byRule, rule) || (sid == t.sessionId && rule in rules))
  {
    hide EnlistAll, EnlistModel, Inv, Open, Without;
    var o := Open(s, t.sessionId);
    OpenKeeps(s, t.sessionId);
    GraphsAreSessions(o);
    ListedAfterOpen(s, t.sessionId, sid, rule);
    ListedAfterEnlistAll(o.byRule, rules, t.sessionId, sid, rule);
  }

  lemma GraphsAreSessions(s: State)
    requires Inv(s)
    ensures s.graphs.Keys == s.sessions.Keys
  {
  }

  lemma UpdateLists(lower: string -> string, s: State, t: Turn, rules: seq<string>, sid: string, rule: string)
    requires Inv(s)
    ensures sid in Listed(Update(lower, s, t, rules).byRule, rule)
       <==> sid in Listed(s.byRule, rule) || rule in RulesOf(s, UpdateTurn(t, rules), sid)
    ensures Update(lower, s, t, rules).sessions.Keys == s.sessions.Keys
  {
    hide EnlistAll, EnlistModel, Inv;
    ListedAfterEnlistAll(s.byRule, rules, t.sessionId, sid, rule);
  }

  lemma CallLists(lower: string -> string, s: State, op: Op, sid: string, rule: string)
    requires Inv(s)
    ensures var s' := Apply(lower, s, op);
            sid in Listed(s'.byRule, rule)
            <==> sid in s'.sessions && (sid in Listed(s.byRule, rule) || rule in RulesOf(s, op, sid))
  {
    hide Append, Update, Open;
    OnlyLiveListed(s, sid, rule);
    match op {
      case AppendTurn(t, rules) => AppendLists(lower, s, t, rules, sid, rule);
      case UpdateTurn(t, rules) => UpdateLists(lower, s, t, rules, sid, rule);
      case RegisterSession(x, metadata) => ListedAfterOpen(s, x, sid, rule);
      case DeleteSession(x) => ListedAfterDiscard(s.byRule, x, sid, rule);
      case Clear =>
    }
  }

  /**
   * In every run a session is listed under a rule exactly when it is live and a turn of it has been recorded under the
   * rule since the session was last created, across evictions and re-creation.
   */
  lemma {:induction false} RuleIndexIsRecomputation(lower: string -> string, maxSessions: nat, ops: seq<Op>, sid: string, rule: string)
    requires 0 < maxSessions
    ensures sid in Listed(Run(lower, maxSessions, ops).byRule, rule) <==> rule in RulesSince(lower, maxSessions, ops, sid)
  {
    hide Apply, Listed;
    if ops == [] {
      NothingListed(maxSessions, sid, rule);
    } else {
      var init, op := ops[..|ops| - 1], ops[|ops| - 1];
      RuleIndexIsRecomputation(lower, maxSessions, init, sid, rule);
      RunKeeps(lower, maxSessions, init);
      CallLists(lower, Run(lower, maxSessions, init), op, sid, rule);
    }
  }

  lemma NothingListed(maxSessions: nat, sid: string, rule: string)
    ensures sid !in Listed(NewStore(maxSessions).byRule, rule)
  {
  }

  // ---------- metadata ----------

  function NoteOf(s: State, sid: string): Option<string> {
    if sid in s.metadata then Some(s.metadata[sid]) else None
  }

  /** The metadata last given to a session since it was last created; registering without any gives the default once. */
  function NoteSince(lower: string -> string, maxSessions: nat, ops: seq<Op>, sid: string): Option<string> {
    if ops == [] || sid !in Run(lower, maxSessions, ops).sessions then None
    else
      var before, op := NoteSince(lower, maxSessions, ops[..|ops| - 1], sid), ops[|ops| - 1];
      if !op.RegisterSession? || op.sid != sid then before
      else if op.metadata.Some? then op.metadata
      else if before.Some? then before
      else Some(DEFAULT_METADATA)
  }

  lemma NoteAfterOpen(s: State, sid: string, x: string)
    requires Inv(s)
    ensures NoteOf(Open(s, sid), x) == if x in Open(s, sid).sessions then NoteOf(s, x) else None
  {
  }

  lemma CallNotes(lower: string -> string, s: State, op: Op, sid: string)
    requires Inv(s)
    ensures var s' := Apply(lower, s, op);
            NoteOf(s', sid)
            == if sid !in s'.sessions then None
               else if !op.RegisterSession? || op.sid != sid then NoteOf(s, sid)
               else if op.metadata.Some? then op.metadata
               else if NoteOf(s, sid).Some? then NoteOf(s, sid)
               else Some(DEFAULT_METADATA)
  {
    hide EnlistAll, EnlistModel, Open, Discard, Without, Added, Updated;
    match op {
      case AppendTurn(t, rules) =>
        OpenKeeps(s, t.sessionId);
        NoteAfterOpen(s, t.sessionId, sid);
      case UpdateTurn(t, rules) =>
      case RegisterSession(x, metadata) =>
        OpenKeeps(s, x);
        NoteAfterOpen(s, x, sid);
      case DeleteSession(x) =>
      case Clear =>
    }
  }

  /** In every run a live session has the metadata last given to it since it was created, and no other session has any. */
  lemma {:induction false} MetadataIsLastGiven(lower: string -> string, maxSessions: nat, ops: seq<Op>, sid: string)
    requires 0 < maxSessions
    ensures NoteOf(Run(lower, maxSessions, ops), sid) == NoteSince(lower, maxSessions, ops, sid)
  {
    hide Apply;
    if ops != [] {
      var init := ops[..|ops| - 1];
      MetadataIsLastGiven(lower, maxSessions, init, sid);
      RunKeeps(lower, maxSessions, init);
      CallNotes(lower, Run(lower, maxSessions, init), ops[|ops| - 1], sid);
    }
  }
}

/** Accounting of recurring tool results in one turn (src/core/analyzer/heuristics/ctx004_recurring_results.py). */
module Recurring {
  import opened Collections
  import opened Blocks

  // The turn under analysis: its tool results with the survival count each carries, the results of each
  // previous turn, the thresholds, its token counts, and the similarity test, which can be any relation.
  datatype Case = Case(
    results: seq<Block>,
    survived: seq<nat>,
    previous: seq<seq<Block>>,
    minTokens: int,
    threshold: int,
    tokenThreshold: int,
    ratioThreshold: real,
    inputTokens: int,
    totalTokens: int,
    matches: (Block, Block) -> bool)
  {
    predicate Valid() {
      |survived| == |results|
    }
  }

  // What the loop has gathered: positions reported so far, in order, with their tokens.
  datatype Account = Account(positions: seq<int>, tokens: int, maxOccurrences: int)

  predicate InRange(c: Case, positions: seq<int>) {
    forall i | 0 <= i < |positions| :: 0 <= positions[i] < |c.results|
  }

  function IdsAtPositions(c: Case, positions: seq<int>): seq<string> {
    if positions == [] then []
    else
      var p := positions[|positions| - 1];
      IdsAtPositions(c, positions[..|positions| - 1]) + (if 0 <= p < |c.results| then [c.results[p].blockId] else [])
  }

  function TurnsWithMatch(c: Case, b: Block, turns: seq<seq<Block>>): nat {
    if turns == [] then 0
    else
      TurnsWithMatch(c, b, turns[..|turns| - 1])
      + (if exists r :: r in turns[|turns| - 1] && c.matches(b, r) then 1 else 0)
  }

  /** The unreported other results up to position n that match result i. */
  function Duplicates(c: Case, i: nat, ids: seq<string>, n: nat): (r: seq<int>)
    requires i < |c.results| && n <= |c.results|
    ensures forall k :: 0 <= k < |r| ==> 0 <= r[k] < n
  {
    if n == 0 then []
    else
      Duplicates(c, i, ids, n - 1)
      + (if n - 1 != i && c.results[n - 1].blockId !in ids && c.matches(c.results[i], c.results[n - 1]) then [n - 1] else [])
  }

  function Occurrences(c: Case, i: nat, ids: seq<string>): int
    requires c.Valid() && i < |c.results|
  {
    var seen := 1 + TurnsWithMatch(c, c.results[i], c.previous);
    var carried := if c.survived[i] > 0 && c.survived[i] + 1 > seen then c.survived[i] + 1 else seen;
    carried + |Duplicates(c, i, ids, |c.results|)|
  }

  function TokensAt(c: Case, positions: seq<int>): nat {
    if positions == [] then 0
    else
      var p := positions[|positions| - 1];
      TokensAt(c, positions[..|positions| - 1]) + (if 0 <= p < |c.results| then c.results[p].tokenCount else 0)
  }

  /** One result of the turn: it and its duplicates are reported when it recurs often enough. */
  function Visit(c: Case, acc: Account, i: nat): Account
    requires c.Valid() && i < |c.results|
  {
    var ids, b := IdsAtPositions(c, acc.positions), c.results[i];
    if b.tokenCount < c.minTokens || b.blockId in ids || Occurrences(c, i, ids) < c.threshold then acc
    else WithFound(c, acc, [i as int] + Duplicates(c, i, ids, |c.results|), Occurrences(c, i, ids))
  }

  function WithFound(c: Case, acc: Account, found: seq<int>, occurrences: int): Account {
    Account(acc.positions + found, acc.tokens + TokensAt(c, found),
            if occurrences > acc.maxOccurrences then occurrences else acc.maxOccurrences)
  }

  function VisitAll(c: Case, n: nat): Account
    requires c.Valid() && n <= |c.results|
  {
    if n == 0 then Account([], 0, 1) else Visit(c, VisitAll(c, n - 1), n - 1)
  }

  // ---------- the loops ----------

  method CountTurns(c: Case, b: Block) returns (count: nat)
    ensures count == TurnsWithMatch(c, b, c.previous)
  {
    count := 0;
    for i := 0 to |c.previous|
      invariant count == TurnsWithMatch(c, b, c.previous[..i])
    {
      assert c.previous[..i + 1][..i] == c.previous[..i];
      if exists r | r in c.previous[i] :: c.matches(b, r) {
        count := count + 1;
      }
    }
    assert c.previous[..|c.previous|] == c.previous;
  }

  method FindDuplicates(c: Case, i: nat, evaluated: set<string>, ghost ids: seq<string>) returns (duplicates: seq<int>)
    requires i < |c.results| && forall id :: id in evaluated <==> id in ids
    ensures duplicates == Duplicates(c, i, ids, |c.results|)
  {
    duplicates := [];
    for j := 0 to |c.results|
      invariant duplicates == Duplicates(c, i, ids, j)
    {
      if j != i && c.results[j].blockId !in evaluated && c.matches(c.results[i], c.results[j]) {
        duplicates := duplicates + [j];
      }
    }
  }

  method Gather(c: Case) returns (ids: seq<string>, tokens: int, maxOccurrences: int)
    requires c.Valid()
    ensures ids == IdsAtPositions(c, VisitAll(c, |c.results|).positions)
    ensures tokens == VisitAll(c, |c.results|).tokens
    ensures maxOccurrences == VisitAll(c, |c.results|).maxOccurrences
  {
    ids, tokens, maxOccurrences := [], 0, 1;
    ghost var positions: seq<int> := [];
    var evaluated: set<string> := {};
    for i := 0 to |c.results|
      invariant Account(positions, tokens, maxOccurrences) == VisitAll(c, i)
      invariant ids == IdsAtPositions(c, positions)
      invariant forall id :: id in evaluated <==> id in ids
    {
      var b := c.results[i];
      if b.tokenCount < c.minTokens || b.blockId in evaluated {
        continue;
      }
      var turns := CountTurns(c, b);
      var occurrences := 1 + turns;
      if c.survived[i] > 0 && c.survived[i] + 1 > occurrences {
        occurrences := c.survived[i] + 1;
      }
      var duplicates := FindDuplicates(c, i, evaluated, ids);
      occurrences := occurrences + |duplicates|;
      if occurrences >= c.threshold {
        var found := [i as int] + duplicates;
        ids, evaluated, tokens, positions := AddFound(c, found, ids, evaluated, tokens, positions);
        if occurrences > maxOccurrences {
          maxOccurrences := occurrences;
        }
      }
    }
  }

  // What the rule raises: the ids, the tokens they take and how often the most frequent one occurs.
  datatype Report = Report(ids: seq<string>, tokens: int, maxOccurrences: int)

  /** The input tokens the recurring ones are compared with; never zero. */
  function InputTokens(c: Case): (n: int)
    ensures n != 0
  {
    if c.inputTokens > 0 then c.inputTokens else if c.totalTokens != 0 then c.totalTokens else 1
  }

  /** The recurring tokens pass the absolute threshold, or that on their share of the input. */
  predicate Exceeds(c: Case, tokens: int) {
    tokens >= c.tokenThreshold || tokens as real / InputTokens(c) as real >= c.ratioThreshold
  }

  method Analyze(c: Case) returns (report: Option<Report>)
    requires c.Valid()
    ensures var acc := VisitAll(c, |c.results|);
            report == if acc.positions != [] && Exceeds(c, acc.tokens)
                      then Some(Report(IdsAtPositions(c, acc.positions), acc.tokens, acc.maxOccurrences))
                      else None
  {
    var ids, tokens, maxOccurrences := Gather(c);
    VisitAllBalanced(c, |c.results|);
    IdsAtMeans(c, VisitAll(c, |c.results|).positions);
    if ids == [] {
      return None;
    }
    var ratio := tokens as real / InputTokens(c) as real;
    if !(tokens >= c.tokenThreshold || ratio >= c.ratioThreshold) {
      return None;
    }
    return Some(Report(ids, tokens, maxOccurrences));
  }

  lemma OneMoreFound(c: Case, found: seq<int>, k: nat, positions: seq<int>)
    requires InRange(c, found) && k < |found|
    ensures var b, so := c.results[found[k]], positions + found[..k];
            && positions + found[..k + 1] == so + [found[k]]
            && IdsAtPositions(c, so + [found[k]]) == IdsAtPositions(c, so) + [b.blockId]
            && TokensAt(c, found[..k + 1]) == TokensAt(c, found[..k]) + b.tokenCount
  {
    var so := positions + found[..k];
    assert found[..k + 1][..k] == found[..k];
    assert (so + [found[k]])[..|so|] == so;
    assert positions + found[..k + 1] == so + [found[k]];
  }

  /** Reports a result and its duplicates. */
  method AddFound(c: Case, found: seq<int>, ids: seq<string>, evaluated: set<string>, tokens: int, ghost positions: seq<int>)
    returns (ids': seq<string>, evaluated': set<string>, tokens': int, ghost positions': seq<int>)
    requires InRange(c, found) && ids == IdsAtPositions(c, positions)
    requires forall id :: id in evaluated <==> id in ids
    ensures positions' == positions + found && ids' == IdsAtPositions(c, positions')
    ensures tokens' == tokens + TokensAt(c, found)
    ensures forall id :: id in evaluated' <==> id in ids'
  {
    hide IdsAtPositions, TokensAt;
    NothingFound(c);
    ids', evaluated', tokens', positions' := ids, evaluated, tokens, positions;
    for k := 0 to |found|
      invariant positions' == positions + found[..k] && ids' == IdsAtPositions(c, positions')
      invariant tokens' == tokens + TokensAt(c, found[..k])
      invariant forall id :: id in evaluated' <==> id in ids'
    {
      var b := c.results[found[k]];
      OneMoreFound(c, found, k, positions);
      ids', evaluated', tokens', positions' :=
        ids' + [b.blockId], evaluated' + {b.blockId}, tokens' + b.tokenCount, positions' + [found[k]];
    }
    assert found[..|found|] == found;
  }

  lemma NothingFound(c: Case)
    ensures TokensAt(c, []) == 0
  {
  }

  // ---------- nothing is counted twice ----------

  /** The tokens of the results at a set of positions. */
  function TotalOf(bs: seq<Block>, s: set<int>): nat {
    if bs == [] then 0
    else TotalOf(bs[..|bs| - 1], s) + (if |bs| - 1 in s then bs[|bs| - 1].tokenCount else 0)
  }

  lemma {:induction false} TotalWithin(bs: seq<Block>, s: set<int>)
    ensures TotalOf(bs, s) <= Tokens(bs)
  {
    if bs != [] {
      TotalWithin(bs[..|bs| - 1], s);
    }
  }

  lemma {:induction false} TotalAdd(bs: seq<Block>, s: set<int>, p: int)
    requires p !in s
    ensures TotalOf(bs, s + {p}) == TotalOf(bs, s) + (if 0 <= p < |bs| then bs[p].tokenCount else 0)
  {
    if bs != [] {
      TotalAdd(bs[..|bs| - 1], s, p);
    }
  }

  lemma {:induction false} TokensOfDistinct(c: Case, positions: seq<int>)
    requires Distinct(positions)
    ensures TokensAt(c, positions) == TotalOf(c.results, Elements(positions))
  {
    if positions == [] {
      assert Elements(positions) == {};
      TotalOfNone(c.results);
    } else {
      var init, p := positions[..|positions| - 1], positions[|positions| - 1];
      TokensOfDistinct(c, init);
      TotalAdd(c.results, Elements(init), p);
      assert positions == init + [p];
      assert Elements(positions) == Elements(init) + {p};
    }
  }

  lemma {:induction false} TotalOfNone(bs: seq<Block>)
    ensures TotalOf(bs, {}) == 0
  {
    if bs != [] {
      TotalOfNone(bs[..|bs| - 1]);
    }
  }

  lemma {:induction false} TokensAtAppend(c: Case, a: seq<int>, b: seq<int>)
    ensures TokensAt(c, a + b) == TokensAt(c, a) + TokensAt(c, b)
  {
    if b == [] {
      assert a + b == a;
    } else {
      assert (a + b)[..|a + b| - 1] == a + b[..|b| - 1];
      TokensAtAppend(c, a, b[..|b| - 1]);
    }
  }

  lemma {:induction false} IdsAtMeans(c: Case, positions: seq<int>)
    requires InRange(c, positions)
    ensures |IdsAtPositions(c, positions)| == |positions|
    ensures forall k :: 0 <= k < |positions| ==> IdsAtPositions(c, positions)[k] == c.results[positions[k]].blockId
  {
    if positions != [] {
      IdsAtMeans(c, positions[..|positions| - 1]);
    }
  }

  lemma {:induction false} DuplicatesMean(c: Case, i: nat, ids: seq<string>, n: nat)
    requires i < |c.results| && n <= |c.results|
    ensures var ds := Duplicates(c, i, ids, n);
            Distinct(ds) && forall k :: 0 <= k < |ds| ==> ds[k] != i && c.results[ds[k]].blockId !in ids
  {
    if n > 0 {
      DuplicatesMean(c, i, ids, n - 1);
    }
  }

  /** Reported positions are distinct and their tokens add up. */
  ghost predicate Balanced(c: Case, acc: Account) {
    && InRange(c, acc.positions)
    && Distinct(acc.positions)
    && acc.tokens == TokensAt(c, acc.positions)
  }

  /** A result about to be reported and its duplicates are new and distinct. */
  lemma FoundIsNew(c: Case, positions: seq<int>, i: nat)
    requires i < |c.results| && InRange(c, positions)
    requires c.results[i].blockId !in IdsAtPositions(c, positions)
    ensures var found := [i as int] + Duplicates(c, i, IdsAtPositions(c, positions), |c.results|);
            InRange(c, found) && Distinct(found) && forall p :: p in found ==> p !in positions
  {
    var ids := IdsAtPositions(c, positions);
    IdsAtMeans(c, positions);
    DuplicatesMean(c, i, ids, |c.results|);
    var ds := Duplicates(c, i, ids, |c.results|);
    assert forall k :: 0 <= k < |ds| ==> ds[k] in ds;
    forall k | 0 <= k < |positions| ensures positions[k] != i && positions[k] !in ds {
      assert ids[k] == c.results[positions[k]].blockId;
    }
  }

  lemma VisitBalanced(c: Case, acc: Account, i: nat)
    requires c.Valid() && i < |c.results| && Balanced(c, acc)
    ensures Balanced(c, Visit(c, acc, i))
  {
    if Visit(c, acc, i) != acc {
      var found := [i as int] + Duplicates(c, i, IdsAtPositions(c, acc.positions), |c.results|);
      FoundIsNew(c, acc.positions, i);
      TokensAtAppend(c, acc.positions, found);
      DistinctAppend(acc.positions, found);
    }
  }

  lemma DistinctAppend(a: seq<int>, b: seq<int>)
    requires Distinct(a) && Distinct(b) && forall x :: x in b ==> x !in a
    ensures Distinct(a + b)
  {
    var s := a + b;
    forall i, j | 0 <= i < j < |s| ensures s[i] != s[j] {
      assert i < |a| <= j ==> s[j] in b && s[i] in a;
    }
  }

  lemma {:induction false} VisitAllBalanced(c: Case, n: nat)
    requires c.Valid() && n <= |c.results|
    ensures Balanced(c, VisitAll(c, n))
  {
    hide Visit;
    if n > 0 {
      VisitAllBalanced(c, n - 1);
      VisitBalanced(c, VisitAll(c, n - 1), n - 1);
      VisitAllNext(c, n);
    }
  }

  /**
   * With unique block ids and any matching relation the reported ids are distinct, the recurring tokens
   * are exactly those of the reported results, and they never exceed all tool-result tokens of the turn.
   */
  lemma NeverCountsTwice(c: Case)
    requires c.Valid() && Distinct(Ids(c.results))
    ensures var acc := VisitAll(c, |c.results|);
            && Distinct(IdsAtPositions(c, acc.positions))
            && acc.tokens == TotalOf(c.results, Elements(acc.positions))
            && acc.tokens <= Tokens(c.results)
  {
    var acc := VisitAll(c, |c.results|);
    VisitAllBalanced(c, |c.results|);
    TokensOfDistinct(c, acc.positions);
    TotalWithin(c.results, Elements(acc.positions));
    IdsAtMeans(c, acc.positions);
    IdsAt(c.results);
    var ids := IdsAtPositions(c, acc.positions);
    forall i, j | 0 <= i < j < |ids| ensures ids[i] != ids[j] {
      var p, q := acc.positions[i], acc.positions[j];
      assert p != q && Ids(c.results)[p] != Ids(c.results)[q];
    }
  }

  lemma {:induction false} VisitAllGrows(c: Case, m: nat, n: nat)
    requires c.Valid() && m <= n <= |c.results|
    ensures VisitAll(c, m).positions <= VisitAll(c, n).positions
  {
    if m < n {
      VisitAllGrows(c, m, n - 1);
    }
  }

  /** The visit of a result that qualifies reports it next. */
  lemma VisitReports(c: Case, acc: Account, i: nat)
    requires c.Valid() && i < |c.results| && c.results[i].tokenCount >= c.minTokens
    requires c.results[i].blockId !in IdsAtPositions(c, acc.positions)
    requires Occurrences(c, i, IdsAtPositions(c, acc.positions)) >= c.threshold
    ensures |acc.positions| < |Visit(c, acc, i).positions| && Visit(c, acc, i).positions[|acc.positions|] == i
  {
  }

  lemma VisitAllNext(c: Case, n: nat)
    requires c.Valid() && 0 < n <= |c.results|
    ensures VisitAll(c, n) == Visit(c, VisitAll(c, n - 1), n - 1)
  {
  }

  /** A reported position keeps its id reported to the end. */
  lemma StaysReported(c: Case, n: nat, k: nat)
    requires c.Valid() && n <= |c.results| && k < |VisitAll(c, n).positions|
    ensures 0 <= VisitAll(c, n).positions[k] < |c.results|
    ensures c.results[VisitAll(c, n).positions[k]].blockId in IdsAtPositions(c, VisitAll(c, |c.results|).positions)
  {
    var now, all := VisitAll(c, n).positions, VisitAll(c, |c.results|).positions;
    VisitAllGrows(c, n, |c.results|);
    VisitAllBalanced(c, |c.results|);
    IdsAtMeans(c, all);
    assert now[k] == all[k];
    assert IdsAtPositions(c, all)[k] in IdsAtPositions(c, all);
  }

  /** An id reported by then stays reported. */
  lemma IdStaysReported(c: Case, n: nat, id: string)
    requires c.Valid() && n <= |c.results| && id in IdsAtPositions(c, VisitAll(c, n).positions)
    ensures id in IdsAtPositions(c, VisitAll(c, |c.results|).positions)
  {
    VisitAllBalanced(c, n);
    IdsAtMeans(c, VisitAll(c, n).positions);
    var ids := IdsAtPositions(c, VisitAll(c, n).positions);
    var k :| 0 <= k < |ids| && ids[k] == id;
    StaysReported(c, n, k);
  }

  /** A result that is visited, is not reported yet and qualifies has its id reported by that visit. */
  lemma VisitReportsId(c: Case, i: nat)
    requires c.Valid() && i < |c.results| && c.results[i].tokenCount >= c.minTokens
    requires c.results[i].blockId !in IdsAtPositions(c, VisitAll(c, i).positions)
    requires Occurrences(c, i, IdsAtPositions(c, VisitAll(c, i).positions)) >= c.threshold
    ensures c.results[i].blockId in IdsAtPositions(c, VisitAll(c, |c.results|).positions)
  {
    VisitReports(c, VisitAll(c, i), i);
    VisitAllNext(c, i + 1);
    StaysReported(c, i + 1, |VisitAll(c, i).positions|);
  }

  /** A large enough result that recurs often enough when it is met is reported, itself or under its id. */
  lemma RecurringIsReported(c: Case, i: nat)
    requires c.Valid() && i < |c.results| && c.results[i].tokenCount >= c.minTokens
    requires Occurrences(c, i, IdsAtPositions(c, VisitAll(c, i).positions)) >= c.threshold
    ensures c.results[i].blockId in IdsAtPositions(c, VisitAll(c, |c.results|).positions)
  {
    hide VisitAll, IdsAtPositions;
    if c.results[i].blockId in IdsAtPositions(c, VisitAll(c, i).positions) {
      IdStaysReported(c, i, c.results[i].blockId);
    } else {
      VisitReportsId(c, i);
    }
  }

  /** Result i qualifies when it is met: it is large, is not reported yet and recurs often enough. */
  ghost predicate Qualifies(c: Case, i: nat)
    requires c.Valid() && i < |c.results|
  {
    var ids := IdsAtPositions(c, VisitAll(c, i).positions);
    && c.results[i].tokenCount >= c.minTokens && c.results[i].blockId !in ids
    && Occurrences(c, i, ids) >= c.threshold
  }

  /** The positions that the visit of result i reports: the result and its unreported duplicates. */
  function Found(c: Case, i: nat): seq<int>
    requires c.Valid() && i < |c.results|
  {
    [i as int] + Duplicates(c, i, IdsAtPositions(c, VisitAll(c, i).positions), |c.results|)
  }

  lemma VisitAdds(c: Case, i: nat)
    requires c.Valid() && i < |c.results|
    ensures VisitAll(c, i + 1).positions == VisitAll(c, i).positions + (if Qualifies(c, i) then Found(c, i) else [])
  {
    VisitAllNext(c, i + 1);
  }

  lemma {:induction false} ReportedBy(c: Case, n: nat, p: int)
    requires c.Valid() && n <= |c.results|
    ensures p in VisitAll(c, n).positions <==> exists i :: 0 <= i < n && Qualifies(c, i) && p in Found(c, i)
  {
    hide Visit, Qualifies, Found;
    if n > 0 {
      ReportedBy(c, n - 1, p);
      VisitAdds(c, n - 1);
      if Qualifies(c, n - 1) && p in Found(c, n - 1) {
        assert p in VisitAll(c, n).positions;
      } else {
        assert p in VisitAll(c, n).positions <==> p in VisitAll(c, n - 1).positions;
      }
    }
  }

  /** Exactly the results that qualify when they are met, and their duplicates, are reported. */
  lemma ReportedIff(c: Case, p: int)
    requires c.Valid()
    ensures p in VisitAll(c, |c.results|).positions
       <==> exists i :: 0 <= i < |c.results| && Qualifies(c, i) && p in Found(c, i)
  {
    ReportedBy(c, |c.results|, p);
  }
  // ---------- what a report means ----------

  ghost predicate HasMatch(c: Case, b: Block, turn: seq<Block>) {
    exists r :: r in turn && c.matches(b, r)
  }

  /** The first n previous turns with a result that matches. */
  ghost function MatchingTurns(c: Case, b: Block, n: nat): set<int>
    requires n <= |c.previous|
  {
    set i | 0 <= i < n && HasMatch(c, b, c.previous[i])
  }

  lemma OneMoreTurn(c: Case, b: Block, n: nat)
    requires n < |c.previous|
    ensures TurnsWithMatch(c, b, c.previous[..n + 1])
         == TurnsWithMatch(c, b, c.previous[..n]) + (if HasMatch(c, b, c.previous[n]) then 1 else 0)
  {
    assert c.previous[..n + 1][..n] == c.previous[..n];
  }

  lemma OneMoreMatch(c: Case, b: Block, n: nat)
    requires n < |c.previous|
    ensures |MatchingTurns(c, b, n + 1)| == |MatchingTurns(c, b, n)| + (if HasMatch(c, b, c.previous[n]) then 1 else 0)
  {
    hide HasMatch;
    assert n !in MatchingTurns(c, b, n);
    assert MatchingTurns(c, b, n + 1)
        == if HasMatch(c, b, c.previous[n]) then MatchingTurns(c, b, n) + {n} else MatchingTurns(c, b, n);
  }

  lemma {:induction false} TurnsWithMatchCounts(c: Case, b: Block, n: nat)
    requires n <= |c.previous|
    ensures TurnsWithMatch(c, b, c.previous[..n]) == |MatchingTurns(c, b, n)|
  {
    hide HasMatch, TurnsWithMatch, MatchingTurns;
    if n == 0 {
      NoMatchYet(c, b);
    } else {
      TurnsWithMatchCounts(c, b, n - 1);
      OneMoreTurn(c, b, n - 1);
      OneMoreMatch(c, b, n - 1);
    }
  }

  lemma NoMatchYet(c: Case, b: Block)
    ensures TurnsWithMatch(c, b, c.previous[..0]) == 0 && MatchingTurns(c, b, 0) == {}
  {
  }

  /** The duplicates of a result are the other results of the turn that match it and are not reported, in order. */
  lemma {:induction false} DuplicatesAre(c: Case, i: nat, ids: seq<string>, n: nat)
    requires i < |c.results| && n <= |c.results|
    ensures StrictlyIncreasing(Duplicates(c, i, ids, n))
    ensures forall j :: j in Duplicates(c, i, ids, n)
              <==> 0 <= j < n && j != i && c.results[j].blockId !in ids && c.matches(c.results[i], c.results[j])
  {
    if n > 0 {
      DuplicatesAre(c, i, ids, n - 1);
      var before := Duplicates(c, i, ids, n - 1);
      assert forall j :: j in before + [n - 1] <==> j in before || j == n - 1;
    }
  }

  /**
   * A result occurs once for itself, once for each previous turn with a match or as often as it has survived if that is
   * more, and once for each duplicate.
   */
  lemma OccurrencesMean(c: Case, i: nat, ids: seq<string>)
    requires c.Valid() && i < |c.results|
    ensures var seen, lived, more := |MatchingTurns(c, c.results[i], |c.previous|)|, c.survived[i], |Duplicates(c, i, ids, |c.results|)|;
            && Occurrences(c, i, ids) >= 1 + seen + more && Occurrences(c, i, ids) >= 1 + lived + more
            && (Occurrences(c, i, ids) == 1 + seen + more || Occurrences(c, i, ids) == 1 + lived + more)
  {
    assert c.previous[..|c.previous|] == c.previous;
    TurnsWithMatchCounts(c, c.results[i], |c.previous|);
  }

  /** The two thresholds, without a division: the share is that of the input tokens, the total tokens, or one. */
  lemma ExceedsMeans(c: Case, tokens: int)
    ensures c.inputTokens > 0 ==>
              (Exceeds(c, tokens) <==> tokens >= c.tokenThreshold || tokens as real >= c.ratioThreshold * c.inputTokens as real)
    ensures c.inputTokens <= 0 && c.totalTokens > 0 ==>
              (Exceeds(c, tokens) <==> tokens >= c.tokenThreshold || tokens as real >= c.ratioThreshold * c.totalTokens as real)
    ensures c.inputTokens <= 0 && c.totalTokens == 0 ==>
              (Exceeds(c, tokens) <==> tokens >= c.tokenThreshold || tokens as real >= c.ratioThreshold)
  {
    ShareIff(tokens as real, InputTokens(c) as real, c.ratioThreshold);
  }

  lemma ShareIff(part: real, whole: real, ratio: real)
    ensures whole > 0.0 ==> (part / whole >= ratio <==> part >= ratio * whole)
  {
    if whole > 0.0 {
      var share := part / whole;
      assert share * whole == part;
      if share >= ratio {
        Scale(ratio, share, whole);
      } else {
        assert (ratio - share) * whole > 0.0;
        assert ratio * whole - share * whole == (ratio - share) * whole;
      }
    }
  }

  lemma Scale(a: real, b: real, w: real)
    requires a <= b && w > 0.0
    ensures a * w <= b * w
  {
    assert (b - a) * w >= 0.0;
    assert b * w - a * w == (b - a) * w;
  }

  /** The occurrences of a result when it is met. */
  function OccurrencesOf(c: Case, i: nat): int
    requires c.Valid() && i < |c.results|
  {
    Occurrences(c, i, IdsAtPositions(c, VisitAll(c, i).positions))
  }

  lemma VisitMax(c: Case, i: nat)
    requires c.Valid() && i < |c.results|
    ensures var before, after := VisitAll(c, i).maxOccurrences, VisitAll(c, i + 1).maxOccurrences;
            after == if Qualifies(c, i) && OccurrencesOf(c, i) > before then OccurrencesOf(c, i) else before
  {
    VisitAllNext(c, i + 1);
  }

  /** The largest number of occurrences of the first n results that qualified, and one if none did. */
  ghost predicate IsMost(c: Case, n: nat, most: int)
    requires c.Valid() && n <= |c.results|
  {
    && most >= 1
    && (forall i :: 0 <= i < n && Qualifies(c, i) ==> OccurrencesOf(c, i) <= most)
    && (most == 1 || exists i :: 0 <= i < n && Qualifies(c, i) && OccurrencesOf(c, i) == most)
  }

  lemma MostStep(c: Case, n: nat, most: int)
    requires c.Valid() && n < |c.results| && IsMost(c, n, most)
    ensures IsMost(c, n + 1, if Qualifies(c, n) && OccurrencesOf(c, n) > most then OccurrencesOf(c, n) else most)
  {
    hide Qualifies, OccurrencesOf;
    if Qualifies(c, n) && OccurrencesOf(c, n) > most {
      assert IsMost(c, n + 1, OccurrencesOf(c, n));
    } else if most != 1 {
      var i :| 0 <= i < n && Qualifies(c, i) && OccurrencesOf(c, i) == most;
      assert 0 <= i < n + 1 && Qualifies(c, i) && OccurrencesOf(c, i) == most;
    }
  }

  lemma NoneYet(c: Case)
    requires c.Valid()
    ensures IsMost(c, 0, VisitAll(c, 0).maxOccurrences)
  {
  }

  /** The number reported is that number. */
  lemma {:induction false} MaxOccurrencesMeans(c: Case, n: nat)
    requires c.Valid() && n <= |c.results|
    ensures IsMost(c, n, VisitAll(c, n).maxOccurrences)
  {
    hide IsMost, Qualifies, OccurrencesOf, VisitAll, Visit, Occurrences, IdsAtPositions;
    if n == 0 {
      NoneYet(c);
    } else {
      MaxOccurrencesMeans(c, n - 1);
      VisitMax(c, n - 1);
      MostStep(c, n - 1, VisitAll(c, n - 1).maxOccurrences);
    }
  }
}

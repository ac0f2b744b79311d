/**
 * engine/ranking.go: the other ranking of actions in the `engine` package.
 *
 * Here an action carries its own score tuple and score buffer; a result
 * slice first computes every action's scores in place and is then sorted
 * by `LesserPriority`. The kind and on/off conventions are the reverse of
 * the ones in engine/results.go, and `LesserPriority` is not an order, so
 * sorting only promises a permutation.
 */
module EngineRanking {
  import opened Text
  import opened ScoreBuffer
  import opened EngineAction
  import opened EngineQuery
  import EngineResults

  /** An action with the `scores` and `matchScores` fields this file reads. */
  datatype ScoredAction = ScoredAction(action: Action, scores: Score, matchScores: Buffer)

  //
  // The score components
  //

  /**
   * The value of `MatchScore`: 0 for an empty buffer, else minus the sum of
   * the largest first and the largest second entries over all rows.
   */
  function MatchTotal(m: Buffer): real
    requires HasColumn(m, 1)
  {
    if |m| == 0 then 0.0 else -(ColMax(m, 0) + ColMax(m, 1))
  }

  lemma ColMaxStep(m: Buffer, r: nat, j: nat)
    requires 0 < r < |m| && HasColumn(m, j)
    ensures HasColumn(m[..r], j) && HasColumn(m[..r + 1], j)
    ensures ColMax(m[..r + 1], j) == Max(ColMax(m[..r], j), m[r][j])
  {
    assert m[..r + 1][..r] == m[..r];
  }

  /**
   * `Action.MatchScore`: scans every row (the first one twice), so every
   * row must have at least two entries.
   */
  method MatchScore(m: Buffer) returns (score: real)
    requires HasColumn(m, 1)
    ensures score == MatchTotal(m)
  {
    if |m| == 0 {
      return 0.0;
    }
    var score0 := m[0][0];
    var score1 := m[0][1];
    assert m[..1] == [m[0]];
    for r := 0 to |m|
      invariant r > 0 ==> score0 == ColMax(m[..r], 0) && score1 == ColMax(m[..r], 1)
      invariant r == 0 ==> score0 == m[0][0] && score1 == m[0][1]
    {
      if r > 0 {
        ColMaxStep(m, r, 0);
        ColMaxStep(m, r, 1);
      }
      var s := m[r];
      if s[0] > score0 {
        score0 := s[0];
      }
      if s[1] > score1 {
        score1 := s[1];
      }
    }
    assert m[..|m|] == m;
    score := -(score0 + score1);
  }

  /** The match score is at most minus the first two entries of any row. */
  lemma MatchTotalBound(m: Buffer, r: nat)
    requires HasColumn(m, 1) && r < |m|
    ensures MatchTotal(m) <= -(m[r][0] + m[r][1])
  {
    ColMaxIsMax(m, 0);
    ColMaxIsMax(m, 1);
  }

  /**
   * On buffers whose rows hold exactly two scores the two files agree:
   * `MatchScore` equals `AsFloat64` of engine/results.go.
   */
  lemma MatchTotalAgrees(m: Buffer)
    requires forall r :: 0 <= r < |m| ==> |m[r]| == 2
    ensures MatchTotal(m) == EngineResults.MatchTotal(m)
  {
    if |m| > 0 {
      assert EngineResults.Uniform(m);
      assert EngineResults.SumMaxes(m, 1) == ColMax(m, 0);
      assert EngineResults.SumMaxes(m, 2) == ColMax(m, 0) + ColMax(m, 1);
    }
  }

  /** `Action.KindScore`: group on/off 3, group scene 2, light on/off 1, else 0. */
  function KindScore(action: Action): (k: real)
    ensures k == 3.0 - EngineResults.KindScore(action)
  {
    var isLight := action.light.Some?;
    var isGroup := action.group.Some?;
    var isScene := action.scene.Some?;
    var isOnOff := action.onOff != BoolAny;
    if isGroup && isOnOff then 3.0
    else if isGroup && isScene then 2.0
    else if isLight && isOnOff then 1.0
    else 0.0
  }

  /** `Action.ActionIndexScore`: a scene's numeric ID, else 2 for "on", 1 for "off". */
  function ActionIndexScore(action: Action): (s: real)
    ensures action.scene.None? && action.onOff in {BoolOn, BoolOff} ==>
      s == 3.0 - EngineResults.ActionIndexScore(action)
    ensures action.scene.Some? ==> s == EngineResults.ActionIndexScore(action)
  {
    if action.scene.Some? then Atoi(action.scene.value.id) as real
    else if action.onOff == BoolOn then 2.0
    else if action.onOff == BoolOff then 1.0
    else 0.0
  }

  /**
   * The scores `ComputeScores` writes. The item index score is the same
   * function in both files.
   */
  function ComputedScores(a: ScoredAction): Score
    requires HasColumn(a.matchScores, 1)
  {
    [MatchTotal(a.matchScores), KindScore(a.action), EngineResults.ItemIndexScore(a.action), ActionIndexScore(a.action)]
  }

  /** An action with its scores recomputed and nothing else changed. */
  function WithScores(a: ScoredAction): (r: ScoredAction)
    requires HasColumn(a.matchScores, 1)
  {
    a.(scores := ComputedScores(a))
  }

  //
  // LesserPriority
  //

  /** Some component of `other`'s scores is below the same component of `action`'s. */
  predicate SomeLower(action: ScoredAction, other: ScoredAction) {
    exists i :: 0 <= i < 4 && other.scores[i] < action.scores[i]
  }

  /** `Action.LesserPriority`. */
  method LesserPriority(action: ScoredAction, other: ScoredAction) returns (lesser: bool)
    ensures lesser <==> SomeLower(action, other)
  {
    var scoresA := other.scores;
    var scoresB := action.scores;
    for i := 0 to 4
      invariant forall k :: 0 <= k < i ==> scoresA[k] >= scoresB[k]
    {
      var b := scoresB[i];
      if scoresA[i] < b {
        return true;
      }
    }
    return false;
  }

  /** No action has lesser priority than itself. */
  lemma SomeLowerIrreflexive(a: ScoredAction)
    ensures !SomeLower(a, a)
  {
  }

  /**
   * `LesserPriority` is not an order: two actions can each have lesser
   * priority than the other.
   */
  lemma SomeLowerNotAsymmetric()
    ensures exists a, b :: SomeLower(a, b) && SomeLower(b, a)
  {
    var a := ScoredAction(Action(), [1.0, 0.0, 0.0, 0.0], []);
    var b := ScoredAction(Action(), [0.0, 1.0, 0.0, 0.0], []);
    assert b.scores[0] < a.scores[0];
    assert a.scores[1] < b.scores[1];
    assert SomeLower(a, b) && SomeLower(b, a);
  }

  //
  // ResultSlice
  //

  /** Every action's buffer has rows of at least two scores, as `MatchScore` needs. */
  predicate Scorable(s: seq<ScoredAction>) {
    forall i :: 0 <= i < |s| ==> HasColumn(s[i].matchScores, 1)
  }

  /** `s` with every action's scores recomputed. */
  function Computed(s: seq<ScoredAction>): (c: seq<ScoredAction>)
    requires Scorable(s)
    ensures |c| == |s|
  {
    seq(|s|, i requires 0 <= i < |s| && Scorable(s) => WithScores(s[i]))
  }

  /** `ResultSlice.ComputeScores`: overwrites each action's scores in place. */
  method ComputeScores(r: array<ScoredAction>)
    requires Scorable(r[..])
    modifies r
    ensures r[..] == Computed(old(r[..]))
  {
    for i := 0 to r.Length
      invariant forall k :: 0 <= k < i ==> r[k] == WithScores(old(r[k]))
      invariant forall k :: i <= k < r.Length ==> r[k] == old(r[k])
    {
      var res := r[i];
      var s0 := MatchScore(res.matchScores);
      r[i] := r[i].(scores := [s0, KindScore(res.action), EngineResults.ItemIndexScore(res.action), ActionIndexScore(res.action)]);
    }
  }

  /** `ResultSlice.Swap`. */
  method Swap(r: array<ScoredAction>, i: nat, j: nat)
    requires i < r.Length && j < r.Length
    modifies r
    ensures r[..] == old(r[..])[i := old(r[j])][j := old(r[i])]
    ensures multiset(r[..]) == multiset(old(r[..]))
  {
    r[i], r[j] := r[j], r[i];
  }

  /** `ResultSlice.Less`. */
  method Less(r: array<ScoredAction>, i: nat, j: nat) returns (less: bool)
    requires i < r.Length && j < r.Length
    ensures less <==> SomeLower(r[i], r[j])
  {
    less := LesserPriority(r[i], r[j]);
  }

  /**
   * `ResultSlice.Sort`: computes the scores, then sorts (here by insertion;
   * `sort.Sort` fixes neither the algorithm nor the outcome when `Less` is
   * not an order). The result is a permutation of the scored actions.
   */
  method Sort(r: array<ScoredAction>)
    requires Scorable(r[..])
    modifies r
    ensures multiset(r[..]) == multiset(Computed(old(r[..])))
    ensures forall i :: 0 <= i < r.Length ==> HasColumn(r[i].matchScores, 1) && r[i].scores == ComputedScores(r[i])
  {
    ComputeScores(r);
    ghost var computed := r[..];
    assert forall k :: 0 <= k < r.Length ==> r[k] in computed;
    for i := 0 to r.Length
      invariant multiset(r[..]) == multiset(computed)
    {
      var j := i;
      while j > 0
        invariant 0 <= j <= i
        invariant multiset(r[..]) == multiset(computed)
      {
        var less := Less(r, j, j - 1);
        if !less {
          break;
        }
        Swap(r, j, j - 1);
        j := j - 1;
      }
    }
    forall i | 0 <= i < r.Length
      ensures HasColumn(r[i].matchScores, 1) && r[i].scores == ComputedScores(r[i])
    {
      assert r[i] in multiset(computed);
    }
  }

  //
  // ScoreQueries
  //

  class ScoreQueries {
    var queries: seq<Query>
    var scores: Buffer

    /** One score row per query. */
    ghost predicate Valid()
      reads this
    {
      |queries| == |scores|
    }

    constructor()
      ensures Valid() && queries == [] && scores == []
    {
      queries, scores := [], [];
    }

    /** `Use`: a copy of the queries, each with an empty score row. */
    method Use(qs: seq<Query>)
      modifies this
      ensures Valid() && queries == qs && scores == EmptyRows(|qs|)
    {
      queries := qs;
      scores := EmptyRows(|qs|);
    }

    /**
     * `Score`: keeps the queries that score non-negatively, in order, each
     * with the score appended to its row; reports whether any survived.
     */
    method Score(scoring: Query -> real) returns (any: bool)
      requires Valid()
      modifies this
      ensures Valid()
      ensures (queries, scores) == KeepScored(old(queries), old(scores), scoring)
      ensures any <==> queries != []
    {
      var kept: seq<Query> := [];
      var rows: Buffer := [];
      for i := 0 to |queries|
        invariant (kept, rows) == KeepScored(queries[..i], scores[..i], scoring)
      {
        assert queries[..i + 1][..i] == queries[..i] && scores[..i + 1][..i] == scores[..i];
        var q := queries[i];
        var score := scoring(q);
        if score < 0.0 {
          continue;
        }
        kept := kept + [q];
        rows := rows + [scores[i] + [score]];
      }
      assert queries[..|queries|] == queries && scores[..|scores|] == scores;
      queries, scores := kept, rows;
      any := |queries| > 0;
    }

    /** `ScoreFinal`: the same filtering into fresh lists, leaving the buffer as it is. */
    method ScoreFinal(scoring: Query -> real) returns (rows: Buffer, kept: seq<Query>)
      requires Valid()
      ensures (kept, rows) == KeepScored(queries, scores, scoring)
    {
      kept := [];
      rows := [];
      for i := 0 to |queries|
        invariant (kept, rows) == KeepScored(queries[..i], scores[..i], scoring)
      {
        assert queries[..i + 1][..i] == queries[..i] && scores[..i + 1][..i] == scores[..i];
        var q := queries[i];
        var score := scoring(q);
        if score < 0.0 {
          continue;
        }
        kept := kept + [q];
        rows := rows + [scores[i] + [score]];
      }
      assert queries[..|queries|] == queries && scores[..|scores|] == scores;
    }
  }
}

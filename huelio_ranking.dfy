/**
 * engine_ranking.go (root package): ranking the actions `Run` found, and
 * the score buffer that filters queries entity by entity.
 *
 * An action's four scores are computed on demand from the action itself:
 * match quality from its score rows, its kind, its negated group or light
 * ID, and its scene ID or on/off change. `LesserPriority` compares two
 * actions component by component but is not an order, so sorting promises
 * only a permutation.
 *
 * The source reads the score rows from a field `Score` that the shown
 * `QueryAction` does not have; they are its `matchScores` here.
 */
module HuelioRanking {
  import opened Text
  import Wrappers
  import Catalog
  import opened ScoreBuffer
  import opened HuelioQuery
  import opened HuelioAction
  import EngineAction
  import EngineRanking
  import EngineResults

  //
  // The score components
  //

  /**
   * `QueryAction.MatchScore`: the loop of engine/ranking.go over the same
   * rows, so every row must have at least two entries.
   */
  method MatchScore(action: QueryAction) returns (score: real)
    requires HasColumn(action.matchScores, 1)
    ensures action.matchScores == [] ==> score == 0.0
    ensures forall r :: 0 <= r < |action.matchScores| ==>
      score <= -(action.matchScores[r][0] + action.matchScores[r][1])
    ensures score == EngineRanking.MatchTotal(action.matchScores)
  {
    score := EngineRanking.MatchScore(action.matchScores);
    forall r | 0 <= r < |action.matchScores|
      ensures score <= -(action.matchScores[r][0] + action.matchScores[r][1])
    {
      EngineRanking.MatchTotalBound(action.matchScores, r);
    }
  }

  /** `QueryAction.KindScore`: group on/off 3, group scene 2, light on/off 1, else 0. */
  function KindScore(action: QueryAction): (k: real)
    ensures k == 3.0 <==> action.group.Some? && action.onOff != EngineAction.BoolAny
    ensures k == 2.0 <==> action.group.Some? && action.onOff == EngineAction.BoolAny && action.scene.Some?
    ensures k == 1.0 <==> action.group.None? && action.light.Some? && action.onOff != EngineAction.BoolAny
    ensures k == 0.0 <==> !(action.group.Some? && (action.onOff != EngineAction.BoolAny || action.scene.Some?))
                          && !(action.light.Some? && action.onOff != EngineAction.BoolAny)
    ensures k == EngineRanking.KindScore(ToEngine(action))
  {
    var isLight := action.light.Some?;
    var isGroup := action.group.Some?;
    var isScene := action.scene.Some?;
    var isOnOff := action.onOff != EngineAction.BoolAny;
    if isGroup && isOnOff then 3.0
    else if isGroup && isScene then 2.0
    else if isLight && isOnOff then 1.0
    else 0.0
  }

  /** `QueryAction.ItemIndexScore`: the negated ID of the group, else of the light, else 0. */
  function ItemIndexScore(action: QueryAction): (s: real)
    ensures action.group.Some? ==> s == -(action.group.value.id as real)
    ensures action.group.None? && action.light.Some? ==> s == -(action.light.value.id as real)
    ensures action.group.None? && action.light.None? ==> s == 0.0
    ensures s == EngineResults.ItemIndexScore(ToEngine(action))
  {
    if action.group.Some? then -(action.group.value.id as real)
    else if action.light.Some? then -(action.light.value.id as real)
    else 0.0
  }

  /** `QueryAction.ActionIndexScore`: a scene's numeric ID, else 2 for "on", 1 for "off", else 0. */
  function ActionIndexScore(action: QueryAction): (s: real)
    ensures action.scene.None? ==> s == (if action.onOff == "on" then 2.0 else if action.onOff == "off" then 1.0 else 0.0)
    ensures s == EngineRanking.ActionIndexScore(ToEngine(action))
  {
    if action.scene.Some? then Atoi(action.scene.value.id) as real
    else if action.onOff == EngineAction.BoolOn then 2.0
    else if action.onOff == EngineAction.BoolOff then 1.0
    else 0.0
  }

  /** A scene whose ID is a decimal 64-bit number is indexed by that number. */
  lemma SceneActionIndex(action: QueryAction, n: int)
    requires action.scene.Some? && action.scene.value.id == Itoa(n)
    requires MinInt64 <= n <= MaxInt64
    ensures ActionIndexScore(action) == n as real
  {
    AtoiItoa(n);
  }

  /** The four scores of an action, in the order `Scores` fills them. */
  function ScoresOf(action: QueryAction): (s: Score)
    requires HasColumn(action.matchScores, 1)
    ensures s == EngineRanking.ComputedScores(EngineRanking.ScoredAction(ToEngine(action), s, action.matchScores))
  {
    [EngineRanking.MatchTotal(action.matchScores), KindScore(action), ItemIndexScore(action), ActionIndexScore(action)]
  }

  /** `QueryAction.Scores`. */
  method Scores(action: QueryAction) returns (scores: Score)
    requires HasColumn(action.matchScores, 1)
    ensures scores == ScoresOf(action)
  {
    var matchScore := MatchScore(action);
    scores := [matchScore, KindScore(action), ItemIndexScore(action), ActionIndexScore(action)];
  }

  //
  // LesserPriority
  //

  /** Some component of `b` is below the same component of `a`. */
  predicate SomeLower(a: Score, b: Score) {
    exists i :: 0 <= i < 4 && b[i] < a[i]
  }

  /** `QueryAction.LesserPriority`: some score of `other` is below the same score of `action`. */
  method LesserPriority(action: QueryAction, other: QueryAction) returns (lesser: bool)
    requires HasColumn(action.matchScores, 1) && HasColumn(other.matchScores, 1)
    ensures lesser <==> SomeLower(ScoresOf(action), ScoresOf(other))
  {
    var scoresA := Scores(other);
    var scoresB := Scores(action);
    for i := 0 to 4
      invariant forall k :: 0 <= k < i ==> scoresA[k] >= scoresB[k]
    {
      var b := scoresB[i];
      if scoresA[i] < b {
        return true;
      }
    }
    return false;
  }

  /** No action has lesser priority than itself. */
  lemma SomeLowerIrreflexive(a: QueryAction)
    requires HasColumn(a.matchScores, 1)
    ensures !SomeLower(ScoresOf(a), ScoresOf(a))
  {
  }

  /**
   * `LesserPriority` is not an order: turning group 7 on and turning light 1
   * on each have lesser priority than the other.
   */
  lemma SomeLowerNotAsymmetric()
    ensures var a := QueryAction(group := Wrappers.Some(Catalog.Group(7, "")), onOff := "on");
      var b := QueryAction(light := Wrappers.Some(Catalog.Light(1, "")), onOff := "on");
      SomeLower(ScoresOf(a), ScoresOf(b)) && SomeLower(ScoresOf(b), ScoresOf(a))
  {
    var a := QueryAction(group := Wrappers.Some(Catalog.Group(7, "")), onOff := "on");
    var b := QueryAction(light := Wrappers.Some(Catalog.Light(1, "")), onOff := "on");
    assert ScoresOf(a)[1] == 3.0 && ScoresOf(b)[1] == 1.0;
    assert ScoresOf(a)[2] == -7.0 && ScoresOf(b)[2] == -1.0;
  }

  //
  // ResultSlice
  //

  /** Every action's rows have at least two scores, as `MatchScore` needs. */
  predicate Scorable(s: seq<QueryAction>) {
    forall i :: 0 <= i < |s| ==> HasColumn(s[i].matchScores, 1)
  }

  /** `ResultSlice.Swap`. */
  method Swap(r: array<QueryAction>, i: nat, j: nat)
    requires i < r.Length && j < r.Length
    modifies r
    ensures r[..] == old(r[..])[i := old(r[j])][j := old(r[i])]
    ensures multiset(r[..]) == multiset(old(r[..]))
  {
    r[i], r[j] := r[j], r[i];
  }

  /** `ResultSlice.Less`. */
  method Less(r: array<QueryAction>, i: nat, j: nat) returns (less: bool)
    requires i < r.Length && j < r.Length && Scorable(r[..])
    ensures less <==> SomeLower(ScoresOf(r[i]), ScoresOf(r[j]))
  {
    assert r[i] == r[..][i] && r[j] == r[..][j];
    less := LesserPriority(r[i], r[j]);
  }

  /**
   * `ResultSlice.Sort` (here by insertion; `sort.Sort` fixes neither the
   * algorithm nor the outcome when `Less` is not an order): the slice ends
   * as a permutation of itself.
   */
  method Sort(r: array<QueryAction>)
    requires Scorable(r[..])
    modifies r
    ensures multiset(r[..]) == multiset(old(r[..]))
    ensures Scorable(r[..])
  {
    ghost var start := r[..];
    for i := 0 to r.Length
      invariant multiset(r[..]) == multiset(start)
      invariant Scorable(r[..])
    {
      var j := i;
      while j > 0
        invariant 0 <= j <= i
        invariant multiset(r[..]) == multiset(start)
        invariant Scorable(r[..])
      {
        var less := Less(r, j, j - 1);
        if !less {
          break;
        }
        Swap(r, j, j - 1);
        j := j - 1;
      }
    }
  }

  //
  // ScoreQueries
  //

  class ScoreQueries {
    var queries: seq<Query>
    var scores: Buffer

    /** One score row per query. */
    ghost predicate Valid()
      reads this
    {
      |queries| == |scores|
    }

    constructor()
      ensures Valid() && queries == [] && scores == []
    {
      queries, scores := [], [];
    }

    /** `Use`: a copy of the queries, each with an empty score row. */
    method Use(qs: seq<Query>)
      modifies this
      ensures Valid() && queries == qs && scores == EmptyRows(|qs|)
    {
      queries := qs;
      scores := EmptyRows(|qs|);
    }

    /**
     * `Score`: keeps the queries that score non-negatively, in order, each
     * with the score appended to its row; reports whether any survived.
     */
    method Score(scoring: Query -> real) returns (any: bool)
      requires Valid()
      modifies this
      ensures Valid()
      ensures (queries, scores) == KeepScored(old(queries), old(scores), scoring)
      ensures any <==> queries != []
    {
      var kept: seq<Query> := [];
      var rows: Buffer := [];
      for i := 0 to |queries|
        invariant (kept, rows) == KeepScored(queries[..i], scores[..i], scoring)
      {
        assert queries[..i + 1][..i] == queries[..i] && scores[..i + 1][..i] == scores[..i];
        var q := queries[i];
        var score := scoring(q);
        if score < 0.0 {
          continue;
        }
        kept := kept + [q];
        rows := rows + [scores[i] + [score]];
      }
      assert queries[..|queries|] == queries && scores[..|scores|] == scores;
      queries, scores := kept, rows;
      any := |queries| > 0;
    }

    /** `ScoreFinal`: the same filtering into fresh lists, leaving the buffer as it is. */
    method ScoreFinal(scoring: Query -> real) returns (rows: Buffer, kept: seq<Query>)
      requires Valid()
      ensures (kept, rows) == KeepScored(queries, scores, scoring)
    {
      kept := [];
      rows := [];
      for i := 0 to |queries|
        invariant (kept, rows) == KeepScored(queries[..i], scores[..i], scoring)
      {
        assert queries[..i + 1][..i] == queries[..i] && scores[..i + 1][..i] == scores[..i];
        var q := queries[i];
        var score := scoring(q);
        if score < 0.0 {
          continue;
        }
        kept := kept + [q];
        rows := rows + [scores[i] + [score]];
      }
      assert queries[..|queries|] == queries && scores[..|scores|] == scores;
    }
  }
}

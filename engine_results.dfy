/**
 * engine/results.go: scoring candidate passes against catalog entities,
 * folding a finished score buffer into a 4-part score, and the result set
 * that keeps actions, scores and score buffers in three aligned lists.
 *
 * The fuzzy matcher and the CSS colour parser are outside the model: a
 * `Matchers` value supplies them.
 */
module EngineResults {
  import opened Wrappers
  import opened Catalog
  import opened Text
  import opened ScoreBuffer
  import opened EngineAction
  import opened EngineQuery

  /** A fuzzy rank: a non-negative edit distance, or -1 for "no match". */
  type Rank = r: int | r >= -1

  /**
   * The foreign matchers: `fuzzy.RankMatchNormalizedFold(source, target)`
   * and `csscolorparser.Parse` followed by `HexString`, where `None` stands
   * for a parse error or a colour that is not fully opaque.
   */
  datatype Matchers = Matchers(rank: (string, string) -> Rank, color: string -> Option<string>)

  //
  // Individual scores
  //

  /**
   * `scoreText`: 0 for an empty target, -1 when the source does not match,
   * else the rank divided by the target's length in UTF-8 bytes (Go's
   * `len`), so "Küche" counts as 6.
   */
  function ScoreText(m: Matchers, source: string, target: string): (s: real)
    ensures target == [] ==> s == 0.0
    ensures s < 0.0 <==> target != [] && m.rank(source, target) == -1
    ensures s < 0.0 ==> s == -1.0
    ensures target != [] && s >= 0.0 ==> s * (Utf8Len(target) as real) == m.rank(source, target) as real
  {
    if |target| == 0 then 0.0
    else
      var rank := m.rank(source, target);
      if rank == -1 then -1.0 else Ratio(rank, Utf8Len(target))
  }

  /** A non-negative rank over a positive length, as a real. */
  function Ratio(a: nat, b: nat): (r: real)
    requires b > 0
    ensures r >= 0.0 && r * (b as real) == a as real
  {
    (a as real) / (b as real)
  }

  /** A rank of 1 against "Küche" scores 1/6: the target has five characters but six bytes. */
  lemma ScoreTextCountsBytes(m: Matchers, source: string)
    requires m.rank(source, "Küche") == 1
    ensures ScoreText(m, source, "Küche") == 1.0 / 6.0
  {
    assert Utf8Len("Küche") == 6;
  }

  /** `Query.MatchGroup` for group `g`, as a scoring function. */
  function MatchGroup(m: Matchers, g: Group): (f: Query -> real)
    ensures forall q: Query :: f(q) < 0.0 <==> g.name != [] && m.rank(q.name, g.name) == -1
  {
    (q: Query) => ScoreText(m, q.name, g.name)
  }

  /** `Query.MatchLight` for light `l`. */
  function MatchLight(m: Matchers, l: Light): (f: Query -> real)
    ensures forall q: Query :: f(q) < 0.0 <==> l.name != [] && m.rank(q.name, l.name) == -1
  {
    (q: Query) => ScoreText(m, q.name, l.name)
  }

  /** `Query.MatchScene` for scene `s`: the change text against the scene name. */
  function MatchScene(m: Matchers, s: Scene): (f: Query -> real)
    ensures forall q: Query :: f(q) < 0.0 <==> s.name != [] && m.rank(q.change, s.name) == -1
  {
    (q: Query) => ScoreText(m, q.change, s.name)
  }

  /** `Query.MatchOnOff`: the change text against "on" or "off". */
  function MatchOnOff(m: Matchers, onOff: string): (f: Query -> real)
    ensures forall q: Query :: f(q) < 0.0 <==> onOff != [] && m.rank(q.change, onOff) == -1
  {
    (q: Query) => ScoreText(m, q.change, onOff)
  }

  /** `Query.MatchColor`: the parsed colour and 1, or "" and -1. */
  function MatchColor(m: Matchers): (f: Query -> (string, real))
    ensures forall q: Query :: f(q).1 >= 0.0 <==> m.color(q.change).Some?
    ensures forall q: Query :: m.color(q.change).Some? ==> f(q).0 == m.color(q.change).value
    ensures forall q: Query :: m.color(q.change).None? ==> f(q) == ("", -1.0)
  {
    (q: Query) => match m.color(q.change)
      case None => ("", -1.0)
      case Some(hex) => (hex, 1.0)
  }

  //
  // MatchScore.AsFloat64
  //

  /** Every row has the length of the first. */
  predicate Uniform(m: Buffer) {
    forall r :: 0 <= r < |m| ==> |m[r]| == |m[0]|
  }

  /** The sum of the column maxima of columns 0 to k - 1. */
  function SumMaxes(m: Buffer, k: nat): real
    requires |m| > 0 && Uniform(m) && k <= |m[0]|
  {
    if k == 0 then 0.0 else SumMaxes(m, k - 1) + ColMax(m, k - 1)
  }

  /** The sum of the first `k` entries of a row. */
  function RowSum(row: Row, k: nat): real
    requires k <= |row|
  {
    if k == 0 then 0.0 else RowSum(row, k - 1) + row[k - 1]
  }

  /**
   * The value of `AsFloat64`: 0 for an empty buffer or one whose rows differ
   * in length, else minus the sum of the column-wise maxima.
   */
  function MatchTotal(m: Buffer): real {
    if |m| == 0 || !Uniform(m) then 0.0 else -SumMaxes(m, |m[0]|)
  }

  lemma {:induction false} SumMaxesBound(m: Buffer, k: nat, r: nat)
    requires |m| > 0 && Uniform(m) && k <= |m[0]| && r < |m|
    ensures RowSum(m[r], k) <= SumMaxes(m, k)
  {
    if k > 0 {
      SumMaxesBound(m, k - 1, r);
      ColMaxIsMax(m, k - 1);
    }
  }

  /**
   * The total of a well-formed buffer is at most minus the sum of any of
   * its rows: the best score per column is the one kept.
   */
  lemma MatchTotalBound(m: Buffer, r: nat)
    requires |m| > 0 && Uniform(m) && r < |m|
    ensures MatchTotal(m) <= -RowSum(m[r], |m[r]|)
  {
    SumMaxesBound(m, |m[0]|, r);
  }

  lemma {:induction false} SumMaxesSingle(row: Row, k: nat)
    requires k <= |row|
    ensures SumMaxes([row], k) == RowSum(row, k)
  {
    if k > 0 {
      SumMaxesSingle(row, k - 1);
    }
  }

  /** A buffer with a single row totals to minus the sum of that row. */
  lemma MatchTotalSingle(row: Row)
    ensures MatchTotal([row]) == -RowSum(row, |row|)
  {
    SumMaxesSingle(row, |row|);
  }

  lemma ColMaxPrefix(m: Buffer, r: nat, j: nat)
    requires 0 < r < |m| && HasColumn(m[..r + 1], j)
    ensures HasColumn(m[..r], j)
    ensures ColMax(m[..r + 1], j) == Max(ColMax(m[..r], j), m[r][j])
  {
    assert m[..r + 1][..r] == m[..r];
  }

  /** `MatchScore.AsFloat64`: column maxima kept in a scratch array, then summed. */
  method AsFloat64(m: Buffer) returns (total: real)
    ensures total == MatchTotal(m)
  {
    if |m| == 0 {
      return 0.0;
    }
    var count := |m[0]|;
    var maxes := new real[count];
    for i := 0 to count
      invariant forall j :: 0 <= j < i ==> maxes[j] == m[0][j]
    {
      maxes[i] := m[0][i];
    }
    assert m[..1] == [m[0]];
    for r := 1 to |m|
      invariant forall rr :: 0 <= rr < r ==> |m[rr]| == count
      invariant forall j :: 0 <= j < count ==> HasColumn(m[..r], j) && maxes[j] == ColMax(m[..r], j)
    {
      var score := m[r];
      if |score| != count {
        return 0.0;
      }
      for i := 0 to count
        invariant forall j :: 0 <= j < i ==> maxes[j] == ColMax(m[..r + 1], j)
        invariant forall j :: i <= j < count ==> maxes[j] == ColMax(m[..r], j)
      {
        ColMaxPrefix(m, r, i);
        if score[i] > maxes[i] {
          maxes[i] := score[i];
        }
      }
    }
    assert m[..|m|] == m;
    total := 0.0;
    for i := 0 to count
      invariant total == -SumMaxes(m, i)
    {
      total := total - maxes[i];
    }
  }

  //
  // The score tuple
  //

  /** `kindScore`: group on/off first, then group scenes, then light on/off. */
  function KindScore(action: Action): (k: real)
    ensures k == 0.0 <==> action.group.Some? && action.onOff != BoolAny
    ensures k == 1.0 <==> action.group.Some? && action.onOff == BoolAny && action.scene.Some?
    ensures k == 2.0 <==> action.group.None? && action.light.Some? && action.onOff != BoolAny
    ensures k == 3.0 <==> !(action.group.Some? && (action.onOff != BoolAny || action.scene.Some?))
                          && !(action.light.Some? && action.onOff != BoolAny)
  {
    var isLight := action.light.Some?;
    var isGroup := action.group.Some?;
    var isScene := action.scene.Some?;
    var isOnOff := action.onOff != BoolAny;
    if isGroup && isOnOff then 0.0
    else if isGroup && isScene then 1.0
    else if isLight && isOnOff then 2.0
    else 3.0
  }

  /** `itemIndexScore`: the negated ID of the group, else of the light. */
  function ItemIndexScore(action: Action): (r: real)
    ensures action.group.Some? ==> r == -(action.group.value.id as real)
    ensures action.group.None? && action.light.Some? ==> r == -(action.light.value.id as real)
    ensures action.group.None? && action.light.None? ==> r == 0.0
  {
    if action.group.Some? then -(action.group.value.id as real)
    else if action.light.Some? then -(action.light.value.id as real)
    else 0.0
  }

  /** `actionIndexScore`: a scene's numeric ID, else 1 for "on", 2 for "off". */
  function ActionIndexScore(action: Action): (r: real)
    ensures action.scene.Some? ==> MinInt64 as real <= r <= MaxInt64 as real
    ensures action.scene.None? ==> (r == 1.0 <==> action.onOff == BoolOn)
    ensures action.scene.None? ==> (r == 2.0 <==> action.onOff == BoolOff)
    ensures action.scene.None? ==> (r == 0.0 <==> action.onOff != BoolOn && action.onOff != BoolOff)
  {
    if action.scene.Some? then Atoi(action.scene.value.id) as real
    else if action.onOff == BoolOn then 1.0
    else if action.onOff == BoolOff then 2.0
    else 0.0
  }

  /** `Action.score`: the 4-part score of an action with its score buffer. */
  function ScoreOf(action: Action, m: Buffer): Score {
    [MatchTotal(m), KindScore(action), ItemIndexScore(action), ActionIndexScore(action)]
  }

  /** `Action.score`, computing the match part with `AsFloat64`. */
  method ActionScore(action: Action, m: Buffer) returns (s: Score)
    ensures s == ScoreOf(action, m)
  {
    var total := AsFloat64(m);
    s := [total, KindScore(action), ItemIndexScore(action), ActionIndexScore(action)];
  }

  /** A scene whose ID is a decimal 64-bit number is indexed by that number. */
  lemma SceneActionIndex(action: Action, n: int)
    requires action.scene.Some? && action.scene.value.id == Itoa(n)
    requires MinInt64 <= n <= MaxInt64
    ensures ActionIndexScore(action) == n as real
  {
    AtoiItoa(n);
  }

  //
  // Score.Less
  //

  /** Strict lexicographic order on equally long score sequences. */
  function LexLess(a: seq<real>, b: seq<real>): (r: bool)
    requires |a| == |b|
    ensures r ==> a != b
  {
    if a == [] then false
    else if a[0] < b[0] then true
    else if a[0] > b[0] then false
    else LexLess(a[1..], b[1..])
  }

  lemma {:induction false} LexLessIrreflexive(a: seq<real>)
    ensures !LexLess(a, a)
  {
    if a != [] {
      LexLessIrreflexive(a[1..]);
    }
  }

  lemma {:induction false} LexLessTransitive(a: seq<real>, b: seq<real>, c: seq<real>)
    requires |a| == |b| == |c|
    requires LexLess(a, b) && LexLess(b, c)
    ensures LexLess(a, c)
  {
    if a[0] == b[0] == c[0] {
      LexLessTransitive(a[1..], b[1..], c[1..]);
    }
  }

  /** `LexLess` holds exactly when, at the first differing component, `a`'s is smaller. */
  lemma {:induction false} LexLessFirstDifference(a: seq<real>, b: seq<real>)
    requires |a| == |b|
    ensures LexLess(a, b) <==> exists k :: 0 <= k < |a| && a[..k] == b[..k] && a[k] < b[k]
  {
    if a != [] {
      LexLessFirstDifference(a[1..], b[1..]);
      if LexLess(a, b) {
        if a[0] < b[0] {
          assert a[..0] == b[..0];
        } else {
          var k :| 0 <= k < |a[1..]| && a[1..][..k] == b[1..][..k] && a[1..][k] < b[1..][k];
          assert a[..k + 1] == [a[0]] + a[1..][..k];
          assert b[..k + 1] == [b[0]] + b[1..][..k];
          assert a[k + 1] < b[k + 1];
        }
      }
      if exists k :: 0 <= k < |a| && a[..k] == b[..k] && a[k] < b[k] {
        var k :| 0 <= k < |a| && a[..k] == b[..k] && a[k] < b[k];
        if k > 0 {
          assert a[..k][0] == b[..k][0];
          assert a[1..][..k - 1] == a[..k][1..] && b[1..][..k - 1] == b[..k][1..];
          assert a[1..][k - 1] < b[1..][k - 1];
        }
      }
    }
  }

  lemma {:induction false} LexLessTotal(a: seq<real>, b: seq<real>)
    requires |a| == |b| && a != b
    ensures LexLess(a, b) || LexLess(b, a)
  {
    if a[0] == b[0] {
      assert a == [a[0]] + a[1..] && b == [b[0]] + b[1..];
      LexLessTotal(a[1..], b[1..]);
    }
  }

  lemma {:induction false} LexLessAsymmetric(a: seq<real>, b: seq<real>)
    requires |a| == |b| && LexLess(a, b)
    ensures !LexLess(b, a)
  {
    if a[0] == b[0] {
      LexLessAsymmetric(a[1..], b[1..]);
    }
  }

  /** "Not less" chains: the order is a total preorder. */
  lemma NotLessTransitive(a: seq<real>, b: seq<real>, c: seq<real>)
    requires |a| == |b| == |c|
    requires !LexLess(b, a) && !LexLess(c, b)
    ensures !LexLess(c, a)
  {
    if a != b {
      LexLessTotal(a, b);
      if LexLess(c, a) {
        LexLessTransitive(c, a, b);
      }
    }
  }

  lemma {:induction false} LexLessFrom(a: seq<real>, b: seq<real>, i: nat)
    requires |a| == |b| && i <= |a| && a[..i] == b[..i]
    ensures LexLess(a, b) == LexLess(a[i..], b[i..])
  {
    if i > 0 {
      assert a[0] == a[..i][0] == b[..i][0] == b[0];
      assert a[1..][..i - 1] == a[1..i] == b[1..i] == b[1..][..i - 1];
      LexLessFrom(a[1..], b[1..], i - 1);
      assert a[1..][i - 1..] == a[i..] && b[1..][i - 1..] == b[i..];
    }
  }

  /** `Score.Less`: compares component by component until they differ. */
  method ScoreLess(s: Score, other: Score) returns (less: bool)
    ensures less == LexLess(s, other)
  {
    for i := 0 to 4
      invariant s[..i] == other[..i]
    {
      LexLessFrom(s, other, i);
      var a := s[i];
      var b := other[i];
      if a < b {
        return true;
      }
      if a > b {
        return false;
      }
      assert s[..i + 1] == s[..i] + [a] && other[..i + 1] == other[..i] + [b];
    }
    assert s == other;
    LexLessIrreflexive(s);
    return false;
  }

  /**
   * At equal match quality, a group on/off action outranks a group scene,
   * which outranks a light on/off action, which outranks the rest.
   */
  lemma KindRanks(a: Action, ma: Buffer, b: Action, mb: Buffer)
    requires MatchTotal(ma) == MatchTotal(mb) && KindScore(a) < KindScore(b)
    ensures LexLess(ScoreOf(a, ma), ScoreOf(b, mb))
  {
    var sa, sb := ScoreOf(a, ma), ScoreOf(b, mb);
    assert sa[1..][0] == KindScore(a) && sb[1..][0] == KindScore(b);
  }

  /** At equal match and kind, the group or light with the higher ID comes first. */
  lemma HigherIdRanksFirst(a: Action, ma: Buffer, b: Action, mb: Buffer)
    requires MatchTotal(ma) == MatchTotal(mb) && KindScore(a) == KindScore(b)
    requires a.group.Some? && b.group.Some? && a.group.value.id > b.group.value.id
    ensures LexLess(ScoreOf(a, ma), ScoreOf(b, mb))
  {
    var sa, sb := ScoreOf(a, ma), ScoreOf(b, mb);
    assert sa[1..][1..][0] == ItemIndexScore(a) && sb[1..][1..][0] == ItemIndexScore(b);
  }

  //
  // Results
  //

  /** One result with its score and score buffer. */
  datatype Entry = Entry(action: Action, score: Score, matchScore: Buffer)

  /** The entries three aligned lists describe. */
  function Zip(actions: seq<Action>, scores: seq<Score>, matchScores: seq<Buffer>): (es: seq<Entry>)
    requires |actions| == |scores| == |matchScores|
    ensures |es| == |actions|
  {
    seq(|actions|, i requires 0 <= i < |actions| => Entry(actions[i], scores[i], matchScores[i]))
  }

  /** Non-decreasing under `Score.Less`. */
  predicate Sorted(s: seq<Score>) {
    forall a, b :: 0 <= a < b < |s| ==> !LexLess(s[b], s[a])
  }

  /** Each neighbour is not less than its predecessor. */
  predicate AdjacentSorted(s: seq<Score>, lo: nat, hi: nat)
    requires lo <= hi <= |s|
  {
    forall k :: lo < k < hi ==> !LexLess(s[k], s[k - 1])
  }

  lemma {:induction false} AdjacentSortedIsSorted(s: seq<Score>, n: nat)
    requires n <= |s| && AdjacentSorted(s, 0, n)
    ensures Sorted(s[..n])
  {
    if n > 1 {
      AdjacentSortedIsSorted(s, n - 1);
      forall a | 0 <= a < n - 1 ensures !LexLess(s[n - 1], s[a]) {
        if a < n - 2 {
          assert !LexLess(s[n - 2], s[a]) by {
            assert s[..n - 1][n - 2] == s[n - 2] && s[..n - 1][a] == s[a];
          }
          NotLessTransitive(s[a], s[n - 2], s[n - 1]);
        }
      }
    }
  }

  /**
   * While the entry that started at `i` sits at `j`: every neighbouring pair
   * up to `i` is ordered except around `j`, and `j`'s neighbours are ordered
   * with each other.
   */
  predicate InsertInvariant(s: seq<Score>, i: nat, j: nat)
    requires j <= i < |s|
  {
    && (forall k :: 0 < k <= i && k != j ==> !LexLess(s[k], s[k - 1]))
    && (0 < j < i ==> !LexLess(s[j + 1], s[j - 1]))
  }

  lemma InsertStart(s: seq<Score>, i: nat)
    requires i < |s| && AdjacentSorted(s, 0, i)
    ensures InsertInvariant(s, i, i)
  {
  }

  /** Moving the entry at `j` one place down keeps the invariant. */
  lemma InsertStep(s: seq<Score>, i: nat, j: nat)
    requires 0 < j <= i < |s| && InsertInvariant(s, i, j) && LexLess(s[j], s[j - 1])
    ensures InsertInvariant(s[j := s[j - 1]][j - 1 := s[j]], i, j - 1)
  {
    LexLessAsymmetric(s[j], s[j - 1]);
  }

  /** The entry stops at `j` once its lower neighbour is not greater. */
  lemma InsertDone(s: seq<Score>, i: nat, j: nat)
    requires j <= i < |s| && InsertInvariant(s, i, j)
    requires j == 0 || !LexLess(s[j], s[j - 1])
    ensures AdjacentSorted(s, 0, i + 1)
  {
  }

  /** Swapping two positions of a sequence keeps its multiset. */
  lemma SwapPermutes<T>(s: seq<T>, i: nat, j: nat)
    requires i < |s| && j < |s|
    ensures multiset(s[i := s[j]][j := s[i]]) == multiset(s)
  {
  }

  class Results {
    var actions: seq<Action>
    var scores: seq<Score>
    var matchScores: seq<Buffer>

    /** The three lists are aligned. */
    ghost predicate Valid()
      reads this
    {
      |actions| == |scores| == |matchScores|
    }

    /** The entries the three lists describe together. */
    ghost function Entries(): seq<Entry>
      reads this
      requires |actions| == |scores| == |matchScores|
    {
      Zip(actions, scores, matchScores)
    }

    constructor()
      ensures Valid() && actions == [] && scores == [] && matchScores == []
    {
      actions, scores, matchScores := [], [], [];
    }

    /** `Reset`: empties all three lists, whatever they held before. */
    method Reset(cap: int)
      modifies this
      ensures Valid() && actions == [] && scores == [] && matchScores == []
    {
      actions := [];
      scores := [];
      matchScores := [];
    }

    /** `Add`: one entry more on each list, scored from its own buffer. */
    method Add(action: Action, matchScore: Buffer)
      requires Valid()
      modifies this
      ensures Valid()
      ensures actions == old(actions) + [action]
      ensures scores == old(scores) + [ScoreOf(action, matchScore)]
      ensures matchScores == old(matchScores) + [matchScore]
      ensures Entries() == old(Entries()) + [Entry(action, ScoreOf(action, matchScore), matchScore)]
    {
      actions := actions + [action];
      var s := ActionScore(action, matchScore);
      scores := scores + [s];
      matchScores := matchScores + [matchScore];
      assert Entries() == old(Entries()) + [Entry(action, s, matchScore)];
    }

    /** `Len`. */
    function Len(): (n: int)
      reads this
      requires Valid()
      ensures n == |actions| == |scores| == |matchScores|
    {
      |actions|
    }

    /** `Less`: the score at `i` is less than the score at `j`. */
    method Less(i: nat, j: nat) returns (less: bool)
      requires i < |scores| && j < |scores|
      ensures less == LexLess(scores[i], scores[j])
    {
      less := ScoreLess(scores[i], scores[j]);
    }

    /** `Swap`: exchanges positions `i` and `j` on all three lists at once. */
    method Swap(i: nat, j: nat)
      requires Valid() && i < |actions| && j < |actions|
      modifies this
      ensures Valid()
      ensures actions == old(actions)[i := old(actions)[j]][j := old(actions)[i]]
      ensures scores == old(scores)[i := old(scores)[j]][j := old(scores)[i]]
      ensures matchScores == old(matchScores)[i := old(matchScores)[j]][j := old(matchScores)[i]]
      ensures Entries() == old(Entries())[i := old(Entries())[j]][j := old(Entries())[i]]
    {
      actions := actions[i := actions[j]][j := actions[i]];
      scores := scores[i := scores[j]][j := scores[i]];
      matchScores := matchScores[i := matchScores[j]][j := matchScores[i]];
    }

    /**
     * One insertion step of the sort: moves the entry at `i` down past the
     * entries whose scores are greater, through `Less` and `Swap`.
     */
    method Insert(i: nat)
      requires Valid() && i < |actions| && AdjacentSorted(scores, 0, i)
      modifies this
      ensures Valid() && |actions| == old(|actions|)
      ensures multiset(Entries()) == multiset(old(Entries()))
      ensures AdjacentSorted(scores, 0, i + 1)
    {
      var j := i;
      InsertStart(scores, i);
      while j > 0
        invariant 0 <= j <= i
        invariant Valid() && |actions| == old(|actions|)
        invariant multiset(Entries()) == multiset(old(Entries()))
        invariant InsertInvariant(scores, i, j)
      {
        var less := Less(j, j - 1);
        if !less {
          break;
        }
        SwapDown(i, j);
        j := j - 1;
      }
      InsertDone(scores, i, j);
    }

    /** One step of `Insert`: the entry at `j` trades places with its greater lower neighbour. */
    method SwapDown(i: nat, j: nat)
      requires Valid() && 0 < j <= i < |actions|
      requires InsertInvariant(scores, i, j) && LexLess(scores[j], scores[j - 1])
      modifies this
      ensures Valid() && |actions| == old(|actions|)
      ensures multiset(Entries()) == multiset(old(Entries()))
      ensures InsertInvariant(scores, i, j - 1)
    {
      InsertStep(scores, i, j);
      SwapPermutes(Entries(), j, j - 1);
      Swap(j, j - 1);
    }

    /**
     * `Results`: sorts the entries (here by insertion; `sort.Sort` promises
     * no particular algorithm and no stability) and returns the three lists.
     */
    method Results() returns (acts: seq<Action>, ms: seq<Buffer>, ss: seq<Score>)
      requires Valid()
      modifies this
      ensures Valid()
      ensures multiset(Entries()) == multiset(old(Entries()))
      ensures Sorted(scores)
      ensures acts == actions && ms == matchScores && ss == scores
    {
      var n := |actions|;
      for i := 0 to n
        invariant Valid() && |actions| == n
        invariant multiset(Entries()) == multiset(old(Entries()))
        invariant AdjacentSorted(scores, 0, i)
      {
        Insert(i);
      }
      AdjacentSortedIsSorted(scores, n);
      assert scores[..n] == scores;
      return actions, matchScores, scores;
    }
  }

  //
  // ScoreQueries
  //

  /** The score part of an annotated scoring. */
  function ScoreOnly<A>(scoring: Query -> (A, real)): Query -> real {
    (q: Query) => scoring(q).1
  }

  /** A scoring with an empty annotation, as `ScoreFinal` wraps it. */
  function WithUnit(scoring: Query -> real): Query -> ((), real) {
    (q: Query) => ((), scoring(q))
  }

  /** The annotation of the first query that scores non-negatively, else `zero`. */
  function FirstAnnot<A>(qs: seq<Query>, scoring: Query -> (A, real), zero: A): A {
    if qs == [] then zero
    else if scoring(qs[0]).1 < 0.0 then FirstAnnot(qs[1..], scoring, zero)
    else scoring(qs[0]).0
  }

  /**
   * The annotation kept is the one of the first query that scores
   * non-negatively, or `zero` when there is none.
   */
  lemma {:induction false} FirstAnnotIsFirst<A>(qs: seq<Query>, scoring: Query -> (A, real), zero: A, k: nat)
    requires k <= |qs|
    requires forall i :: 0 <= i < k ==> scoring(qs[i]).1 < 0.0
    requires k < |qs| ==> scoring(qs[k]).1 >= 0.0
    ensures FirstAnnot(qs, scoring, zero) == if k < |qs| then scoring(qs[k]).0 else zero
  {
    if k > 0 {
      FirstAnnotIsFirst(qs[1..], scoring, zero, k - 1);
    }
  }

  class ScoreQueries {
    var queries: seq<Query>
    var scores: Buffer

    /** One score row per query. */
    ghost predicate Valid()
      reads this
    {
      |queries| == |scores|
    }

    constructor()
      ensures Valid() && queries == [] && scores == []
    {
      queries, scores := [], [];
    }

    /** `Use`: a copy of the queries, each with an empty score row. */
    method Use(qs: seq<Query>)
      modifies this
      ensures Valid() && queries == qs && scores == EmptyRows(|qs|)
    {
      queries := qs;
      scores := EmptyRows(|qs|);
    }

    /**
     * `Score`: keeps the queries that score non-negatively, in order, each
     * with the score appended to its row; reports whether any survived.
     */
    method Score(scoring: Query -> real) returns (any: bool)
      requires Valid()
      modifies this
      ensures Valid()
      ensures (queries, scores) == KeepScored(old(queries), old(scores), scoring)
      ensures any <==> queries != []
    {
      var kept: seq<Query> := [];
      var rows: Buffer := [];
      for i := 0 to |queries|
        invariant (kept, rows) == KeepScored(queries[..i], scores[..i], scoring)
      {
        assert queries[..i + 1][..i] == queries[..i] && scores[..i + 1][..i] == scores[..i];
        var q := queries[i];
        var score := scoring(q);
        if score < 0.0 {
          continue;
        }
        kept := kept + [q];
        rows := rows + [scores[i] + [score]];
      }
      assert queries[..|queries|] == queries && scores[..|scores|] == scores;
      queries, scores := kept, rows;
      any := |queries| > 0;
    }

    /**
     * `ScoreFinalAnnot`: the same filtering into fresh lists, leaving the
     * buffer as it is, together with the first survivor's annotation.
     */
    method ScoreFinalAnnot<A>(scoring: Query -> (A, real), zero: A) returns (rows: Buffer, kept: seq<Query>, annot: A)
      requires Valid()
      ensures (kept, rows) == KeepScored(queries, scores, ScoreOnly(scoring))
      ensures annot == FirstAnnot(queries, scoring, zero)
    {
      kept := [];
      rows := [];
      annot := zero;
      var hadAnnot := false;
      for i := 0 to |queries|
        invariant (kept, rows) == KeepScored(queries[..i], scores[..i], ScoreOnly(scoring))
        invariant annot == FirstAnnot(queries[..i], scoring, zero)
        invariant hadAnnot <==> exists k :: 0 <= k < i && scoring(queries[k]).1 >= 0.0
        invariant !hadAnnot ==> annot == zero
      {
        assert queries[..i + 1][..i] == queries[..i] && scores[..i + 1][..i] == scores[..i];
        FirstAnnotPrefix(queries, scoring, zero, i);
        var q := queries[i];
        var (lAnnot, score) := scoring(q);
        if score < 0.0 {
          continue;
        }
        if !hadAnnot {
          hadAnnot := true;
          annot := lAnnot;
        }
        kept := kept + [q];
        rows := rows + [scores[i] + [score]];
      }
      assert queries[..|queries|] == queries && scores[..|scores|] == scores;
    }

    /** `ScoreFinal`: `ScoreFinalAnnot` with an empty annotation. */
    method ScoreFinal(scoring: Query -> real) returns (rows: Buffer, kept: seq<Query>)
      requires Valid()
      ensures (kept, rows) == KeepScored(queries, scores, scoring)
    {
      var unit;
      rows, kept, unit := ScoreFinalAnnot(WithUnit(scoring), ());
      KeepScoredExt(queries, scores, ScoreOnly(WithUnit(scoring)), scoring);
    }
  }

  /**
   * How the first annotation of a prefix grows by one query: unchanged once
   * some query survived, else decided by the new query.
   */
  lemma {:induction false} FirstAnnotPrefix<A>(qs: seq<Query>, scoring: Query -> (A, real), zero: A, i: nat)
    requires i < |qs|
    ensures FirstAnnot(qs[..i + 1], scoring, zero) ==
      if exists k :: 0 <= k < i && scoring(qs[k]).1 >= 0.0 then FirstAnnot(qs[..i], scoring, zero)
      else if scoring(qs[i]).1 >= 0.0 then scoring(qs[i]).0
      else zero
  {
    if i > 0 {
      assert qs[..i + 1][1..] == qs[1..][..i];
      assert qs[..i][1..] == qs[1..][..i - 1];
      FirstAnnotPrefix(qs[1..], scoring, zero, i - 1);
      if scoring(qs[0]).1 < 0.0 {
        if exists k :: 1 <= k < i && scoring(qs[k]).1 >= 0.0 {
          var k :| 1 <= k < i && scoring(qs[k]).1 >= 0.0;
          assert scoring(qs[1..][k - 1]).1 >= 0.0;
        } else {
          assert !exists k :: 0 <= k < i - 1 && scoring(qs[1..][k]).1 >= 0.0 by {
            forall k | 0 <= k < i - 1 ensures scoring(qs[1..][k]).1 < 0.0 {
              assert qs[1..][k] == qs[k + 1];
            }
          }
        }
      }
    }
  }
}

/**
 * The score buffer both generations of the engine share: a list of candidate
 * queries, each with a row of the scores it has collected so far. Scoring a
 * buffer against one more criterion keeps exactly the queries that score
 * non-negatively, in order, and appends that score to their rows. A
 * finished buffer (one row per surviving query) is folded into a single
 * number by taking, per column, the largest score any row reached.
 *
 * This module holds the specification functions; the classes that mutate
 * such buffers in place live with the source files that define them.
 */
module ScoreBuffer {

  type Row = seq<real>

  type Buffer = seq<Row>

  /** The fixed 4-part score tuple of one ranked action. */
  type Score = s: seq<real> | |s| == 4 witness [0.0, 0.0, 0.0, 0.0]

  /** `n` rows without scores, as `make([][]float64, n)` creates them. */
  function EmptyRows(n: nat): (rows: Buffer)
    ensures |rows| == n
    ensures forall r :: 0 <= r < n ==> rows[r] == []
  {
    seq(n, _ => [])
  }

  //
  // Filtering by a score
  //

  /**
   * The buffer after scoring every query with `scoring`: the queries scoring
   * negatively are dropped, the others keep their order and get the score
   * appended to their row.
   */
  function KeepScored<Q>(qs: seq<Q>, rows: Buffer, scoring: Q -> real): (r: (seq<Q>, Buffer))
    requires |qs| == |rows|
    ensures |r.0| == |r.1| <= |qs|
  {
    if qs == [] then ([], [])
    else
      var n := |qs| - 1;
      var rest := KeepScored(qs[..n], rows[..n], scoring);
      var s := scoring(qs[n]);
      if s < 0.0 then rest else (rest.0 + [qs[n]], rest.1 + [rows[n] + [s]])
  }

  /** The positions of the queries that score non-negatively, in order. */
  function Survivors<Q>(qs: seq<Q>, scoring: Q -> real): (ix: seq<nat>)
    ensures |ix| <= |qs|
    ensures forall k :: 0 <= k < |ix| ==> ix[k] < |qs|
  {
    if qs == [] then []
    else
      var n := |qs| - 1;
      var rest := Survivors(qs[..n], scoring);
      if scoring(qs[n]) < 0.0 then rest else rest + [n]
  }

  /**
   * The survivors are listed in increasing order, and a position is listed
   * exactly when its query scores non-negatively.
   */
  lemma {:induction false} SurvivorsExact<Q>(qs: seq<Q>, scoring: Q -> real)
    ensures var ix := Survivors(qs, scoring);
      && (forall a, b :: 0 <= a < b < |ix| ==> ix[a] < ix[b])
      && (forall i :: 0 <= i < |qs| ==> (i in ix <==> scoring(qs[i]) >= 0.0))
  {
    if qs != [] {
      var n := |qs| - 1;
      SurvivorsExact(qs[..n], scoring);
      forall i | 0 <= i < n ensures qs[..n][i] == qs[i] { }
    }
  }

  /**
   * Scoring a buffer selects the surviving positions: the k-th kept query is
   * the query at the k-th survivor, and its row is that position's old row
   * with the new score appended.
   */
  lemma {:induction false} KeepScoredSelects<Q>(qs: seq<Q>, rows: Buffer, scoring: Q -> real)
    requires |qs| == |rows|
    ensures var r := KeepScored(qs, rows, scoring);
      var ix := Survivors(qs, scoring);
      && |r.0| == |ix|
      && forall k :: 0 <= k < |ix| ==>
           r.0[k] == qs[ix[k]] && r.1[k] == rows[ix[k]] + [scoring(qs[ix[k]])]
  {
    if qs != [] {
      var n := |qs| - 1;
      KeepScoredSelects(qs[..n], rows[..n], scoring);
    }
  }

  /** Nothing survives exactly when every query scores negatively. */
  lemma {:induction false} KeepScoredEmpty<Q>(qs: seq<Q>, rows: Buffer, scoring: Q -> real)
    requires |qs| == |rows|
    ensures KeepScored(qs, rows, scoring).0 == [] <==> forall i :: 0 <= i < |qs| ==> scoring(qs[i]) < 0.0
  {
    if qs != [] {
      var n := |qs| - 1;
      KeepScoredEmpty(qs[..n], rows[..n], scoring);
      assert forall i :: 0 <= i < n ==> qs[..n][i] == qs[i];
    }
  }

  /** Only the scores given to the buffer's own queries matter. */
  lemma {:induction false} KeepScoredExt<Q>(qs: seq<Q>, rows: Buffer, f: Q -> real, g: Q -> real)
    requires |qs| == |rows|
    requires forall i :: 0 <= i < |qs| ==> f(qs[i]) == g(qs[i])
    ensures KeepScored(qs, rows, f) == KeepScored(qs, rows, g)
  {
    if qs != [] {
      var n := |qs| - 1;
      assert forall i :: 0 <= i < n ==> qs[..n][i] == qs[i];
      KeepScoredExt(qs[..n], rows[..n], f, g);
    }
  }

  /** Every row of a scored buffer ends with the score its query got. */
  lemma KeepScoredRows<Q>(qs: seq<Q>, rows: Buffer, scoring: Q -> real)
    requires |qs| == |rows|
    ensures var r := KeepScored(qs, rows, scoring);
      forall k :: 0 <= k < |r.1| ==>
        |r.1[k]| > 0 && r.1[k][|r.1[k]| - 1] == scoring(r.0[k]) >= 0.0
  {
    KeepScoredSelects(qs, rows, scoring);
    SurvivorsExact(qs, scoring);
    var r := KeepScored(qs, rows, scoring);
    var ix := Survivors(qs, scoring);
    forall k | 0 <= k < |r.1|
      ensures |r.1[k]| > 0 && r.1[k][|r.1[k]| - 1] == scoring(r.0[k]) >= 0.0
    {
      assert ix[k] in ix;
    }
  }

  //
  // Column maxima
  //

  function Max(a: real, b: real): (m: real)
    ensures m >= a && m >= b && (m == a || m == b)
  {
    if b > a then b else a
  }

  /** Every row of `m` has a column `j`. */
  predicate HasColumn(m: Buffer, j: nat) {
    forall r :: 0 <= r < |m| ==> j < |m[r]|
  }

  /** The largest score in column `j`, scanning the rows in order. */
  function ColMax(m: Buffer, j: nat): real
    requires |m| > 0 && HasColumn(m, j)
  {
    if |m| == 1 then m[0][j] else Max(ColMax(m[..|m| - 1], j), m[|m| - 1][j])
  }

  /** The column maximum bounds every entry of its column and is one of them. */
  lemma {:induction false} ColMaxIsMax(m: Buffer, j: nat)
    requires |m| > 0 && HasColumn(m, j)
    ensures forall r :: 0 <= r < |m| ==> m[r][j] <= ColMax(m, j)
    ensures exists r :: 0 <= r < |m| && m[r][j] == ColMax(m, j)
  {
    if |m| > 1 {
      var n := |m| - 1;
      ColMaxIsMax(m[..n], j);
      var r0 :| 0 <= r0 < n && m[..n][r0][j] == ColMax(m[..n], j);
      assert ColMax(m, j) == Max(ColMax(m[..n], j), m[n][j]);
      forall r | 0 <= r < n
        ensures m[r][j] <= ColMax(m, j)
      {
        assert m[r] == m[..n][r];
      }
      if ColMax(m, j) == m[n][j] {
        assert m[n][j] == ColMax(m, j);
      } else {
        assert m[r0] == m[..n][r0];
        assert m[r0][j] == ColMax(m, j);
      }
    } else {
      assert m[0][j] == ColMax(m, j);
    }
  }
}

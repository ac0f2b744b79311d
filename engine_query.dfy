/**
 * engine/query.go: splitting a command into candidate (name, change) passes.
 *
 * The text is lower-cased and split into whitespace-separated fields. A few
 * passes come from the keywords "turn", "on", "off" and "to"; then every
 * split point i = 0..n contributes the pass (fields[..i], fields[i..]).
 * The keyword positions are recorded 0-based with 0 standing for "unset", so
 * a keyword in the first position counts as absent.
 *
 * `ParseChange` is not part of this model: a pass carries its change
 * fragment as the joined text.
 */
module EngineQuery {
  import opened Text
  import EngineAction

  /** One candidate reading: which entity is named, and which change is asked for. */
  datatype Query = Query(name: string, change: string)

  const Turn: string := "turn"
  const On: string := EngineAction.BoolOn
  const Off: string := EngineAction.BoolOff
  const To: string := "to"

  /** `parseQueryPrebuilts`: the keywords whose positions are recorded. */
  const Keywords: set<string> := {Turn, On, Off, To}

  //
  // makeQueryIndexes
  //

  /**
   * The position recorded for keyword `k` after scanning `fields[..upto]`:
   * a position is stored only while the entry still reads 0.
   */
  function ScanIndex(fields: seq<string>, k: string, upto: nat): nat
    requires upto <= |fields|
  {
    if upto == 0 then 0
    else
      var prev := ScanIndex(fields, k, upto - 1);
      if fields[upto - 1] == k && prev == 0 then upto - 1 else prev
  }

  /** The position `makeQueryIndexes` records for keyword `k`. */
  function KeywordIndex(fields: seq<string>, k: string): nat {
    ScanIndex(fields, k, |fields|)
  }

  lemma {:induction false} ScanIndexMeaning(fields: seq<string>, k: string, upto: nat)
    requires upto <= |fields|
    ensures var x := ScanIndex(fields, k, upto);
      && (x == 0 <==> forall i :: 1 <= i < upto ==> fields[i] != k)
      && (x != 0 ==> x < upto && fields[x] == k && forall i :: 1 <= i < x ==> fields[i] != k)
  {
    if upto > 0 {
      ScanIndexMeaning(fields, k, upto - 1);
    }
  }

  /**
   * The recorded position is the first occurrence of the keyword after the
   * first field, or 0 when there is none.
   */
  lemma KeywordIndexMeaning(fields: seq<string>, k: string)
    ensures var x := KeywordIndex(fields, k);
      && (x == 0 <==> forall i :: 1 <= i < |fields| ==> fields[i] != k)
      && (x != 0 ==> x < |fields| && fields[x] == k && forall i :: 1 <= i < x ==> fields[i] != k)
  {
    ScanIndexMeaning(fields, k, |fields|);
  }

  /** A recorded position is always a valid index, so never `len(fields)`. */
  lemma KeywordIndexBound(fields: seq<string>, k: string)
    requires |fields| > 0
    ensures KeywordIndex(fields, k) < |fields|
  {
    KeywordIndexMeaning(fields, k);
  }

  /**
   * The first field never influences a recorded position: a keyword there
   * reads the same as any other word, that is, as absent.
   */
  lemma KeywordIndexIgnoresFirst(fields: seq<string>, other: seq<string>, k: string)
    requires |fields| == |other| > 0 && fields[1..] == other[1..]
    ensures KeywordIndex(fields, k) == KeywordIndex(other, k)
  {
    KeywordIndexMeaning(fields, k);
    KeywordIndexMeaning(other, k);
    assert forall i :: 1 <= i < |fields| ==> fields[i] == fields[1..][i - 1] == other[i];
  }

  /**
   * `makeQueryIndexes`: resets the four keyword entries of a pooled map to
   * 0 and records the keyword positions. The pool only ever holds maps this
   * method returned, so the pooled map has no other keys, and nothing it
   * held before survives.
   */
  method MakeQueryIndexes(values: seq<string>, pooled: map<string, int>) returns (indexes: map<string, int>)
    requires pooled.Keys <= Keywords
    ensures indexes.Keys == Keywords
    ensures forall k :: k in Keywords ==> indexes[k] == KeywordIndex(values, k)
  {
    indexes := pooled;
    var remaining := Keywords;
    while remaining != {}
      invariant remaining <= Keywords
      invariant indexes.Keys == pooled.Keys + (Keywords - remaining)
      invariant forall k :: k in Keywords - remaining ==> indexes[k] == 0
      decreases remaining
    {
      var k :| k in remaining;
      indexes := indexes[k := 0];
      remaining := remaining - {k};
    }
    for i := 0 to |values|
      invariant indexes.Keys == Keywords
      invariant forall k :: k in Keywords ==> indexes[k] == ScanIndex(values, k, i)
    {
      var v := values[i];
      if v !in Keywords {
        continue;
      }
      if indexes[v] == 0 {
        indexes := indexes[v := i];
      }
    }
  }

  //
  // ParseQuery
  //

  /** The fields of the lower-cased input. */
  function InputFields(value: string): seq<string> {
    Fields(Lower(value))
  }

  /** The pass for split point `i`: the first `i` fields name, the rest change. */
  function Split(fields: seq<string>, i: nat): Query
    requires i <= |fields|
  {
    Query(Join(fields[..i]), Join(fields[i..]))
  }

  /** The passes for split points 0 to `k - 1`, in order. */
  function SplitPasses(fields: seq<string>, k: nat): (ps: seq<Query>)
    requires k <= |fields| + 1
    ensures |ps| == k
  {
    if k == 0 then [] else SplitPasses(fields, k - 1) + [Split(fields, k - 1)]
  }

  /** The four recorded keyword positions. */
  datatype Positions = Positions(turn: nat, on: nat, off: nat, to: nat)

  /** The positions `makeQueryIndexes` records for `fields`. */
  function Recorded(fields: seq<string>): (p: Positions)
    ensures |fields| > 0 ==> p.turn < |fields|
  {
    if |fields| > 0 then
      KeywordIndexBound(fields, Turn);
      Positions(KeywordIndex(fields, Turn), KeywordIndex(fields, On), KeywordIndex(fields, Off), KeywordIndex(fields, To))
    else Positions(KeywordIndex(fields, Turn), KeywordIndex(fields, On), KeywordIndex(fields, Off), KeywordIndex(fields, To))
  }

  /** `"turn" "on"|"off" NAME` as the 0-based positions read it. */
  function TurnOnOffPass(fields: seq<string>, p: Positions): seq<Query> {
    var n := |fields|;
    if p.turn == 0 && (p.on == 2 || p.off == 2) && n >= 3
    then [Query(Join(fields[2..]), fields[1])]
    else []
  }

  /** `"on"|"off" NAME`. */
  function OnOffNamePass(fields: seq<string>, p: Positions): seq<Query> {
    var n := |fields|;
    if (p.on == 1 || p.off == 1) && n >= 2
    then [Query(Join(fields[1..]), fields[0])]
    else []
  }

  /** `["turn"] NAME "on"|"off"`, with Go's `||`/`&&` precedence. */
  function NameOnOffPass(fields: seq<string>, p: Positions): seq<Query>
    requires p.turn < |fields|
  {
    var n := |fields|;
    var last := n - 1;
    if p.on == n || (p.off == n && n >= 2)
    then
      var name := if p.turn == 1 then Join(fields[1..last]) else Join(fields[..last]);
      [Query(name, fields[last])]
    else []
  }

  /** `["turn"] NAME "to" CHANGE`. */
  function ToPass(fields: seq<string>, p: Positions): seq<Query> {
    var n := |fields|;
    var to := p.to;
    if to > 1 && n > to + 1 then
      var change := Join(fields[to + 1..]);
      if p.turn == 0 then [Query(Join(fields[1..to]), change)]
      else [Query(Join(fields[..to]), change)]
    else []
  }

  /** The passes the keyword branches add for positions `p`, in the order of the branches. */
  function KeywordPassesAt(fields: seq<string>, p: Positions): seq<Query>
    requires p.turn < |fields|
  {
    TurnOnOffPass(fields, p) + OnOffNamePass(fields, p) + NameOnOffPass(fields, p) + ToPass(fields, p)
  }

  /** The passes the keyword branches add for the recorded positions. */
  function KeywordPasses(fields: seq<string>): seq<Query>
    requires |fields| > 0
  {
    KeywordPassesAt(fields, Recorded(fields))
  }

  /** All passes of `ParseQuery(value)`. */
  function Passes(value: string): seq<Query> {
    var fields := InputFields(value);
    if |fields| == 0 then [] else KeywordPasses(fields) + SplitPasses(fields, |fields| + 1)
  }

  /** The positions an index map holds. */
  function PositionsOf(indexes: map<string, int>): Positions
    requires indexes.Keys == Keywords
    requires forall k :: k in Keywords ==> indexes[k] >= 0
  {
    Positions(indexes[Turn], indexes[On], indexes[Off], indexes[To])
  }

  /**
   * The keyword branches of `ParseQuery`, given the recorded positions: each
   * appends at most one pass.
   */
  method KeywordBranches(fields: seq<string>, indexes: map<string, int>) returns (passes: seq<Query>)
    requires indexes.Keys == Keywords
    requires forall k :: k in Keywords ==> indexes[k] >= 0
    requires indexes[Turn] < |fields|
    ensures passes == KeywordPassesAt(fields, PositionsOf(indexes))
  {
    var n := |fields|;
    var turn, on, off, to := indexes[Turn], indexes[On], indexes[Off], indexes[To];
    ghost var p := PositionsOf(indexes);
    passes := [];

    if turn == 0 && (on == 2 || off == 2) && n >= 3 {
      passes := passes + [Query(Join(fields[2..]), fields[1])];
    }
    ghost var first := passes;
    assert first == TurnOnOffPass(fields, p);

    if (on == 1 || off == 1) && n >= 2 {
      passes := passes + [Query(Join(fields[1..]), fields[0])];
    }
    ghost var second := passes;
    assert second == first + OnOffNamePass(fields, p);

    if on == n || (off == n && n >= 2) {
      var last := n - 1;
      var name;
      if turn == 1 {
        name := Join(fields[1..last]);
      } else {
        name := Join(fields[..last]);
      }
      passes := passes + [Query(name, fields[last])];
    }
    ghost var third := passes;
    assert third == second + NameOnOffPass(fields, p);

    if to > 1 && n > to + 1 {
      var change := Join(fields[to + 1..]);
      if turn == 0 {
        passes := passes + [Query(Join(fields[1..to]), change)];
      } else {
        passes := passes + [Query(Join(fields[..to]), change)];
      }
    }
    assert passes == third + ToPass(fields, p);
  }

  /** `ParseQuery`: the keyword passes, then one pass per split point. */
  method ParseQuery(value: string) returns (passes: seq<Query>)
    ensures passes == Passes(value)
  {
    var fields := InputFields(value);
    if |fields| == 0 {
      return [];
    }
    var indexes := MakeQueryIndexes(fields, map[]);
    KeywordIndexBound(fields, Turn);
    passes := KeywordBranches(fields, indexes);
    assert PositionsOf(indexes) == Recorded(fields);
    assert passes == KeywordPasses(fields);
    passes := SplitBranches(fields, passes);
  }

  /** The split loop of `ParseQuery`: one pass per split point, appended in order. */
  method SplitBranches(fields: seq<string>, keyword: seq<Query>) returns (passes: seq<Query>)
    ensures passes == keyword + SplitPasses(fields, |fields| + 1)
  {
    passes := keyword;
    for i := 0 to |fields| + 1
      invariant passes == keyword + SplitPasses(fields, i)
    {
      passes := passes + [Query(Join(fields[..i]), Join(fields[i..]))];
      assert SplitPasses(fields, i + 1) == SplitPasses(fields, i) + [Split(fields, i)];
      assert passes == keyword + (SplitPasses(fields, i) + [Split(fields, i)]);
    }
  }

  //
  // Properties of the passes
  //

  /** Empty or whitespace-only input gives no passes; anything else gives some. */
  lemma PassesEmpty(value: string)
    ensures Passes(value) == [] <==> forall i :: 0 <= i < |value| ==> IsSpace(value[i])
  {
    var lower := Lower(value);
    FieldsEmpty(lower);
    assert forall i :: 0 <= i < |value| ==> (IsSpace(lower[i]) <==> IsSpace(value[i]));
  }

  lemma {:induction false} SplitPassesAt(fields: seq<string>, k: nat, i: nat)
    requires k <= |fields| + 1 && i < k
    ensures SplitPasses(fields, k)[i] == Split(fields, i)
  {
    if i < k - 1 {
      SplitPassesAt(fields, k - 1, i);
    }
  }

  /**
   * A non-empty input ends with one pass per split point, in order, and the
   * keyword branches add at most three passes before them.
   */
  lemma PassesShape(value: string)
    requires InputFields(value) != []
    ensures var fields := InputFields(value);
      var n := |fields|;
      var ps := Passes(value);
      && n + 1 <= |ps| <= n + 4
      && forall i :: 0 <= i <= n ==> ps[|ps| - (n + 1) + i] == Split(fields, i)
  {
    var fields := InputFields(value);
    var n := |fields|;
    var kw := KeywordPasses(fields);
    KeywordPassesAtMostThree(fields);
    assert Passes(value) == kw + SplitPasses(fields, n + 1);
    SplitPassesAfter(kw, fields);
  }

  lemma KeywordPassesAtMostThree(fields: seq<string>)
    requires |fields| > 0
    ensures |KeywordPasses(fields)| <= 3
  {
    var p := Recorded(fields);
    NameOnOffNeverFires(fields);
    assert |TurnOnOffPass(fields, p)| <= 1;
    assert |OnOffNamePass(fields, p)| <= 1;
    assert |ToPass(fields, p)| <= 1;
  }

  lemma SplitPassesAfter(kw: seq<Query>, fields: seq<string>)
    ensures var ps := kw + SplitPasses(fields, |fields| + 1);
      forall i :: 0 <= i <= |fields| ==> ps[|kw| + i] == Split(fields, i)
  {
    var n := |fields|;
    var ps := kw + SplitPasses(fields, n + 1);
    forall i | 0 <= i <= n ensures ps[|kw| + i] == Split(fields, i) {
      SplitPassesAt(fields, n + 1, i);
    }
  }

  /**
   * The `[turn] NAME on|off` branch can never fire: a recorded position is
   * always below `len(fields)`.
   */
  lemma NameOnOffNeverFires(fields: seq<string>)
    requires |fields| > 0
    ensures NameOnOffPass(fields, Recorded(fields)) == []
  {
    KeywordIndexBound(fields, On);
    KeywordIndexBound(fields, Off);
  }

  /**
   * The "to" pass is added exactly when "to" first occurs (after the first
   * field) at some k > 1 with at least one field after it; its change is
   * the text after "to", its name the text before it, without the first
   * field when no "turn" was recorded.
   */
  lemma ToPassMeaning(fields: seq<string>)
    ensures ToPass(fields, Recorded(fields)) != [] <==>
      exists k :: 1 < k < |fields| - 1 && fields[k] == To && forall i :: 1 <= i < k ==> fields[i] != To
    ensures ToPass(fields, Recorded(fields)) != [] ==>
      var k := KeywordIndex(fields, To);
      ToPass(fields, Recorded(fields)) == [Query(
        Join(if KeywordIndex(fields, Turn) == 0 then fields[1..k] else fields[..k]),
        Join(fields[k + 1..]))]
  {
    KeywordIndexMeaning(fields, To);
    var to := KeywordIndex(fields, To);
    if exists k :: 1 < k < |fields| - 1 && fields[k] == To && forall i :: 1 <= i < k ==> fields[i] != To {
      var k :| 1 < k < |fields| - 1 && fields[k] == To && forall i :: 1 <= i < k ==> fields[i] != To;
      assert to != 0;
      assert to == k;
    }
  }

  /** Any run of fields without upper-case letters joins to text without them. */
  lemma JoinRunNoUpper(fields: seq<string>, i: nat, j: nat)
    requires forall k :: 0 <= k < |fields| ==> NoUpper(fields[k])
    requires i <= j <= |fields|
    ensures NoUpper(Join(fields[i..j]))
  {
    JoinNoUpper(fields[i..j]);
  }

  lemma KeywordPassesNoUpper(fields: seq<string>)
    requires |fields| > 0
    requires forall k :: 0 <= k < |fields| ==> NoUpper(fields[k])
    ensures forall p :: p in KeywordPasses(fields) ==> NoUpper(p.name) && NoUpper(p.change)
  {
    var n := |fields|;
    NameOnOffNeverFires(fields);
    assert fields[1..] == fields[1..n];
    JoinRunNoUpper(fields, 1, n);
    if n >= 2 {
      assert fields[2..] == fields[2..n];
      JoinRunNoUpper(fields, 2, n);
    }
    var to := KeywordIndex(fields, To);
    if to > 1 && n > to + 1 {
      assert fields[to + 1..] == fields[to + 1..n];
      JoinRunNoUpper(fields, to + 1, n);
      JoinRunNoUpper(fields, 1, to);
      assert fields[..to] == fields[0..to];
      JoinRunNoUpper(fields, 0, to);
    }
  }

  lemma SplitPassesNoUpper(fields: seq<string>)
    requires forall k :: 0 <= k < |fields| ==> NoUpper(fields[k])
    ensures forall p :: p in SplitPasses(fields, |fields| + 1) ==> NoUpper(p.name) && NoUpper(p.change)
  {
    var ss := SplitPasses(fields, |fields| + 1);
    forall i | 0 <= i < |ss| ensures NoUpper(ss[i].name) && NoUpper(ss[i].change) {
      SplitPassesAt(fields, |fields| + 1, i);
      assert fields[..i] == fields[0..i];
      assert fields[i..] == fields[i..|fields|];
      JoinRunNoUpper(fields, 0, i);
      JoinRunNoUpper(fields, i, |fields|);
    }
  }

  /** Every pass's name and change are free of upper-case letters. */
  lemma PassesLowerCase(value: string)
    ensures forall p :: p in Passes(value) ==> NoUpper(p.name) && NoUpper(p.change)
  {
    var fields := InputFields(value);
    FieldsNoUpper(Lower(value));
    forall k | 0 <= k < |fields| ensures NoUpper(fields[k]) {
      assert fields[k] in fields;
    }
    if |fields| > 0 {
      KeywordPassesNoUpper(fields);
      SplitPassesNoUpper(fields);
    }
  }

  /**
   * With 0-based positions, "turn on kitchen" does not take the
   * `"turn" "on" NAME` branch: "on" sits at position 1, so the `"on" NAME`
   * branch fires and reads "on kitchen" as the name and "turn" as the change.
   */
  lemma TurnOnKitchen()
    ensures KeywordPasses(["turn", "on", "kitchen"]) == [Query("on kitchen", "turn")]
  {
    var fields := ["turn", "on", "kitchen"];
    assert fields[0] == Turn && fields[1] == On && fields[2] != On;
    assert fields[1] != Turn && fields[2] != Turn;
    assert fields[1] != Off && fields[2] != Off && fields[1] != To && fields[2] != To;
    assert ScanIndex(fields, On, 2) == 1;
    assert KeywordIndex(fields, On) == 1;
    assert KeywordIndex(fields, Turn) == 0 by {
      assert ScanIndex(fields, Turn, 2) == 0;
    }
    assert KeywordIndex(fields, Off) == 0 by {
      assert ScanIndex(fields, Off, 2) == 0;
    }
    assert KeywordIndex(fields, To) == 0 by {
      assert ScanIndex(fields, To, 2) == 0;
    }
    assert fields[1..] == ["on", "kitchen"];
    assert Join(["on", "kitchen"]) == "on" + " " + Join(["kitchen"]);
    assert "on" + " " + "kitchen" == "on kitchen";
    var p := Recorded(fields);
    assert p == Positions(0, 1, 0, 0);
    assert TurnOnOffPass(fields, p) == [];
    assert OnOffNamePass(fields, p) == [Query("on kitchen", "turn")];
    assert NameOnOffPass(fields, p) == [];
    assert ToPass(fields, p) == [];
  }
}

/**
 * query.go (root package): splitting a command into candidate (name,
 * action) passes, and the small action record a pass carries.
 *
 * The text is lower-cased and split into fields. The 1-based position of
 * the first occurrence of every field is recorded, 0 standing for "absent";
 * the positions of "turn", "on", "off" and "to" drive up to four keyword
 * passes, and every non-empty input ends with the pass naming the whole
 * text and the pass reading the whole text as an action.
 */
module HuelioQuery {
  import opened Text
  import EngineAction

  /** `Action`: a scene to activate, or an on/off change ("" for neither). */
  datatype Action = Action(scene: string, onOff: string)

  /** `Query`: the entity named, and the action asked for. */
  datatype Query = Query(name: string, action: Action)

  const Turn: string := "turn"
  const On: string := "on"
  const Off: string := "off"
  const To: string := "to"

  //
  // Action
  //

  /** `ParseAction`: the trimmed, lower-cased text; "on"/"off" are on/off changes, anything else a scene. */
  function ParseAction(value: string): (act: Action)
    ensures act.scene == "" || act.onOff == ""
  {
    var v := TrimSpace(Lower(value));
    if v == On || v == Off then Action("", v) else Action(v, "")
  }

  /** The trimmed, lower-cased text becomes the on/off change when it is "on" or "off", else the scene. */
  lemma ParseActionMeaning(value: string)
    ensures var v := TrimSpace(Lower(value));
      && (v in {On, Off} <==> ParseAction(value).onOff != "")
      && (v in {On, Off} ==> ParseAction(value) == Action("", v))
      && (v !in {On, Off} ==> ParseAction(value) == Action(v, ""))
  {
  }

  /** Text that is already lower-case and trimmed is left as it is. */
  lemma TrimLowerPlain(s: string)
    requires NoUpper(s) && s != [] && !IsSpace(s[0]) && !IsSpace(s[|s| - 1])
    ensures TrimSpace(Lower(s)) == s
  {
    forall i | 0 <= i < |s|
      ensures Lower(s)[i] == s[i]
    {
    }
    assert Lower(s) == s;
    assert TrimLeft(s) == s;
    assert TrimRight(s) == s;
  }

  /** A parsed action holds no upper-case letters. */
  lemma ParseActionNoUpper(value: string)
    ensures NoUpper(ParseAction(value).scene) && NoUpper(ParseAction(value).onOff)
  {
    var s := Lower(value);
    var l := TrimLeft(s);
    NoUpperSlice(s, |s| - |l|, |s|);
    NoUpperSlice(l, 0, |TrimRight(l)|);
  }

  /** The readings of "on" and "off" that `ParseAction` is documented with. */
  lemma ParseActionKeywordExamples()
    ensures ParseAction("on") == Action("", "on")
    ensures ParseAction("off") == Action("", "off")
  {
    ParseActionPlain("on");
    ParseActionPlain("off");
  }

  /** The reading of a scene name that `ParseAction` is documented with. */
  lemma ParseActionSceneExample()
    ensures ParseAction("stuff") == Action("stuff", "")
  {
    ParseActionPlain("stuff");
  }

  lemma ParseActionPlain(s: string)
    requires NoUpper(s) && s != [] && !IsSpace(s[0]) && !IsSpace(s[|s| - 1])
    ensures ParseAction(s) == if s in {On, Off} then Action("", s) else Action(s, "")
  {
    TrimLowerPlain(s);
  }

  /** `Action.IsOnOff`: no scene, and an on/off change that is absent or equal to `onoff`. */
  predicate IsOnOff(act: Action, onoff: string)
    ensures IsOnOff(act, onoff) ==> act.scene == ""
    ensures act.scene == "" && act.onOff == "" ==> IsOnOff(act, onoff)
  {
    act.scene == "" && (act.onOff == "" || act.onOff == onoff)
  }

  /**
   * A parsed action is an "on" (or "off") change exactly when its text is
   * that keyword or blank: blank text matches both.
   */
  lemma ParseActionIsOnOff(value: string, onoff: string)
    requires onoff in {On, Off}
    ensures IsOnOff(ParseAction(value), onoff) <==> TrimSpace(Lower(value)) in {"", onoff}
  {
  }

  /** `Action.String`. */
  function ActionString(act: Action): (s: string)
    ensures act.scene == "" && act.onOff !in {On, Off} <==> s == "<invalid>"
  {
    if act.scene != "" then "Activate Scene " + EngineAction.Quote(act.scene)
    else if act.onOff == On then "turn on"
    else if act.onOff == Off then "turn off"
    else "<invalid>"
  }

  /** `Query.String`. */
  function QueryString(q: Query): (s: string)
    ensures |s| >= |q.name| + 4
    ensures s[..|q.name| + 2] == EngineAction.Quote(q.name) && s[|q.name| + 2..|q.name| + 4] == ": "
  {
    EngineAction.Quote(q.name) + ": " + ActionString(q.action)
  }

  //
  // anyQueries and filterQueries
  //

  /** Some query satisfies the predicate. */
  predicate Any(queries: seq<Query>, pred: Query -> bool) {
    exists i :: 0 <= i < |queries| && pred(queries[i])
  }

  /** The queries that satisfy the predicate, in their order. */
  function Filter(queries: seq<Query>, pred: Query -> bool): (ms: seq<Query>)
    ensures |ms| <= |queries|
  {
    if |queries| == 0 then []
    else
      var last := queries[|queries| - 1];
      Filter(queries[..|queries| - 1], pred) + (if pred(last) then [last] else [])
  }

  /** `anyQueries`. */
  method AnyQueries(queries: seq<Query>, pred: Query -> bool) returns (any: bool)
    ensures any <==> Any(queries, pred)
  {
    for i := 0 to |queries|
      invariant forall k :: 0 <= k < i ==> !pred(queries[k])
    {
      if pred(queries[i]) {
        return true;
      }
    }
    return false;
  }

  /** `filterQueries`: the matching queries, and whether there are any. */
  method FilterQueries(queries: seq<Query>, pred: Query -> bool) returns (matches: seq<Query>, any: bool)
    ensures matches == Filter(queries, pred)
    ensures any <==> matches != []
  {
    matches := [];
    for i := 0 to |queries|
      invariant matches == Filter(queries[..i], pred)
    {
      assert queries[..i + 1][..i] == queries[..i];
      if pred(queries[i]) {
        matches := matches + [queries[i]];
      }
    }
    assert queries[..|queries|] == queries;
    any := |matches| != 0;
  }

  /** A query is kept exactly when it is one of the inputs and satisfies the predicate. */
  lemma {:induction false} FilterMembers(queries: seq<Query>, pred: Query -> bool)
    ensures forall q :: q in Filter(queries, pred) <==> q in queries && pred(q)
  {
    if |queries| > 0 {
      var init := queries[..|queries| - 1];
      FilterMembers(init, pred);
      assert queries == init + [queries[|queries| - 1]];
    }
  }

  /** Filtering keeps the order: the matches of a concatenation are the concatenated matches. */
  lemma {:induction false} FilterAppend(a: seq<Query>, b: seq<Query>, pred: Query -> bool)
    ensures Filter(a + b, pred) == Filter(a, pred) + Filter(b, pred)
    decreases |b|
  {
    if |b| > 0 {
      var init := b[..|b| - 1];
      assert (a + b)[..|a + b| - 1] == a + init;
      FilterAppend(a, init, pred);
    } else {
      assert a + b == a;
    }
  }

  /** Some query matches exactly when filtering keeps one. */
  lemma AnyFilter(queries: seq<Query>, pred: Query -> bool)
    ensures Any(queries, pred) <==> Filter(queries, pred) != []
  {
    FilterMembers(queries, pred);
    if Any(queries, pred) {
      var i :| 0 <= i < |queries| && pred(queries[i]);
      assert queries[i] in Filter(queries, pred);
    }
    forall q | q in Filter(queries, pred) ensures Any(queries, pred) {
      var i :| 0 <= i < |queries| && queries[i] == q;
    }
  }

  //
  // The field index map
  //

  /**
   * The 1-based position of the first occurrence of `w` among the first
   * `upto` fields, or 0 when it does not occur there.
   */
  function FirstIndex(fields: seq<string>, w: string, upto: nat): nat
    requires upto <= |fields|
  {
    if upto == 0 then 0
    else
      var prev := FirstIndex(fields, w, upto - 1);
      if prev == 0 && fields[upto - 1] == w then upto else prev
  }

  lemma {:induction false} FirstIndexMeaning(fields: seq<string>, w: string, upto: nat)
    requires upto <= |fields|
    ensures var x := FirstIndex(fields, w, upto);
      && (x == 0 <==> forall i :: 0 <= i < upto ==> fields[i] != w)
      && (x != 0 ==> x <= upto && fields[x - 1] == w && forall i :: 0 <= i < x - 1 ==> fields[i] != w)
  {
    if upto > 0 {
      FirstIndexMeaning(fields, w, upto - 1);
    }
  }

  /** The first occurrence at 0-based `k` is recorded as `k + 1`. */
  lemma FirstIndexAt(fields: seq<string>, w: string, k: nat)
    requires k < |fields| && fields[k] == w && forall i :: 0 <= i < k ==> fields[i] != w
    ensures FirstIndex(fields, w, |fields|) == k + 1
  {
    FirstIndexMeaning(fields, w, |fields|);
  }

  lemma FirstIndexAbsent(fields: seq<string>, w: string)
    requires forall i :: 0 <= i < |fields| ==> fields[i] != w
    ensures FirstIndex(fields, w, |fields|) == 0
  {
    FirstIndexMeaning(fields, w, |fields|);
  }

  /** Reading a Go map: a missing key reads as 0. */
  function Lookup(indexes: map<string, int>, w: string): int {
    if w in indexes then indexes[w] else 0
  }

  /** The map `ParseQuery` builds: the first position of every field. */
  method FieldIndexes(fields: seq<string>) returns (indexes: map<string, int>)
    ensures forall w :: Lookup(indexes, w) == FirstIndex(fields, w, |fields|)
  {
    indexes := map[];
    for i := 0 to |fields|
      invariant forall w :: Lookup(indexes, w) == FirstIndex(fields, w, i)
      invariant forall w :: w in indexes ==> indexes[w] >= 1
    {
      var f := fields[i];
      if f !in indexes {
        indexes := indexes[f := i + 1];
      }
    }
  }

  //
  // ParseQuery
  //

  /** The fields of the lower-cased input. */
  function InputFields(value: string): seq<string> {
    Fields(Lower(value))
  }

  /** A pass before its action text goes through `ParseAction`. */
  datatype Reading = Reading(name: string, text: string)

  /** The pass a reading becomes. */
  function ParseReading(r: Reading): (q: Query)
    ensures q.name == r.name
  {
    Query(r.name, ParseAction(r.text))
  }

  /** The passes the readings become, in order. */
  function ParseReadings(rs: seq<Reading>): (qs: seq<Query>)
    ensures |qs| == |rs|
  {
    seq(|rs|, i requires 0 <= i < |rs| => ParseReading(rs[i]))
  }

  lemma ParseReadingsAppend(a: seq<Reading>, b: seq<Reading>)
    ensures ParseReadings(a + b) == ParseReadings(a) + ParseReadings(b)
  {
  }

  /** The four looked-up keyword positions. */
  datatype Positions = Positions(turn: nat, on: nat, off: nat, to: nat)

  /** Every position lies within the fields, and no two keywords share one. */
  predicate Consistent(fields: seq<string>, p: Positions) {
    && p.turn <= |fields| && p.on <= |fields| && p.off <= |fields| && p.to <= |fields|
    && (p.turn != 0 ==> p.turn != p.on && p.turn != p.off && p.turn != p.to)
    && (p.on != 0 ==> p.on != p.off && p.on != p.to)
    && (p.off != 0 ==> p.off != p.to)
  }

  /** The positions `ParseQuery` looks up for `fields`. */
  function Recorded(fields: seq<string>): (p: Positions)
    ensures Consistent(fields, p)
  {
    var n := |fields|;
    FirstIndexMeaning(fields, Turn, n);
    FirstIndexMeaning(fields, On, n);
    FirstIndexMeaning(fields, Off, n);
    FirstIndexMeaning(fields, To, n);
    Positions(FirstIndex(fields, Turn, n), FirstIndex(fields, On, n), FirstIndex(fields, Off, n), FirstIndex(fields, To, n))
  }

  /** `"turn" "on"|"off" NAME`. */
  function TurnOnOffPass(fields: seq<string>, p: Positions): seq<Reading> {
    if p.turn == 1 && (p.on == 2 || p.off == 2) && |fields| >= 3
    then [Reading(Join(fields[2..]), fields[1])]
    else []
  }

  /** `"on"|"off" NAME`. */
  function OnOffNamePass(fields: seq<string>, p: Positions): seq<Reading> {
    if (p.on == 1 || p.off == 1) && |fields| >= 2
    then [Reading(Join(fields[1..]), fields[0])]
    else []
  }

  /** The condition of the `NAME on|off` branch, with Go's `||`/`&&` precedence. */
  predicate NameOnOffFiresAt(n: nat, p: Positions) {
    p.on == n || (p.off == n && n >= 2)
  }

  /** `["turn"] NAME "on"|"off"`. */
  function NameOnOffPass(fields: seq<string>, p: Positions): seq<Reading>
    requires |fields| > 0 && Consistent(fields, p)
  {
    var n := |fields|;
    var last := n - 1;
    if NameOnOffFiresAt(n, p)
    then
      var name := if p.turn == 1 then Join(fields[1..last]) else Join(fields[..last]);
      [Reading(name, fields[last])]
    else []
  }

  /** The positions for which the "to" branch slices `fields[1:0]`, which panics. */
  predicate ToPanicsAt(fields: seq<string>, p: Positions) {
    p.to == 1 && |fields| > 1 && p.turn == 0
  }

  /**
   * `["turn"] NAME "to" ACTION` as written: without "turn" the name drops
   * the first field, with "turn" it keeps it.
   */
  function ToPass(fields: seq<string>, p: Positions): seq<Reading>
    requires Consistent(fields, p) && !ToPanicsAt(fields, p)
  {
    var to := p.to;
    if to > 0 && |fields| > to then
      var text := Join(fields[to..]);
      if p.turn == 0 then [Reading(Join(fields[1..to - 1]), text)]
      else [Reading(Join(fields[..to - 1]), text)]
    else []
  }

  /**
   * The "to" branch as the comment above it describes it: the name is the
   * text before "to", without a leading "turn" (as the `NAME on|off` branch
   * reads it).
   */
  function IntendedToPass(fields: seq<string>, p: Positions): seq<Reading>
    requires Consistent(fields, p)
  {
    var to := p.to;
    if to > 0 && |fields| > to then
      var text := Join(fields[to..]);
      if p.turn == 1 then [Reading(Join(fields[1..to - 1]), text)]
      else [Reading(Join(fields[..to - 1]), text)]
    else []
  }

  /** The first three keyword branches. */
  function KeywordPasses(fields: seq<string>, p: Positions): seq<Reading>
    requires |fields| > 0 && Consistent(fields, p)
  {
    TurnOnOffPass(fields, p) + OnOffNamePass(fields, p) + NameOnOffPass(fields, p)
  }

  /** The two passes every non-empty input ends with: all of it as a name, all of it as an action. */
  function FinalPasses(fields: seq<string>): seq<Reading> {
    [Reading(Join(fields), ""), Reading("", Join(fields))]
  }

  /** The inputs on which `ParseQuery` panics. */
  predicate ToPanics(value: string) {
    var fields := InputFields(value);
    |fields| > 0 && ToPanicsAt(fields, Recorded(fields))
  }

  /** The readings of `ParseQuery(value)`, as written. */
  function Readings(value: string): seq<Reading>
    requires !ToPanics(value)
  {
    var fields := InputFields(value);
    if |fields| == 0 then []
    else
      var p := Recorded(fields);
      KeywordPasses(fields, p) + ToPass(fields, p) + FinalPasses(fields)
  }

  /** All passes of `ParseQuery(value)`, as written. */
  function Passes(value: string): seq<Query>
    requires !ToPanics(value)
  {
    ParseReadings(Readings(value))
  }

  /** The readings of `ParseQuery(value)` with the "to" branch corrected. */
  function IntendedReadings(value: string): seq<Reading> {
    var fields := InputFields(value);
    if |fields| == 0 then []
    else
      var p := Recorded(fields);
      KeywordPasses(fields, p) + IntendedToPass(fields, p) + FinalPasses(fields)
  }

  /** All passes of `ParseQuery(value)` with the "to" branch corrected. */
  function IntendedPasses(value: string): seq<Query> {
    ParseReadings(IntendedReadings(value))
  }

  /** The positions the looked-up map entries hold. */
  function PositionsOf(indexes: map<string, int>, fields: seq<string>): (p: Positions)
    requires forall w :: Lookup(indexes, w) == FirstIndex(fields, w, |fields|)
    ensures p == Recorded(fields)
  {
    var n := |fields|;
    assert Lookup(indexes, Turn) == FirstIndex(fields, Turn, n) && Lookup(indexes, On) == FirstIndex(fields, On, n);
    assert Lookup(indexes, Off) == FirstIndex(fields, Off, n) && Lookup(indexes, To) == FirstIndex(fields, To, n);
    Positions(Lookup(indexes, Turn), Lookup(indexes, On), Lookup(indexes, Off), Lookup(indexes, To))
  }

  /** The first three keyword branches of `ParseQuery`, given the looked-up positions. */
  method KeywordBranches(fields: seq<string>, turn: nat, on: nat, off: nat, to: nat) returns (passes: seq<Query>)
    requires |fields| > 0
    requires Consistent(fields, Positions(turn, on, off, to))
    ensures passes == ParseReadings(KeywordPasses(fields, Positions(turn, on, off, to)))
  {
    var n := |fields|;
    ghost var p := Positions(turn, on, off, to);
    passes := [];

    if turn == 1 && (on == 2 || off == 2) && n >= 3 {
      passes := passes + [Query(Join(fields[2..]), ParseAction(fields[1]))];
    }
    ghost var first := TurnOnOffPass(fields, p);
    assert passes == ParseReadings(first);

    if (on == 1 || off == 1) && n >= 2 {
      passes := passes + [Query(Join(fields[1..]), ParseAction(fields[0]))];
      ParseReadingsAppend(first, [Reading(Join(fields[1..]), fields[0])]);
    }
    ghost var second := first + OnOffNamePass(fields, p);
    assert passes == ParseReadings(second);

    var third := NameOnOffBranch(fields, turn, on, off, to);
    passes := passes + third;
    ParseReadingsAppend(second, NameOnOffPass(fields, p));
    assert second + NameOnOffPass(fields, p) == KeywordPasses(fields, p);
  }

  /** The third keyword branch of `ParseQuery`. */
  method NameOnOffBranch(fields: seq<string>, turn: nat, on: nat, off: nat, to: nat) returns (passes: seq<Query>)
    requires |fields| > 0
    requires Consistent(fields, Positions(turn, on, off, to))
    ensures passes == ParseReadings(NameOnOffPass(fields, Positions(turn, on, off, to)))
  {
    var n := |fields|;
    ghost var p := Positions(turn, on, off, to);
    passes := [];
    // Go reads `a || b && c` as `a || (b && c)`.
    if on == n || (off == n && n >= 2) {
      var last := n - 1;
      var name;
      if turn == 1 {
        name := Join(fields[1..last]);
      } else {
        name := Join(fields[..last]);
      }
      passes := [Query(name, ParseAction(fields[last]))];
      assert NameOnOffPass(fields, p) == [Reading(name, fields[last])];
      ParseReadingsOne(Reading(name, fields[last]));
    } else {
      assert NameOnOffPass(fields, p) == [];
    }
  }

  lemma ParseReadingsOne(r: Reading)
    ensures ParseReadings([r]) == [Query(r.name, ParseAction(r.text))]
  {
  }

  /** The "to" branch of `ParseQuery`, as written. */
  method ToBranch(fields: seq<string>, turn: nat, on: nat, off: nat, to: nat) returns (passes: seq<Query>)
    requires Consistent(fields, Positions(turn, on, off, to))
    requires !ToPanicsAt(fields, Positions(turn, on, off, to))
    ensures passes == ParseReadings(ToPass(fields, Positions(turn, on, off, to)))
  {
    ghost var p := Positions(turn, on, off, to);
    passes := [];
    if to > 0 && |fields| > to {
      var action := ParseAction(Join(fields[to..]));
      var name;
      if turn == 0 {
        name := Join(fields[1..to - 1]);
      } else {
        name := Join(fields[..to - 1]);
      }
      passes := passes + [Query(name, action)];
      assert ToPass(fields, p) == [Reading(name, Join(fields[to..]))];
      ParseReadingsOne(Reading(name, Join(fields[to..])));
    } else {
      assert ToPass(fields, p) == [];
    }
  }

  lemma ParseReadingsConcat(a: seq<Reading>, b: seq<Reading>, c: seq<Reading>)
    ensures ParseReadings(a + b + c) == ParseReadings(a) + ParseReadings(b) + ParseReadings(c)
  {
  }

  /** The branches of `ParseQuery` after the positions are looked up. */
  method Branches(fields: seq<string>, turn: nat, on: nat, off: nat, to: nat) returns (passes: seq<Query>)
    requires |fields| > 0
    requires Consistent(fields, Positions(turn, on, off, to))
    requires !ToPanicsAt(fields, Positions(turn, on, off, to))
    ensures var p := Positions(turn, on, off, to);
      passes == ParseReadings(KeywordPasses(fields, p) + ToPass(fields, p) + FinalPasses(fields))
  {
    ghost var p := Positions(turn, on, off, to);
    var keyword := KeywordBranches(fields, turn, on, off, to);
    var toPasses := ToBranch(fields, turn, on, off, to);
    var whole := Join(fields);
    var asName := Query(whole, ParseAction(""));
    var asAction := Query("", ParseAction(whole));
    passes := keyword + toPasses;
    passes := passes + [asName];
    passes := passes + [asAction];
    assert passes == keyword + toPasses + [asName, asAction];
    ParseFinalPasses(fields);
    ParseReadingsConcat(KeywordPasses(fields, p), ToPass(fields, p), FinalPasses(fields));
  }

  lemma ParseFinalPasses(fields: seq<string>)
    ensures ParseReadings(FinalPasses(fields)) == [Query(Join(fields), ParseAction("")), Query("", ParseAction(Join(fields)))]
  {
    var rs := FinalPasses(fields);
    var qs := ParseReadings(rs);
    assert qs[0] == ParseReading(rs[0]) == Query(Join(fields), ParseAction(""));
    assert qs[1] == ParseReading(rs[1]) == Query("", ParseAction(Join(fields)));
  }

  /**
   * `ParseQuery`: the keyword passes, then the whole text as a name and as
   * an action. Inputs on which it panics are excluded.
   */
  method ParseQuery(value: string) returns (passes: seq<Query>)
    requires !ToPanics(value)
    ensures passes == Passes(value)
  {
    var fields := Fields(Lower(value));
    if |fields| == 0 {
      return [];
    }
    var indexes := FieldIndexes(fields);
    var turn, on, off, to := Lookup(indexes, Turn), Lookup(indexes, On), Lookup(indexes, Off), Lookup(indexes, To);
    assert Positions(turn, on, off, to) == PositionsOf(indexes, fields) == Recorded(fields);
    passes := Branches(fields, turn, on, off, to);
  }

  //
  // Properties of the passes
  //

  /** Empty or whitespace-only input gives no passes; anything else gives some. */
  lemma PassesEmpty(value: string)
    ensures IntendedPasses(value) == [] <==> forall i :: 0 <= i < |value| ==> IsSpace(value[i])
    ensures !ToPanics(value) ==> (Passes(value) == [] <==> forall i :: 0 <= i < |value| ==> IsSpace(value[i]))
  {
    var lower := Lower(value);
    FieldsEmpty(lower);
    assert forall i :: 0 <= i < |value| ==> (IsSpace(lower[i]) <==> IsSpace(value[i]));
  }

  /**
   * A non-empty input gives between two and five passes (the `"turn"
   * "on"|"off" NAME` and `"on"|"off" NAME` branches exclude each other,
   * since both need their keyword at position 1) and ends with the
   * whole text as a name (with the blank action) and the whole text as an
   * action (with the blank name).
   */
  lemma PassesShape(value: string)
    requires InputFields(value) != [] && !ToPanics(value)
    ensures var ps := Passes(value);
      var whole := Join(InputFields(value));
      && 2 <= |ps| <= 5
      && ps[|ps| - 2] == Query(whole, Action("", ""))
      && ps[|ps| - 1] == Query("", ParseAction(whole))
  {
    var fields := InputFields(value);
    var p := Recorded(fields);
    var rs := Readings(value);
    var front := KeywordPasses(fields, p) + ToPass(fields, p);
    assert |TurnOnOffPass(fields, p)| + |OnOffNamePass(fields, p)| <= 1;
    assert |NameOnOffPass(fields, p)| <= 1 && |ToPass(fields, p)| <= 1;
    assert rs == front + FinalPasses(fields);
    var n := |rs|;
    assert 2 <= n <= 5;
    assert rs[n - 2] == Reading(Join(fields), "") && rs[n - 1] == Reading("", Join(fields));
    var ps := Passes(value);
    assert ps[n - 2] == ParseReading(rs[n - 2]) && ps[n - 1] == ParseReading(rs[n - 1]);
    ParseActionBlank();
  }

  /** Blank text is neither a scene nor an on/off change. */
  lemma ParseActionBlank()
    ensures ParseAction("") == Action("", "")
  {
    assert Lower("") == "";
    assert TrimSpace("") == "";
  }

  /**
   * Because `&&` binds tighter than `||`, "on" alone is read as a
   * `NAME on` pass with an empty name, but "off" alone is not.
   */
  lemma LastKeywordPrecedence()
    ensures NameOnOffPass(["on"], Recorded(["on"])) == [Reading("", "on")]
    ensures NameOnOffPass(["off"], Recorded(["off"])) == []
  {
    var a := ["on"];
    FirstIndexAt(a, On, 0);
    FirstIndexAbsent(a, Turn);
    FirstIndexAbsent(a, Off);
    FirstIndexAbsent(a, To);
    assert Recorded(a) == Positions(0, 1, 0, 0);
    assert a[..0] == [];
    var b := ["off"];
    FirstIndexAbsent(b, On);
    assert Recorded(b).on == 0;
  }

  /** The third branch fires when "on" first occurs last, or "off" first occurs last in two or more fields. */
  lemma NameOnOffFires(fields: seq<string>)
    requires |fields| > 0
    ensures NameOnOffFiresAt(|fields|, Recorded(fields)) <==>
      var n := |fields|;
      || (fields[n - 1] == On && forall i :: 0 <= i < n - 1 ==> fields[i] != On)
      || (n >= 2 && fields[n - 1] == Off && forall i :: 0 <= i < n - 1 ==> fields[i] != Off)
  {
    var n := |fields|;
    FirstIndexMeaning(fields, On, n);
    FirstIndexMeaning(fields, Off, n);
  }

  /** `ParseQuery` panics exactly when "to" is the first of several fields and "turn" does not occur. */
  lemma ToPanicsMeaning(value: string)
    ensures var fields := InputFields(value);
      ToPanics(value) <==> |fields| > 1 && fields[0] == To && Turn !in fields
  {
    var fields := InputFields(value);
    if |fields| > 0 {
      FirstIndexMeaning(fields, Turn, |fields|);
      FirstIndexMeaning(fields, To, |fields|);
      if Turn in fields {
        var i :| 0 <= i < |fields| && fields[i] == Turn;
      }
    }
  }

  /** As written, "kitchen to relax" names "": the first field is dropped. */
  lemma ToPassDropsFirstField()
    ensures !ToPanicsAt(["kitchen", "to", "relax"], Recorded(["kitchen", "to", "relax"]))
      && ToPass(["kitchen", "to", "relax"], Recorded(["kitchen", "to", "relax"])) == [Reading("", "relax")]
  {
    var a := ["kitchen", "to", "relax"];
    FirstIndexAt(a, To, 1);
    FirstIndexAbsent(a, Turn);
    assert Recorded(a).to == 2 && Recorded(a).turn == 0;
    assert a[2..] == ["relax"];
  }

  /** As written, "turn kitchen to relax" names "turn kitchen": "turn" is kept. */
  lemma ToPassKeepsTurn()
    ensures !ToPanicsAt(["turn", "kitchen", "to", "relax"], Recorded(["turn", "kitchen", "to", "relax"]))
      && ToPass(["turn", "kitchen", "to", "relax"], Recorded(["turn", "kitchen", "to", "relax"]))
         == [Reading("turn kitchen", "relax")]
  {
    var b := ["turn", "kitchen", "to", "relax"];
    FirstIndexAt(b, To, 2);
    FirstIndexAt(b, Turn, 0);
    assert Recorded(b).to == 3 && Recorded(b).turn == 1;
    var name := ["turn", "kitchen"];
    assert b[3..] == ["relax"] && b[..2] == name && name[1..] == ["kitchen"];
    assert Join(name) == "turn kitchen";
  }

  /** "to relax" makes `ParseQuery` slice `fields[1:0]`. */
  lemma ToRelaxPanics()
    ensures ToPanicsAt(["to", "relax"], Recorded(["to", "relax"]))
  {
    var c := ["to", "relax"];
    FirstIndexAt(c, To, 0);
    FirstIndexAbsent(c, Turn);
  }

  /** The corrected "to" pass for a first "to" at 0-based `k` with fields after it. */
  lemma IntendedToPassAt(fields: seq<string>, p: Positions, k: nat)
    requires Consistent(fields, p) && p.to == k + 1 && k + 1 < |fields|
    requires p.turn == 1 ==> k >= 1
    ensures var start := if p.turn == 1 then 1 else 0;
      IntendedToPass(fields, p) == [Reading(Join(fields[start..k]), Join(fields[k + 1..]))]
  {
    assert fields[..k] == fields[0..k];
  }

  /**
   * The corrected "to" pass is defined for every input, and fires exactly
   * when "to" occurs with a field after its first occurrence.
   */
  lemma IntendedToPassFires(fields: seq<string>)
    ensures IntendedToPass(fields, Recorded(fields)) != [] <==>
      exists k :: 0 <= k < |fields| - 1 && fields[k] == To && forall i :: 0 <= i < k ==> fields[i] != To
  {
    var n := |fields|;
    var p := Recorded(fields);
    assert IntendedToPass(fields, p) != [] <==> p.to > 0 && n > p.to;
    FirstIndexMeaning(fields, To, n);
    if p.to > 0 && n > p.to {
      var k := p.to - 1;
      assert 0 <= k < n - 1 && fields[k] == To && forall i :: 0 <= i < k ==> fields[i] != To;
    }
  }

  /**
   * The corrected "to" pass names the text between a leading "turn" and the
   * first "to", and acts on the text after it.
   */
  lemma IntendedToPassMeaning(fields: seq<string>)
    ensures forall k :: 0 <= k < |fields| - 1 && fields[k] == To && (forall i :: 0 <= i < k ==> fields[i] != To) ==>
      var start := if fields[0] == Turn then 1 else 0;
      start <= k && IntendedToPass(fields, Recorded(fields)) == [Reading(Join(fields[start..k]), Join(fields[k + 1..]))]
  {
    var n := |fields|;
    var p := Recorded(fields);
    forall k | 0 <= k < n - 1 && fields[k] == To && (forall i :: 0 <= i < k ==> fields[i] != To)
      ensures var start := if fields[0] == Turn then 1 else 0;
        start <= k && IntendedToPass(fields, p) == [Reading(Join(fields[start..k]), Join(fields[k + 1..]))]
    {
      FirstIndexAt(fields, To, k);
      FirstIndexMeaning(fields, Turn, n);
      assert p.turn == 1 <==> fields[0] == Turn;
      IntendedToPassAt(fields, p, k);
    }
  }

  /** The reading's name and text hold no upper-case letters. */
  predicate LowerReading(r: Reading) {
    NoUpper(r.name) && NoUpper(r.text)
  }

  predicate AllLower(rs: seq<Reading>) {
    forall k :: 0 <= k < |rs| ==> LowerReading(rs[k])
  }

  predicate LowerFields(fields: seq<string>) {
    forall k :: 0 <= k < |fields| ==> NoUpper(fields[k])
  }

  /** A run of lower-case fields joins to lower-case text. */
  lemma SliceLower(fields: seq<string>, i: nat, j: nat)
    requires LowerFields(fields) && i <= j <= |fields|
    ensures NoUpper(Join(fields[i..j]))
  {
    var ws := fields[i..j];
    forall k | 0 <= k < |ws| ensures NoUpper(ws[k]) {
      assert ws[k] == fields[i + k];
    }
    JoinNoUpper(ws);
  }

  lemma AllLowerAppend(a: seq<Reading>, b: seq<Reading>)
    requires AllLower(a) && AllLower(b)
    ensures AllLower(a + b)
  {
    forall k | 0 <= k < |a + b| ensures LowerReading((a + b)[k]) {
      if k < |a| {
        assert (a + b)[k] == a[k];
      } else {
        assert (a + b)[k] == b[k - |a|];
      }
    }
  }

  lemma KeywordPassesLower(fields: seq<string>, p: Positions)
    requires |fields| > 0 && Consistent(fields, p) && LowerFields(fields)
    ensures AllLower(KeywordPasses(fields, p))
  {
    var n := |fields|;
    var a, b, c := TurnOnOffPass(fields, p), OnOffNamePass(fields, p), NameOnOffPass(fields, p);
    if a != [] {
      SliceLower(fields, 2, n);
      assert fields[2..] == fields[2..n];
      assert a == [Reading(Join(fields[2..]), fields[1])];
    }
    if b != [] {
      SliceLower(fields, 1, n);
      assert fields[1..] == fields[1..n];
      assert b == [Reading(Join(fields[1..]), fields[0])];
    }
    NameOnOffPassLower(fields, p);
    AllLowerAppend(a, b);
    AllLowerAppend(a + b, c);
  }

  lemma NameOnOffPassLower(fields: seq<string>, p: Positions)
    requires |fields| > 0 && Consistent(fields, p) && LowerFields(fields)
    ensures AllLower(NameOnOffPass(fields, p))
  {
    var c := NameOnOffPass(fields, p);
    if c != [] {
      var last := |fields| - 1;
      var name := if p.turn == 1 then Join(fields[1..last]) else Join(fields[..last]);
      if p.turn == 1 {
        SliceLower(fields, 1, last);
      } else {
        SliceLower(fields, 0, last);
        assert fields[..last] == fields[0..last];
      }
      assert c == [Reading(name, fields[last])];
      assert NoUpper(fields[last]);
    }
  }

  lemma IntendedToPassLower(fields: seq<string>, p: Positions)
    requires Consistent(fields, p) && LowerFields(fields)
    ensures AllLower(IntendedToPass(fields, p))
  {
    var to := p.to;
    if to > 0 && |fields| > to {
      SliceLower(fields, to, |fields|);
      assert fields[to..] == fields[to..|fields|];
      if p.turn == 1 {
        SliceLower(fields, 1, to - 1);
      } else {
        SliceLower(fields, 0, to - 1);
        assert fields[..to - 1] == fields[0..to - 1];
      }
    }
  }

  lemma FinalPassesLower(fields: seq<string>)
    requires LowerFields(fields)
    ensures AllLower(FinalPasses(fields))
  {
    JoinNoUpper(fields);
  }

  /**
   * Every pass's name and action are free of upper-case letters: the
   * input is lower-cased before it is split.
   */
  lemma IntendedPassesLowerCase(value: string)
    ensures forall q :: q in IntendedPasses(value) ==> NoUpper(q.name) && NoUpper(q.action.scene) && NoUpper(q.action.onOff)
  {
    var fields := InputFields(value);
    FieldsNoUpper(Lower(value));
    assert LowerFields(fields) by {
      forall k | 0 <= k < |fields| ensures NoUpper(fields[k]) {
        assert fields[k] in fields;
      }
    }
    var rs := IntendedReadings(value);
    if |fields| > 0 {
      var p := Recorded(fields);
      KeywordPassesLower(fields, p);
      IntendedToPassLower(fields, p);
      FinalPassesLower(fields);
      var a, b, c := KeywordPasses(fields, p), IntendedToPass(fields, p), FinalPasses(fields);
      assert rs == a + b + c;
      AllLowerAppend(a, b);
      AllLowerAppend(a + b, c);
    }
    forall q | q in IntendedPasses(value)
      ensures NoUpper(q.name) && NoUpper(q.action.scene) && NoUpper(q.action.onOff)
    {
      var k :| 0 <= k < |rs| && IntendedPasses(value)[k] == q;
      ParseActionNoUpper(rs[k].text);
    }
  }
}

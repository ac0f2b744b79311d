/**
 * engine/index.go: the catalog fetched from a bridge, and the assembly of
 * candidate actions for a list of query passes.
 *
 * For each group, the passes are filtered by the group's name; the survivors
 * are then scored for "on", "off", a colour, and each scene of that group.
 * Lights get the same treatment without scenes. Every candidate with at
 * least one surviving pass is added to a result set, which is sorted at
 * the end.
 *
 * The three concurrent bridge fetches are outside the model: their combined
 * outcome is supplied as a `Fetched` value.
 */
module EngineIndex {
  import opened Wrappers
  import opened Catalog
  import opened Errors
  import opened Text
  import opened ScoreBuffer
  import opened EngineAction
  import opened EngineQuery
  import opened EngineResults

  /** `Index`: the groups, lights and scenes of one bridge. */
  datatype Index = Index(groups: seq<Group>, lights: seq<Light>, scenes: seq<Scene>)

  /** What the three fetches produced, and the first error among them. */
  datatype Fetched = Fetched(groups: seq<Group>, lights: seq<Light>, scenes: seq<Scene>, err: Option<Error>)

  /**
   * `NewIndex`: without a bridge, an empty index and `ErrIndexNilBridge`;
   * otherwise whatever was fetched, with the fetch error.
   */
  function NewIndex(bridge: Option<Bridge>, fetched: Fetched): (r: (Index, Option<Error>))
    ensures bridge.None? ==> r.0 == Index([], [], []) && r.1 == Some(IndexNilBridge)
    ensures bridge.Some? ==> r.1 == fetched.err
  {
    if bridge.None? then (Index([], [], []), Some(IndexNilBridge))
    else (Index(fetched.groups, fetched.lights, fetched.scenes), fetched.err)
  }

  //
  // The candidates, as a specification
  //

  /** One call of `Results.Add`: an action and its score buffer. */
  datatype Added = Added(action: Action, matchScore: Buffer)

  /** The action, if the filtering left any scored pass. */
  function IfAny(action: Action, rows: Buffer): seq<Added> {
    if rows == [] then [] else [Added(action, rows)]
  }

  /**
   * The "on", "off" and colour candidates of a group or light, given the
   * passes that survived its name and their rows.
   */
  function ChangeAdded(target: Action, qs: seq<Query>, rows: Buffer, m: Matchers): seq<Added>
    requires |qs| == |rows|
  {
    IfAny(target.(onOff := BoolOn), KeepScored(qs, rows, MatchOnOff(m, BoolOn)).1)
    + IfAny(target.(onOff := BoolOff), KeepScored(qs, rows, MatchOnOff(m, BoolOff)).1)
    + IfAny(target.(color := FirstAnnot(qs, MatchColor(m), "")), KeepScored(qs, rows, ScoreOnly(MatchColor(m))).1)
  }

  /** The scene candidates of group `g` among the first `k` scenes. */
  function SceneAdded(scenes: seq<Scene>, k: nat, g: Group, qs: seq<Query>, rows: Buffer, m: Matchers): seq<Added>
    requires k <= |scenes| && |qs| == |rows|
  {
    if k == 0 then []
    else
      var s := scenes[k - 1];
      SceneAdded(scenes, k - 1, g, qs, rows, m)
      + if s.group != Itoa(g.id) then []
        else IfAny(Action(group := Some(g), scene := Some(s)), KeepScored(qs, rows, MatchScene(m, s)).1)
  }

  /** The passes that survive a name, each with a one-score row. */
  function Named(queries: seq<Query>, scoring: Query -> real): (seq<Query>, Buffer) {
    KeepScored(queries, EmptyRows(|queries|), scoring)
  }

  /** All candidates of group `g`. */
  function GroupAdded(scenes: seq<Scene>, queries: seq<Query>, m: Matchers, g: Group): seq<Added> {
    var named := Named(queries, MatchGroup(m, g));
    if named.0 == [] then []
    else
      ChangeAdded(Action(group := Some(g)), named.0, named.1, m)
      + SceneAdded(scenes, |scenes|, g, named.0, named.1, m)
  }

  /** All candidates of light `l`. */
  function LightAdded(queries: seq<Query>, m: Matchers, l: Light): seq<Added> {
    var named := Named(queries, MatchLight(m, l));
    if named.0 == [] then [] else ChangeAdded(Action(light := Some(l)), named.0, named.1, m)
  }

  /** The candidates of the first `k` elements of `xs`, each contributing `f` of itself, in order. */
  function Concat<T>(xs: seq<T>, f: T -> seq<Added>, k: nat): seq<Added>
    requires k <= |xs|
  {
    if k == 0 then [] else Concat(xs, f, k - 1) + f(xs[k - 1])
  }

  /** `GroupAdded` for a fixed scene list and fixed passes. */
  function GroupAddedOf(scenes: seq<Scene>, queries: seq<Query>, m: Matchers): Group -> seq<Added> {
    (g: Group) => GroupAdded(scenes, queries, m, g)
  }

  /** `LightAdded` for fixed passes. */
  function LightAddedOf(queries: seq<Query>, m: Matchers): Light -> seq<Added> {
    (l: Light) => LightAdded(queries, m, l)
  }

  /** The candidates of the first `k` groups, in order. */
  function GroupsAdded(index: Index, queries: seq<Query>, m: Matchers, k: nat): seq<Added>
    requires k <= |index.groups|
  {
    Concat(index.groups, GroupAddedOf(index.scenes, queries, m), k)
  }

  /** The candidates of the first `k` lights, in order. */
  function LightsAdded(index: Index, queries: seq<Query>, m: Matchers, k: nat): seq<Added>
    requires k <= |index.lights|
  {
    Concat(index.lights, LightAddedOf(queries, m), k)
  }

  /** Every candidate, in the order `Index.Query` adds them. */
  function Candidates(index: Index, queries: seq<Query>, m: Matchers): seq<Added> {
    GroupsAdded(index, queries, m, |index.groups|) + LightsAdded(index, queries, m, |index.lights|)
  }

  /** The result entries the candidates make. */
  function Scored(c: seq<Added>): (es: seq<Entry>)
    ensures |es| == |c|
  {
    seq(|c|, i requires 0 <= i < |c| => EntryOf(c[i]))
  }

  /** The entry `Results.Add` records for one added action. */
  function EntryOf(a: Added): Entry {
    Entry(a.action, ScoreOf(a.action, a.matchScore), a.matchScore)
  }

  lemma ScoredAppend(a: seq<Added>, b: seq<Added>)
    ensures Scored(a + b) == Scored(a) + Scored(b)
  {
  }

  /** Appending the entries of `done`, then of `step`, appends those of `done + step`. */
  lemma ScoredExtend(prefix: seq<Entry>, done: seq<Added>, step: seq<Added>, before: seq<Entry>, after: seq<Entry>)
    requires before == prefix + Scored(done)
    requires after == before + Scored(step)
    ensures after == prefix + Scored(done + step)
  {
    ScoredAppend(done, step);
    assert prefix + Scored(done) + Scored(step) == prefix + (Scored(done) + Scored(step));
  }

  //
  // Index.Query
  //

  /**
   * `Index.Query`: the returned lists are aligned, hold exactly the entries
   * of the candidates (in some order), and are sorted by score.
   */
  method Query(index: Index, queries: seq<Query>, m: Matchers)
    returns (actions: seq<Action>, matchScores: seq<Buffer>, scores: seq<Score>)
    ensures |actions| == |matchScores| == |scores|
    ensures multiset(Zip(actions, scores, matchScores)) == multiset(Scored(Candidates(index, queries, m)))
    ensures Sorted(scores)
  {
    var scoring := new ScoreQueries();
    var results := new Results();
    results.Reset(|index.groups| + |index.lights|);

    ghost var gs := GroupsAdded(index, queries, m, |index.groups|);
    ghost var ls := LightsAdded(index, queries, m, |index.lights|);
    QueryGroups(results, scoring, index, queries, m);
    assert results.Entries() == Scored(gs);
    QueryLights(results, scoring, index, queries, m);
    ScoredAppend(gs, ls);
    ghost var found := results.Entries();
    assert found == Scored(Candidates(index, queries, m));
    actions, matchScores, scores := results.Results();
    assert Zip(actions, scores, matchScores) == results.Entries();
  }

  /** The group loop of `Index.Query`. */
  method QueryGroups(results: Results, scoring: ScoreQueries, index: Index, queries: seq<Query>, m: Matchers)
    requires results.Valid() && scoring.Valid()
    modifies results, scoring
    ensures results.Valid() && scoring.Valid()
    ensures results.Entries() == old(results.Entries()) + Scored(GroupsAdded(index, queries, m, |index.groups|))
  {
    for gi := 0 to |index.groups|
      invariant results.Valid() && scoring.Valid()
      invariant results.Entries() == old(results.Entries()) + Scored(GroupsAdded(index, queries, m, gi))
    {
      ghost var before := results.Entries();
      QueryGroup(results, scoring, index.scenes, queries, index.groups[gi], m);
      ScoredExtend(old(results.Entries()), GroupsAdded(index, queries, m, gi),
        GroupAdded(index.scenes, queries, m, index.groups[gi]), before, results.Entries());
    }
  }

  /** The light loop of `Index.Query`. */
  method QueryLights(results: Results, scoring: ScoreQueries, index: Index, queries: seq<Query>, m: Matchers)
    requires results.Valid() && scoring.Valid()
    modifies results, scoring
    ensures results.Valid() && scoring.Valid()
    ensures results.Entries() == old(results.Entries()) + Scored(LightsAdded(index, queries, m, |index.lights|))
  {
    for li := 0 to |index.lights|
      invariant results.Valid() && scoring.Valid()
      invariant results.Entries() == old(results.Entries()) + Scored(LightsAdded(index, queries, m, li))
    {
      ghost var before := results.Entries();
      QueryLight(results, scoring, queries, index.lights[li], m);
      ScoredExtend(old(results.Entries()), LightsAdded(index, queries, m, li),
        LightAdded(queries, m, index.lights[li]), before, results.Entries());
    }
  }

  /** The body of the group loop of `Index.Query`. */
  method QueryGroup(results: Results, scoring: ScoreQueries, scenes: seq<Scene>, queries: seq<Query>, g: Group, m: Matchers)
    requires results.Valid() && scoring.Valid()
    modifies results, scoring
    ensures results.Valid() && scoring.Valid()
    ensures results.Entries() == old(results.Entries()) + Scored(GroupAdded(scenes, queries, m, g))
  {
    scoring.Use(queries);
    ghost var named := Named(queries, MatchGroup(m, g));
    var any := scoring.Score(MatchGroup(m, g));
    assert (scoring.queries, scoring.scores) == named;
    if !any {
      assert old(results.Entries()) + Scored([]) == old(results.Entries());
      return;
    }
    ghost var changes := ChangeAdded(Action(group := Some(g)), named.0, named.1, m);
    ghost var sceneActions := SceneAdded(scenes, |scenes|, g, named.0, named.1, m);
    assert GroupAdded(scenes, queries, m, g) == changes + sceneActions;
    AddChanges(results, scoring, Action(group := Some(g)), m);
    ghost var before := results.Entries();
    AddScenes(results, scoring, scenes, g, m);
    ScoredExtend(old(results.Entries()), changes, sceneActions, before, results.Entries());
  }

  /** The body of the light loop of `Index.Query`. */
  method QueryLight(results: Results, scoring: ScoreQueries, queries: seq<Query>, l: Light, m: Matchers)
    requires results.Valid() && scoring.Valid()
    modifies results, scoring
    ensures results.Valid() && scoring.Valid()
    ensures results.Entries() == old(results.Entries()) + Scored(LightAdded(queries, m, l))
  {
    scoring.Use(queries);
    ghost var named := Named(queries, MatchLight(m, l));
    var any := scoring.Score(MatchLight(m, l));
    assert (scoring.queries, scoring.scores) == named;
    if !any {
      assert old(results.Entries()) + Scored([]) == old(results.Entries());
      return;
    }
    AddChanges(results, scoring, Action(light := Some(l)), m);
  }

  /** `if len(scores) > 0 { results.Add(action, scores) }`. */
  method AddIfAny(results: Results, action: Action, rows: Buffer)
    requires results.Valid()
    modifies results
    ensures results.Valid()
    ensures results.Entries() == old(results.Entries()) + Scored(IfAny(action, rows))
  {
    if |rows| > 0 {
      results.Add(action, rows);
    }
  }

  /**
   * The "on", "off" and colour steps of the group and light loops: each
   * adds its action when some pass survives it.
   */
  method AddChanges(results: Results, scoring: ScoreQueries, target: Action, m: Matchers)
    requires results.Valid() && scoring.Valid()
    modifies results
    ensures results.Valid()
    ensures results.Entries() == old(results.Entries()) + Scored(ChangeAdded(target, scoring.queries, scoring.scores, m))
  {
    ghost var start := results.Entries();
    var onScores, onQueries := scoring.ScoreFinal(MatchOnOff(m, BoolOn));
    AddIfAny(results, target.(onOff := BoolOn), onScores);
    ghost var on := IfAny(target.(onOff := BoolOn), onScores);
    ghost var afterOn := results.Entries();

    var offScores, offQueries := scoring.ScoreFinal(MatchOnOff(m, BoolOff));
    AddIfAny(results, target.(onOff := BoolOff), offScores);
    ghost var off := IfAny(target.(onOff := BoolOff), offScores);
    assert start + Scored([]) == start;
    ScoredExtend(start, [], on, start, afterOn);
    ScoredExtend(start, on, off, afterOn, results.Entries());
    ghost var afterOff := results.Entries();

    var colorScores, colorQueries, color := scoring.ScoreFinalAnnot(MatchColor(m), "");
    AddIfAny(results, target.(color := color), colorScores);
    ghost var col := IfAny(target.(color := color), colorScores);
    ScoredExtend(start, on + off, col, afterOff, results.Entries());
    assert ChangeAdded(target, scoring.queries, scoring.scores, m) == on + off + col;
  }

  /** The scene loop of a group: each scene of the group with a surviving pass is added. */
  method AddScenes(results: Results, scoring: ScoreQueries, scenes: seq<Scene>, g: Group, m: Matchers)
    requires results.Valid() && scoring.Valid()
    modifies results
    ensures results.Valid()
    ensures results.Entries() == old(results.Entries()) + Scored(SceneAdded(scenes, |scenes|, g, scoring.queries, scoring.scores, m))
  {
    var gID := Itoa(g.id);
    for si := 0 to |scenes|
      invariant results.Valid()
      invariant results.Entries() == old(results.Entries()) + Scored(SceneAdded(scenes, si, g, scoring.queries, scoring.scores, m))
    {
      var s := scenes[si];
      ghost var done := SceneAdded(scenes, si, g, scoring.queries, scoring.scores, m);
      ghost var before := results.Entries();
      if s.group != gID {
        assert done + [] == done;
        continue;
      }
      var sceneScores, sceneQueries := scoring.ScoreFinal(MatchScene(m, s));
      AddIfAny(results, Action(group := Some(g), scene := Some(s)), sceneScores);
      ScoredExtend(old(results.Entries()), done, IfAny(Action(group := Some(g), scene := Some(s)), sceneScores),
        before, results.Entries());
    }
  }

  /** `QueryString`: `Query` over the passes of `ParseQuery(input)`. */
  method QueryString(index: Index, input: string, m: Matchers)
    returns (actions: seq<Action>, matchScores: seq<Buffer>, scores: seq<Score>)
    ensures |actions| == |matchScores| == |scores|
    ensures multiset(Zip(actions, scores, matchScores)) == multiset(Scored(Candidates(index, Passes(input), m)))
    ensures Sorted(scores)
  {
    var passes := ParseQuery(input);
    actions, matchScores, scores := Query(index, passes, m);
  }

  //
  // Properties of the candidates
  //

  /** The passes that survive a name are exactly those scoring non-negatively against it. */
  lemma NamedEmpty(queries: seq<Query>, scoring: Query -> real)
    ensures Named(queries, scoring).0 == [] <==> forall i :: 0 <= i < |queries| ==> scoring(queries[i]) < 0.0
  {
    KeepScoredEmpty(queries, EmptyRows(|queries|), scoring);
  }

  /**
   * A group whose name no pass matches contributes no candidate, whatever
   * the passes' changes are.
   */
  lemma UnmatchedGroupAddsNothing(scenes: seq<Scene>, queries: seq<Query>, m: Matchers, g: Group)
    requires g.name != [] && forall i :: 0 <= i < |queries| ==> m.rank(queries[i].name, g.name) == -1
    ensures GroupAdded(scenes, queries, m, g) == []
  {
    NamedEmpty(queries, MatchGroup(m, g));
  }

  /** A light whose name no pass matches contributes no candidate. */
  lemma UnmatchedLightAddsNothing(queries: seq<Query>, m: Matchers, l: Light)
    requires l.name != [] && forall i :: 0 <= i < |queries| ==> m.rank(queries[i].name, l.name) == -1
    ensures LightAdded(queries, m, l) == []
  {
    NamedEmpty(queries, MatchLight(m, l));
  }

  lemma {:induction false} SceneAddedShape(scenes: seq<Scene>, k: nat, g: Group, qs: seq<Query>, rows: Buffer, m: Matchers)
    requires k <= |scenes| && |qs| == |rows|
    ensures forall a :: a in SceneAdded(scenes, k, g, qs, rows, m) ==>
      && a.action == Action(group := Some(g), scene := a.action.scene)
      && a.action.scene.Some? && a.action.scene.value in scenes
      && a.action.scene.value.group == Itoa(g.id)
      && a.matchScore != []
  {
    if k > 0 {
      SceneAddedShape(scenes, k - 1, g, qs, rows, m);
    }
  }

  /**
   * Every candidate of a group is that group's on, off, colour or scene
   * action, with a non-empty buffer; its scenes belong to the group, as
   * `scene.Group` equals the group's ID in decimal.
   */
  lemma GroupCandidates(scenes: seq<Scene>, queries: seq<Query>, m: Matchers, g: Group)
    ensures forall a :: a in GroupAdded(scenes, queries, m, g) ==>
      && a.action.group == Some(g) && a.action.light.None? && a.action.special.None?
      && a.matchScore != []
      && (a.action.scene.Some? ==> a.action.scene.value in scenes && a.action.scene.value.group == Itoa(g.id))
  {
    var named := Named(queries, MatchGroup(m, g));
    if named.0 != [] {
      SceneAddedShape(scenes, |scenes|, g, named.0, named.1, m);
    }
  }

  /**
   * Every candidate of a light is that light's on, off or colour action,
   * never a scene, with a non-empty buffer.
   */
  lemma LightCandidates(queries: seq<Query>, m: Matchers, l: Light)
    ensures forall a :: a in LightAdded(queries, m, l) ==>
      && a.action.light == Some(l) && a.action.group.None? && a.action.scene.None? && a.action.special.None?
      && (a.action.onOff in {BoolOn, BoolOff} || a.action.onOff == BoolAny)
      && a.matchScore != []
  {
  }

  /** A candidate of some group of the index, with a scene only of that group. */
  ghost predicate GroupShaped(index: Index, a: Added) {
    && a.action.group.Some? && a.action.group.value in index.groups
    && a.matchScore != []
    && (a.action.scene.Some? ==>
          a.action.scene.value in index.scenes && a.action.scene.value.group == Itoa(a.action.group.value.id))
  }

  /** A candidate of some light of the index, with no group and no scene. */
  ghost predicate LightShaped(index: Index, a: Added) {
    && a.action.group.None? && a.action.scene.None?
    && a.action.light.Some? && a.action.light.value in index.lights
    && a.matchScore != []
  }

  /** `GroupShaped` for the group candidates, `LightShaped` for the light ones. */
  ghost predicate Shaped(index: Index, a: Added, ofGroup: bool) {
    if ofGroup then GroupShaped(index, a) else LightShaped(index, a)
  }

  /** Every candidate of `c` is shaped; stated element by element from the end. */
  ghost predicate AllShaped(index: Index, c: seq<Added>, ofGroup: bool)
    decreases |c|
  {
    |c| > 0 ==> AllShaped(index, c[..|c| - 1], ofGroup) && Shaped(index, c[|c| - 1], ofGroup)
  }

  lemma {:induction false} AllShapedMeaning(index: Index, c: seq<Added>, ofGroup: bool)
    ensures AllShaped(index, c, ofGroup) <==> forall a :: a in c ==> Shaped(index, a, ofGroup)
    decreases |c|
  {
    if |c| > 0 {
      AllShapedMeaning(index, c[..|c| - 1], ofGroup);
      assert c == c[..|c| - 1] + [c[|c| - 1]];
    }
  }

  lemma {:induction false} AllShapedAppend(index: Index, x: seq<Added>, y: seq<Added>, ofGroup: bool)
    requires AllShaped(index, x, ofGroup) && AllShaped(index, y, ofGroup)
    ensures AllShaped(index, x + y, ofGroup)
    decreases |y|
  {
    if |y| > 0 {
      AllShapedAppend(index, x, y[..|y| - 1], ofGroup);
      assert (x + y)[..|x + y| - 1] == x + y[..|y| - 1];
    } else {
      assert x + y == x;
    }
  }

  lemma {:induction false} ConcatShaped<T>(index: Index, xs: seq<T>, f: T -> seq<Added>, k: nat, ofGroup: bool)
    requires k <= |xs|
    requires forall i :: 0 <= i < k ==> AllShaped(index, f(xs[i]), ofGroup)
    ensures AllShaped(index, Concat(xs, f, k), ofGroup)
  {
    if k > 0 {
      ConcatShaped(index, xs, f, k - 1, ofGroup);
      AllShapedAppend(index, Concat(xs, f, k - 1), f(xs[k - 1]), ofGroup);
    }
  }

  /** The candidates of a group of the index are shaped as such. */
  lemma GroupAddedShaped(index: Index, queries: seq<Query>, m: Matchers, g: Group)
    requires g in index.groups
    ensures AllShaped(index, GroupAdded(index.scenes, queries, m, g), true)
  {
    GroupCandidates(index.scenes, queries, m, g);
    AllShapedMeaning(index, GroupAdded(index.scenes, queries, m, g), true);
  }

  /** The candidates of a light of the index are shaped as such. */
  lemma LightAddedShaped(index: Index, queries: seq<Query>, m: Matchers, l: Light)
    requires l in index.lights
    ensures AllShaped(index, LightAdded(queries, m, l), false)
  {
    LightCandidates(queries, m, l);
    AllShapedMeaning(index, LightAdded(queries, m, l), false);
  }

  lemma GroupsAddedShape(index: Index, queries: seq<Query>, m: Matchers)
    ensures AllShaped(index, GroupsAdded(index, queries, m, |index.groups|), true)
  {
    var f := GroupAddedOf(index.scenes, queries, m);
    forall i | 0 <= i < |index.groups| ensures AllShaped(index, f(index.groups[i]), true) {
      GroupAddedShaped(index, queries, m, index.groups[i]);
    }
    ConcatShaped(index, index.groups, f, |index.groups|, true);
  }

  lemma LightsAddedShape(index: Index, queries: seq<Query>, m: Matchers)
    ensures AllShaped(index, LightsAdded(index, queries, m, |index.lights|), false)
  {
    var f := LightAddedOf(queries, m);
    forall i | 0 <= i < |index.lights| ensures AllShaped(index, f(index.lights[i]), false) {
      LightAddedShaped(index, queries, m, index.lights[i]);
    }
    ConcatShaped(index, index.lights, f, |index.lights|, false);
  }

  /**
   * Over the whole index: every candidate has a non-empty buffer, a scene
   * candidate belongs to a group whose decimal ID the scene names, and
   * candidates without a group are light actions without a scene.
   */
  lemma CandidatesShape(index: Index, queries: seq<Query>, m: Matchers)
    ensures forall a :: a in Candidates(index, queries, m) ==>
      && a.matchScore != []
      && (a.action.scene.Some? ==>
            && a.action.group.Some?
            && a.action.scene.value in index.scenes
            && a.action.scene.value.group == Itoa(a.action.group.value.id))
      && (a.action.group.None? ==> a.action.light.Some? && a.action.scene.None?)
  {
    GroupsAddedShape(index, queries, m);
    LightsAddedShape(index, queries, m);
    AllShapedMeaning(index, GroupsAdded(index, queries, m, |index.groups|), true);
    AllShapedMeaning(index, LightsAdded(index, queries, m, |index.lights|), false);
  }
}

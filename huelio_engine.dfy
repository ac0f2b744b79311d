/**
 * engine.go (root package): the engine that holds a bridge and the groups,
 * lights and scenes fetched from it, and turns query passes into actions.
 *
 * The source fetches the three lists concurrently under a lock, starting
 * the first fetch in a goroutine; here every method runs as one step and
 * the fetch outcome is a parameter. Fuzzy name matching
 * (`fuzzy.MatchFold(source, target)`) is a parameter too.
 */
module HuelioEngine {
  import opened Wrappers
  import opened Errors
  import opened Text
  import Catalog
  import opened EngineIndex
  import opened HuelioQuery
  import opened HuelioAction

  /** A fuzzy matcher: does the first text match the second? */
  type Matcher = (string, string) -> bool

  //
  // The actions of one group or light
  //

  /** The query names `name`. */
  function NameMatch(matchFold: Matcher, name: string): Query -> bool {
    (q: Query) => matchFold(q.name, name)
  }

  /** The query asks for `onoff` (or for no change at all). */
  function OnOffMatch(onoff: string): Query -> bool {
    (q: Query) => IsOnOff(q.action, onoff)
  }

  /** The query's scene names `name`. */
  function SceneMatch(matchFold: Matcher, name: string): Query -> bool {
    (q: Query) => matchFold(q.action.scene, name)
  }

  /** The scene belongs to group `g`: its group is `g`'s ID in decimal. */
  predicate InGroup(s: Catalog.Scene, g: Catalog.Group) {
    s.group == Itoa(g.id)
  }

  /** The "on" and "off" actions for `target`, for the passes naming it. */
  function OnOffActions(target: QueryAction, qs: seq<Query>): seq<QueryAction> {
    (if Any(qs, OnOffMatch(On)) then [target.(onOff := On)] else [])
    + (if Any(qs, OnOffMatch(Off)) then [target.(onOff := Off)] else [])
  }

  /** The scene actions among the first `k` scenes for group `g`, in catalog order. */
  function SceneActions(g: Catalog.Group, scenes: seq<Catalog.Scene>, qs: seq<Query>, matchFold: Matcher, k: nat): seq<QueryAction>
    requires k <= |scenes|
  {
    if k == 0 then []
    else
      var s := scenes[k - 1];
      SceneActions(g, scenes, qs, matchFold, k - 1)
      + (if InGroup(s, g) && Any(qs, SceneMatch(matchFold, s.name))
         then [QueryAction(group := Some(g), scene := Some(s))] else [])
  }

  /** What `Run` adds for group `g`: nothing unless a pass names it, else on, off, then its scenes. */
  function GroupActions(g: Catalog.Group, scenes: seq<Catalog.Scene>, queries: seq<Query>, matchFold: Matcher): seq<QueryAction> {
    var qs := Filter(queries, NameMatch(matchFold, g.name));
    if qs == [] then []
    else OnOffActions(QueryAction(group := Some(g)), qs) + SceneActions(g, scenes, qs, matchFold, |scenes|)
  }

  /** What `Run` adds for light `l`: nothing unless a pass names it, else on, then off. */
  function LightActions(l: Catalog.Light, queries: seq<Query>, matchFold: Matcher): seq<QueryAction> {
    var qs := Filter(queries, NameMatch(matchFold, l.name));
    if qs == [] then [] else OnOffActions(QueryAction(light := Some(l)), qs)
  }

  //
  // The actions of every group and light
  //

  /** The lists `f` gives for the first `k` elements of `xs`, concatenated in order. */
  function Concat<T>(xs: seq<T>, f: T -> seq<QueryAction>, k: nat): seq<QueryAction>
    requires k <= |xs|
  {
    if k == 0 then [] else Concat(xs, f, k - 1) + f(xs[k - 1])
  }

  /** An action comes from the concatenation exactly when it comes from one of the elements. */
  lemma {:induction false} ConcatMember<T>(xs: seq<T>, f: T -> seq<QueryAction>, k: nat, a: QueryAction)
    requires k <= |xs|
    ensures a in Concat(xs, f, k) <==> exists i :: 0 <= i < k && a in f(xs[i])
  {
    if k > 0 {
      ConcatMember(xs, f, k - 1, a);
      if a in f(xs[k - 1]) {
        assert exists i :: 0 <= i < k && a in f(xs[i]) by {
          assert 0 <= k - 1 < k && a in f(xs[k - 1]);
        }
      }
    }
  }

  function GroupActionsOf(scenes: seq<Catalog.Scene>, queries: seq<Query>, matchFold: Matcher): Catalog.Group -> seq<QueryAction> {
    (g: Catalog.Group) => GroupActions(g, scenes, queries, matchFold)
  }

  function LightActionsOf(queries: seq<Query>, matchFold: Matcher): Catalog.Light -> seq<QueryAction> {
    (l: Catalog.Light) => LightActions(l, queries, matchFold)
  }

  /** The actions of the first `k` groups, in order. */
  function GroupsActions(groups: seq<Catalog.Group>, scenes: seq<Catalog.Scene>, queries: seq<Query>, matchFold: Matcher, k: nat): seq<QueryAction>
    requires k <= |groups|
  {
    Concat(groups, GroupActionsOf(scenes, queries, matchFold), k)
  }

  /** The actions of the first `k` lights, in order. */
  function LightsActions(lights: seq<Catalog.Light>, queries: seq<Query>, matchFold: Matcher, k: nat): seq<QueryAction>
    requires k <= |lights|
  {
    Concat(lights, LightActionsOf(queries, matchFold), k)
  }

  /** Everything `Run` finds: all group actions, then all light actions. */
  function RunActions(groups: seq<Catalog.Group>, lights: seq<Catalog.Light>, scenes: seq<Catalog.Scene>, queries: seq<Query>, matchFold: Matcher): seq<QueryAction> {
    GroupsActions(groups, scenes, queries, matchFold, |groups|) + LightsActions(lights, queries, matchFold, |lights|)
  }

  //
  // The engine
  //

  class Engine {
    /** The error of the last fetch, or `ErrNoBridge` before the first one. */
    var err: Option<Error>
    var bridge: Option<Catalog.Bridge>
    var groups: seq<Catalog.Group>
    var lights: seq<Catalog.Light>
    var scenes: seq<Catalog.Scene>

    /** Without a bridge, the stored error is `ErrNoBridge`. */
    ghost predicate Valid()
      reads this
    {
      bridge.None? ==> err == Some(NoBridge)
    }

    /**
     * `NewEngine`: starts with `ErrNoBridge` and then runs `useInternal`
     * with the given bridge (in the source, concurrently under the lock).
     */
    constructor(b: Option<Catalog.Bridge>, fetched: Fetched)
      ensures Valid()
      ensures bridge == b
      ensures b.None? ==> err == Some(NoBridge) && groups == [] && lights == [] && scenes == []
      ensures b.Some? ==>
        err == fetched.err && groups == fetched.groups && lights == fetched.lights && scenes == fetched.scenes
    {
      err := Some(NoBridge);
      bridge := None;
      groups, lights, scenes := [], [], [];
      new;
      var _ := UseInternal(b, fetched);
    }

    /**
     * `useInternal`: a given bridge replaces the current one, none keeps
     * it. Without any bridge it fails with `ErrNoBridge` and leaves the
     * stored error alone; otherwise the three lists and the stored error
     * become what the fetch produced, and that error is returned.
     */
    method UseInternal(b: Option<Catalog.Bridge>, fetched: Fetched) returns (e: Option<Error>)
      requires Valid()
      modifies this
      ensures Valid()
      ensures bridge == if b.Some? then b else old(bridge)
      ensures bridge.None? ==> e == Some(NoBridge) && unchanged(this)
      ensures bridge.Some? ==>
        && groups == fetched.groups && lights == fetched.lights && scenes == fetched.scenes
        && err == fetched.err && e == err
    {
      if b.Some? {
        bridge := b;
      }
      if bridge.None? {
        return Some(NoBridge);
      }
      groups := fetched.groups;
      lights := fetched.lights;
      scenes := fetched.scenes;
      err := fetched.err;
      return err;
    }

    /** `Use`: `useInternal` under the lock. */
    method Use(b: Option<Catalog.Bridge>, fetched: Fetched) returns (e: Option<Error>)
      requires Valid()
      modifies this
      ensures Valid()
      ensures bridge == if b.Some? then b else old(bridge)
      ensures bridge.None? ==> e == Some(NoBridge) && unchanged(this)
      ensures bridge.Some? ==>
        && groups == fetched.groups && lights == fetched.lights && scenes == fetched.scenes
        && err == fetched.err && e == err
    {
      e := UseInternal(b, fetched);
    }

    /**
     * `Bridge`: exactly one of a bridge and an error. The stored error wins;
     * without it, the bridge, or `ErrNoBridge` when there is none.
     */
    method Bridge() returns (b: Option<Catalog.Bridge>, e: Option<Error>)
      ensures b.Some? <==> e.None?
      ensures e == if err.Some? then err else if bridge.None? then Some(NoBridge) else None
      ensures b == if e.None? then bridge else None
      ensures Valid() && err.None? ==> b == bridge && b.Some?
    {
      b, e := bridge, err;
      if b.None? && e.None? {
        return None, Some(NoBridge);
      }
      if e.Some? {
        return None, e;
      }
      return b, None;
    }

    /**
     * `Run`: the stored error and no actions when there is one; otherwise
     * every group's actions, then every light's.
     */
    method Run(queries: seq<Query>, matchFold: Matcher) returns (results: seq<QueryAction>, e: Option<Error>)
      ensures err.Some? ==> results == [] && e == err
      ensures err.None? ==> e.None? && results == RunActions(groups, lights, scenes, queries, matchFold)
    {
      if err.Some? {
        return [], err;
      }
      var fromGroups := RunGroups(groups, scenes, queries, matchFold);
      var fromLights := RunLights(lights, queries, matchFold);
      results := fromGroups + fromLights;
      e := None;
    }

    /**
     * `Query`: `Run` on the passes `ParseQuery` gives for the input, as
     * written. Inputs on which `ParseQuery` panics are excluded.
     */
    method Query(input: string, matchFold: Matcher) returns (results: seq<QueryAction>, e: Option<Error>)
      requires !ToPanics(input)
      ensures err.Some? ==> results == [] && e == err
      ensures err.None? ==> e.None? && results == RunActions(groups, lights, scenes, Passes(input), matchFold)
    {
      var passes := ParseQuery(input);
      results, e := Run(passes, matchFold);
    }

    /** `Query` on the passes of `ParseQuery` with its "to" branch corrected, for every input. */
    method IntendedQuery(input: string, matchFold: Matcher) returns (results: seq<QueryAction>, e: Option<Error>)
      ensures err.Some? ==> results == [] && e == err
      ensures err.None? ==> e.None? && results == RunActions(groups, lights, scenes, IntendedPasses(input), matchFold)
    {
      results, e := Run(IntendedPasses(input), matchFold);
    }
  }

  /** The group loop of `Run`. */
  method RunGroups(groups: seq<Catalog.Group>, scenes: seq<Catalog.Scene>, queries: seq<Query>, matchFold: Matcher) returns (results: seq<QueryAction>)
    ensures results == GroupsActions(groups, scenes, queries, matchFold, |groups|)
  {
    results := [];
    for i := 0 to |groups|
      invariant results == GroupsActions(groups, scenes, queries, matchFold, i)
    {
      var more := RunGroup(groups[i], scenes, queries, matchFold);
      results := results + more;
    }
  }

  /** The light loop of `Run`. */
  method RunLights(lights: seq<Catalog.Light>, queries: seq<Query>, matchFold: Matcher) returns (results: seq<QueryAction>)
    ensures results == LightsActions(lights, queries, matchFold, |lights|)
  {
    results := [];
    for i := 0 to |lights|
      invariant results == LightsActions(lights, queries, matchFold, i)
    {
      var more := RunLight(lights[i], queries, matchFold);
      results := results + more;
    }
  }

  /** The body of `Run`'s group loop: the actions of one group. */
  method RunGroup(g: Catalog.Group, scenes: seq<Catalog.Scene>, queries: seq<Query>, matchFold: Matcher) returns (results: seq<QueryAction>)
    ensures results == GroupActions(g, scenes, queries, matchFold)
  {
    var qs, ok := FilterQueries(queries, NameMatch(matchFold, g.name));
    if !ok {
      return [];
    }
    var theGroup := QueryAction(group := Some(g));
    results := OnOff(theGroup, qs);
    var gID := Itoa(g.id);
    for j := 0 to |scenes|
      invariant results == OnOffActions(theGroup, qs) + SceneActions(g, scenes, qs, matchFold, j)
    {
      var s := scenes[j];
      if s.group != gID {
        continue;
      }
      var any := AnyQueries(qs, SceneMatch(matchFold, s.name));
      if !any {
        continue;
      }
      results := results + [QueryAction(group := Some(g), scene := Some(s))];
    }
  }

  /** The body of `Run`'s light loop: the actions of one light. */
  method RunLight(l: Catalog.Light, queries: seq<Query>, matchFold: Matcher) returns (results: seq<QueryAction>)
    ensures results == LightActions(l, queries, matchFold)
  {
    var qs, ok := FilterQueries(queries, NameMatch(matchFold, l.name));
    if !ok {
      return [];
    }
    results := OnOff(QueryAction(light := Some(l)), qs);
  }

  /** The "on" and "off" checks `Run` makes for a group or a light. */
  method OnOff(target: QueryAction, qs: seq<Query>) returns (results: seq<QueryAction>)
    ensures results == OnOffActions(target, qs)
  {
    results := [];
    var on := AnyQueries(qs, OnOffMatch(On));
    if on {
      results := results + [target.(onOff := On)];
    }
    var off := AnyQueries(qs, OnOffMatch(Off));
    if off {
      results := results + [target.(onOff := Off)];
    }
  }

  //
  // Properties of Run
  //

  /** A group action is an on/off change or a scene of that group, and names no light. */
  predicate GroupShaped(a: QueryAction, scenes: seq<Catalog.Scene>) {
    && a.group.Some? && a.light.None? && a.special.None? && a.matchScores == []
    && ((a.scene.None? && a.onOff in {On, Off})
        || (a.onOff == "" && a.scene.Some? && a.scene.value in scenes && InGroup(a.scene.value, a.group.value)))
  }

  /** A light action is an on/off change and names no group and no scene. */
  predicate LightShaped(a: QueryAction) {
    && a.light.Some? && a.group.None? && a.scene.None? && a.special.None? && a.matchScores == []
    && a.onOff in {On, Off}
  }

  lemma {:induction false} SceneActionsShape(g: Catalog.Group, scenes: seq<Catalog.Scene>, qs: seq<Query>, matchFold: Matcher, k: nat)
    requires k <= |scenes|
    ensures forall a :: a in SceneActions(g, scenes, qs, matchFold, k) ==>
      GroupShaped(a, scenes) && a.group == Some(g) && a.scene.Some?
  {
    if k > 0 {
      SceneActionsShape(g, scenes, qs, matchFold, k - 1);
    }
  }

  /** Every action of a group is for that group, and a scene action's scene belongs to it. */
  lemma GroupActionsShape(g: Catalog.Group, scenes: seq<Catalog.Scene>, queries: seq<Query>, matchFold: Matcher)
    ensures forall a :: a in GroupActions(g, scenes, queries, matchFold) ==> GroupShaped(a, scenes) && a.group == Some(g)
  {
    var qs := Filter(queries, NameMatch(matchFold, g.name));
    if qs != [] {
      SceneActionsShape(g, scenes, qs, matchFold, |scenes|);
    }
  }

  lemma GroupsActionsShape(groups: seq<Catalog.Group>, scenes: seq<Catalog.Scene>, queries: seq<Query>, matchFold: Matcher, k: nat)
    requires k <= |groups|
    ensures forall a :: a in GroupsActions(groups, scenes, queries, matchFold, k) ==>
      GroupShaped(a, scenes) && a.group.value in groups
  {
    var f := GroupActionsOf(scenes, queries, matchFold);
    forall a | a in GroupsActions(groups, scenes, queries, matchFold, k)
      ensures GroupShaped(a, scenes) && a.group.value in groups
    {
      ConcatMember(groups, f, k, a);
      var i :| 0 <= i < k && a in f(groups[i]);
      GroupActionsShape(groups[i], scenes, queries, matchFold);
    }
  }

  /** Every action of a light is an on/off change of that light. */
  lemma LightActionsShape(l: Catalog.Light, queries: seq<Query>, matchFold: Matcher)
    ensures forall a :: a in LightActions(l, queries, matchFold) ==> LightShaped(a) && a.light == Some(l)
  {
    var qs := Filter(queries, NameMatch(matchFold, l.name));
    var target := QueryAction(light := Some(l));
    assert LightShaped(target.(onOff := On)) && LightShaped(target.(onOff := Off));
  }

  lemma LightsActionsShape(lights: seq<Catalog.Light>, queries: seq<Query>, matchFold: Matcher, k: nat)
    requires k <= |lights|
    ensures forall a :: a in LightsActions(lights, queries, matchFold, k) ==> LightShaped(a) && a.light.value in lights
  {
    var f := LightActionsOf(queries, matchFold);
    forall a | a in LightsActions(lights, queries, matchFold, k)
      ensures LightShaped(a) && a.light.value in lights
    {
      ConcatMember(lights, f, k, a);
      var i :| 0 <= i < k && a in f(lights[i]);
      LightActionsShape(lights[i], queries, matchFold);
    }
  }

  /**
   * Every action `Run` finds is a group action (an on/off change or a scene
   * of its own group) or a light action (an on/off change, never a scene),
   * and no group action comes after a light action.
   */
  lemma RunShape(groups: seq<Catalog.Group>, lights: seq<Catalog.Light>, scenes: seq<Catalog.Scene>, queries: seq<Query>, matchFold: Matcher)
    ensures var rs := RunActions(groups, lights, scenes, queries, matchFold);
      && (forall i :: 0 <= i < |rs| ==>
            || (GroupShaped(rs[i], scenes) && rs[i].group.value in groups)
            || (LightShaped(rs[i]) && rs[i].light.value in lights))
      && (forall i, j :: 0 <= i < j < |rs| && rs[i].light.Some? ==> rs[j].light.Some?)
  {
    var gs := GroupsActions(groups, scenes, queries, matchFold, |groups|);
    var ls := LightsActions(lights, queries, matchFold, |lights|);
    GroupsActionsShape(groups, scenes, queries, matchFold, |groups|);
    LightsActionsShape(lights, queries, matchFold, |lights|);
    var rs := gs + ls;
    forall i | 0 <= i < |rs|
      ensures || (GroupShaped(rs[i], scenes) && rs[i].group.value in groups)
              || (LightShaped(rs[i]) && rs[i].light.value in lights)
      ensures rs[i].light.Some? <==> i >= |gs|
    {
      if i < |gs| {
        assert rs[i] == gs[i] && gs[i] in gs;
      } else {
        assert rs[i] == ls[i - |gs|] && ls[i - |gs|] in ls;
      }
    }
  }

  /** A group or light contributes actions only when some pass names it. */
  lemma NamedOnly(g: Catalog.Group, l: Catalog.Light, scenes: seq<Catalog.Scene>, queries: seq<Query>, matchFold: Matcher)
    ensures GroupActions(g, scenes, queries, matchFold) != [] ==> exists q :: q in queries && matchFold(q.name, g.name)
    ensures LightActions(l, queries, matchFold) != [] ==> exists q :: q in queries && matchFold(q.name, l.name)
  {
    var gq := Filter(queries, NameMatch(matchFold, g.name));
    var lq := Filter(queries, NameMatch(matchFold, l.name));
    FilterMembers(queries, NameMatch(matchFold, g.name));
    FilterMembers(queries, NameMatch(matchFold, l.name));
    if gq != [] {
      assert gq[0] in gq;
    }
    if lq != [] {
      assert lq[0] in lq;
    }
  }

  /**
   * A group (or light) is turned on exactly when some pass names it and
   * asks for "on" or for nothing; likewise for "off".
   */
  lemma OnOffExact(target: Catalog.Group, light: Catalog.Light, scenes: seq<Catalog.Scene>, queries: seq<Query>, matchFold: Matcher, onoff: string)
    requires onoff in {On, Off}
    ensures QueryAction(group := Some(target), onOff := onoff) in GroupActions(target, scenes, queries, matchFold) <==>
      exists q :: q in queries && matchFold(q.name, target.name) && IsOnOff(q.action, onoff)
    ensures QueryAction(light := Some(light), onOff := onoff) in LightActions(light, queries, matchFold) <==>
      exists q :: q in queries && matchFold(q.name, light.name) && IsOnOff(q.action, onoff)
  {
    GroupOnOffExact(target, scenes, queries, matchFold, onoff);
    LightOnOffExact(light, queries, matchFold, onoff);
  }

  lemma GroupOnOffExact(target: Catalog.Group, scenes: seq<Catalog.Scene>, queries: seq<Query>, matchFold: Matcher, onoff: string)
    requires onoff in {On, Off}
    ensures QueryAction(group := Some(target), onOff := onoff) in GroupActions(target, scenes, queries, matchFold) <==>
      exists q :: q in queries && matchFold(q.name, target.name) && IsOnOff(q.action, onoff)
  {
    var gq := Filter(queries, NameMatch(matchFold, target.name));
    FilterMembers(queries, NameMatch(matchFold, target.name));
    if gq != [] {
      SceneActionsShape(target, scenes, gq, matchFold, |scenes|);
    }
    AnyMembers(gq, OnOffMatch(onoff));
  }

  lemma LightOnOffExact(light: Catalog.Light, queries: seq<Query>, matchFold: Matcher, onoff: string)
    requires onoff in {On, Off}
    ensures QueryAction(light := Some(light), onOff := onoff) in LightActions(light, queries, matchFold) <==>
      exists q :: q in queries && matchFold(q.name, light.name) && IsOnOff(q.action, onoff)
  {
    var lq := Filter(queries, NameMatch(matchFold, light.name));
    FilterMembers(queries, NameMatch(matchFold, light.name));
    AnyMembers(lq, OnOffMatch(onoff));
  }

  /** `Any` in terms of membership. */
  lemma AnyMembers(qs: seq<Query>, pred: Query -> bool)
    ensures Any(qs, pred) <==> exists q :: q in qs && pred(q)
  {
    if exists q :: q in qs && pred(q) {
      var q :| q in qs && pred(q);
      var i :| 0 <= i < |qs| && qs[i] == q;
    }
  }

  /**
   * A scene is offered for a group exactly when it belongs to the group and
   * some pass names both the group and the scene.
   */
  lemma SceneExact(g: Catalog.Group, s: Catalog.Scene, scenes: seq<Catalog.Scene>, queries: seq<Query>, matchFold: Matcher)
    requires s in scenes
    ensures QueryAction(group := Some(g), scene := Some(s)) in GroupActions(g, scenes, queries, matchFold) <==>
      InGroup(s, g) && exists q :: q in queries && matchFold(q.name, g.name) && matchFold(q.action.scene, s.name)
  {
    var qs := Filter(queries, NameMatch(matchFold, g.name));
    FilterMembers(queries, NameMatch(matchFold, g.name));
    AnyMembers(qs, SceneMatch(matchFold, s.name));
    SceneActionsMember(g, scenes, qs, matchFold, |scenes|, s);
  }

  lemma {:induction false} SceneActionsMember(g: Catalog.Group, scenes: seq<Catalog.Scene>, qs: seq<Query>, matchFold: Matcher, k: nat, s: Catalog.Scene)
    requires k <= |scenes|
    ensures QueryAction(group := Some(g), scene := Some(s)) in SceneActions(g, scenes, qs, matchFold, k) <==>
      (exists j :: 0 <= j < k && scenes[j] == s) && InGroup(s, g) && Any(qs, SceneMatch(matchFold, s.name))
  {
    if k > 0 {
      SceneActionsMember(g, scenes, qs, matchFold, k - 1, s);
      if scenes[k - 1] == s {
        assert exists j :: 0 <= j < k && scenes[j] == s;
      }
    }
  }

  /**
   * `Run` turns group `g` on (or off) exactly when `g` is in the catalog and
   * some pass names it and asks for that change or for nothing.
   */
  lemma RunGroupOnOff(groups: seq<Catalog.Group>, lights: seq<Catalog.Light>, scenes: seq<Catalog.Scene>, queries: seq<Query>, matchFold: Matcher, g: Catalog.Group, onoff: string)
    requires onoff in {On, Off}
    ensures QueryAction(group := Some(g), onOff := onoff) in RunActions(groups, lights, scenes, queries, matchFold) <==>
      g in groups && exists q :: q in queries && matchFold(q.name, g.name) && IsOnOff(q.action, onoff)
  {
    var a := QueryAction(group := Some(g), onOff := onoff);
    var f := GroupActionsOf(scenes, queries, matchFold);
    ConcatMember(groups, f, |groups|, a);
    LightsActionsShape(lights, queries, matchFold, |lights|);
    OnOffExact(g, Catalog.Light(0, ""), scenes, queries, matchFold, onoff);
    if a in GroupsActions(groups, scenes, queries, matchFold, |groups|) {
      var i :| 0 <= i < |groups| && a in f(groups[i]);
      GroupActionsShape(groups[i], scenes, queries, matchFold);
    }
    if g in groups && exists q :: q in queries && matchFold(q.name, g.name) && IsOnOff(q.action, onoff) {
      var i :| 0 <= i < |groups| && groups[i] == g;
      assert a in f(groups[i]);
    }
  }
}

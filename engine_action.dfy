/**
 * engine/action.go: a resolved action, what executing it asks of the
 * bridge, and how it is printed.
 *
 * Executing an action first refreshes its group or light from the bridge and
 * then makes one state-setting call. Both bridge round trips are outside the
 * model: the refresh outcome and the outcome of the call are supplied by an
 * `Environment`, and so is whether the action's colour converts to CIE xy
 * coordinates (`ColorXY` returning non-nil).
 */
module EngineAction {
  import opened Wrappers
  import opened Catalog
  import opened Errors

  /** `BoolOnOff`: the empty string means "no on/off change". */
  const BoolAny: string := ""
  const BoolOn: string := "on"
  const BoolOff: string := "off"

  /** A non-catalog pseudo-action, such as "link the bridge". */
  datatype Special = Special(id: string, message: string)

  /**
   * One candidate action. As in the source, any combination of fields may
   * be set; the defaults are Go's zero values.
   */
  datatype Action = Action(
    group: Option<Group> := None,
    light: Option<Light> := None,
    scene: Option<Scene> := None,
    onOff: string := BoolAny,
    color: string := "",
    special: Option<Special> := None)

  /** The state-setting bridge calls `Do` can make. */
  datatype Call =
    | ActivateScene(group: int, scene: string)
    | SetGroupState(group: int, on: bool, xy: bool)
    | SetLightState(light: int, on: bool, xy: bool)

  /** What `Do` decides: make one bridge call, or fail without one. */
  datatype Step = Invoke(call: Call) | Fail(err: Error)

  /** The bridge as `Do` sees it. */
  datatype Environment = Environment(
    refresh: Option<Error>,
    hasXY: string -> bool,
    execute: Call -> Option<Error>)

  /**
   * The dispatch of `Action.Do`: a group action prefers a scene, then "on",
   * then "off", then a colour; a light action prefers a colour, then "on",
   * then "off"; a failed refresh stops before any call.
   */
  function Dispatch(action: Action, refreshErr: Option<Error>, hasXY: bool): (step: Step)
    ensures step.Invoke? ==> refreshErr.None?
    ensures step.Invoke? && step.call.SetLightState? ==> action.group.None? && action.light.Some?
  {
    if action.group.Some? then
      var g := action.group.value;
      if refreshErr.Some? then Fail(Wrapped("Unable to find group", refreshErr.value))
      else if action.scene.Some? then Invoke(ActivateScene(g.id, action.scene.value.id))
      else if action.onOff == "on" then Invoke(SetGroupState(g.id, true, false))
      else if action.onOff == "off" then Invoke(SetGroupState(g.id, false, false))
      else if hasXY then Invoke(SetGroupState(g.id, true, true))
      else Fail(EngineInvalidAction)
    else if action.light.Some? then
      var l := action.light.value;
      if refreshErr.Some? then Fail(Wrapped("Unable to find light", refreshErr.value))
      else if hasXY then Invoke(SetLightState(l.id, true, true))
      else if action.onOff == "on" then Invoke(SetLightState(l.id, true, false))
      else if action.onOff == "off" then Invoke(SetLightState(l.id, false, false))
      else Fail(EngineInvalidAction)
    else Fail(EngineInvalidAction)
  }

  /** `Action.Do`: the error it returns (None for success). */
  function Do(action: Action, env: Environment): (err: Option<Error>)
    ensures action.group.None? && action.light.None? ==> err == Some(EngineInvalidAction)
    ensures env.refresh.Some? && (action.group.Some? || action.light.Some?) ==>
      err == Some(Wrapped(if action.group.Some? then "Unable to find group" else "Unable to find light", env.refresh.value))
    ensures err.None? ==> env.refresh.None? && Dispatch(action, None, env.hasXY(action.color)).Invoke?
  {
    match Dispatch(action, env.refresh, env.hasXY(action.color))
    case Invoke(call) => env.execute(call)
    case Fail(err) => Some(err)
  }

  /** An action with neither a group nor a light is always invalid. */
  lemma DoWithoutTarget(action: Action, env: Environment)
    requires action.group.None? && action.light.None?
    ensures Do(action, env) == Some(EngineInvalidAction)
  {
  }

  /** A failed refresh is reported, wrapped, before any bridge call. */
  lemma DoRefreshFailure(action: Action, env: Environment)
    requires action.group.Some? || action.light.Some?
    requires env.refresh.Some?
    ensures Do(action, env) == Some(Wrapped(
      if action.group.Some? then "Unable to find group" else "Unable to find light",
      env.refresh.value))
  {
  }

  /**
   * The precedence among a group action's changes: a scene wins over
   * "on"/"off", which win over a colour; with none of them it is invalid.
   */
  lemma GroupDispatch(action: Action, hasXY: bool)
    requires action.group.Some?
    ensures var g := action.group.value;
      Dispatch(action, None, hasXY) ==
        if action.scene.Some? then Invoke(ActivateScene(g.id, action.scene.value.id))
        else if action.onOff in {"on", "off"} then Invoke(SetGroupState(g.id, action.onOff == "on", false))
        else if hasXY then Invoke(SetGroupState(g.id, true, true))
        else Fail(EngineInvalidAction)
  {
  }

  /**
   * The precedence among a light action's changes: a colour wins over
   * "on"/"off"; a scene is never used; with none of them it is invalid.
   */
  lemma LightDispatch(action: Action, hasXY: bool)
    requires action.group.None? && action.light.Some?
    ensures var l := action.light.value;
      Dispatch(action, None, hasXY) ==
        if hasXY then Invoke(SetLightState(l.id, true, true))
        else if action.onOff in {"on", "off"} then Invoke(SetLightState(l.id, action.onOff == "on", false))
        else Fail(EngineInvalidAction)
  {
  }

  //
  // String
  //

  /** `%q` formatting, without Go's escaping of special characters. */
  function Quote(s: string): string {
    "\"" + s + "\""
  }

  /** The printed target: "<invalid>" exactly when there is neither a group nor a light. */
  function TargetText(res: Action): (s: string)
    ensures s == "<invalid>" <==> res.group.None? && res.light.None?
  {
    if res.group.Some? then
      var s := "Room " + Quote(res.group.value.name);
      assert s[0] != "<invalid>"[0];
      s
    else if res.light.Some? then
      var s := "Light " + Quote(res.light.value.name);
      assert s[0] != "<invalid>"[0];
      s
    else "<invalid>"
  }

  /** The printed change: empty exactly when there is no on/off, no colour and no scene. */
  function ChangeText(res: Action): (s: string)
    ensures s == "" <==> res.onOff != "on" && res.onOff != "off" && res.color == "" && res.scene.None?
  {
    if res.onOff == "on" then "turn on"
    else if res.onOff == "off" then "turn off"
    else if res.color != "" then "turn " + res.color
    else if res.scene.Some? then "activate " + Quote(res.scene.value.name)
    else ""
  }

  /** `Action.String`: "<target>: <change>". */
  function String(res: Action): (s: string)
    ensures TargetText(res) + ": " <= s
    ensures |s| == |TargetText(res)| + 2 + |ChangeText(res)|
  {
    TargetText(res) + ": " + ChangeText(res)
  }

  /**
   * The printed target is the group when there is one, else the light, else
   * "<invalid>"; the printed change is on, off, colour, scene in that order
   * of preference.
   */
  lemma StringPrecedence(res: Action)
    ensures res.group.Some? ==> TargetText(res) == "Room " + Quote(res.group.value.name)
    ensures res.group.None? && res.light.Some? ==> TargetText(res) == "Light " + Quote(res.light.value.name)
    ensures res.group.None? && res.light.None? ==> TargetText(res) == "<invalid>"
    ensures res.onOff in {"on", "off"} ==> ChangeText(res) == "turn " + res.onOff
    ensures res.onOff !in {"on", "off"} && res.color != "" ==> ChangeText(res) == "turn " + res.color
    ensures res.onOff !in {"on", "off"} && res.color == "" && res.scene.Some? ==>
      ChangeText(res) == "activate " + Quote(res.scene.value.name)
    ensures res.onOff !in {"on", "off"} && res.color == "" && res.scene.None? ==> ChangeText(res) == ""
  {
  }
}

/**
 * action.go (root package): the action a query resolves to, executing it
 * against the bridge, and printing it.
 *
 * Executing a group or light action first refreshes that group or light
 * from the bridge and then makes one state-setting call. Both round trips
 * are outside the model: the refresh outcome is a parameter, and the call
 * is passed to an `execute` function that returns its error. The calls are
 * the ones engine/action.go makes, always without colour.
 */
module HuelioAction {
  import opened Wrappers
  import opened Catalog
  import opened Errors
  import opened ScoreBuffer
  import EngineAction

  /**
   * `QueryAction`: the target (a group or a light), the change (a scene or
   * an on/off value), a special pseudo-action, and the rows of match scores
   * the ranking reads. Any combination of fields may be set; the defaults
   * are Go's zero values.
   */
  datatype QueryAction = QueryAction(
    matchScores: Buffer := [],
    group: Option<Group> := None,
    light: Option<Light> := None,
    scene: Option<Scene> := None,
    onOff: string := EngineAction.BoolAny,
    special: Option<EngineAction.Special> := None)

  /** The same action as engine/action.go's record, which has no colour here. */
  function ToEngine(a: QueryAction): (e: EngineAction.Action)
    ensures e.color == "" && e.onOff == a.onOff
    ensures e.group == a.group && e.light == a.light && e.scene == a.scene && e.special == a.special
  {
    EngineAction.Action(a.group, a.light, a.scene, a.onOff, "", a.special)
  }

  //
  // Do
  //

  /**
   * The dispatch of `QueryAction.Do`: a group action prefers a scene, then
   * "on", then "off"; a light action knows only "on" and "off"; a failed
   * refresh stops before any call, and anything else is invalid.
   */
  function Dispatch(action: QueryAction, refreshErr: Option<Error>): (step: EngineAction.Step)
    ensures step.Invoke? ==> refreshErr.None?
    ensures step.Invoke? && step.call.ActivateScene? ==>
      && action.group.Some? && action.scene.Some?
      && step.call == EngineAction.ActivateScene(action.group.value.id, action.scene.value.id)
    ensures step.Invoke? && step.call.SetGroupState? ==>
      && action.group.Some? && action.scene.None? && action.onOff in {"on", "off"}
      && step.call == EngineAction.SetGroupState(action.group.value.id, action.onOff == "on", false)
    ensures step.Invoke? && step.call.SetLightState? ==>
      && action.group.None? && action.light.Some? && action.onOff in {"on", "off"}
      && step.call == EngineAction.SetLightState(action.light.value.id, action.onOff == "on", false)
    ensures step.Fail? && refreshErr.None? ==> step.err == RootInvalidAction
  {
    if action.group.Some? then
      var g := action.group.value;
      if refreshErr.Some? then EngineAction.Fail(Wrapped("Unable to find group", refreshErr.value))
      else if action.scene.Some? then EngineAction.Invoke(EngineAction.ActivateScene(g.id, action.scene.value.id))
      else if action.onOff == "on" then EngineAction.Invoke(EngineAction.SetGroupState(g.id, true, false))
      else if action.onOff == "off" then EngineAction.Invoke(EngineAction.SetGroupState(g.id, false, false))
      else EngineAction.Fail(RootInvalidAction)
    else if action.light.Some? then
      var l := action.light.value;
      if refreshErr.Some? then EngineAction.Fail(Wrapped("Unable to find light", refreshErr.value))
      else if action.onOff == "on" then EngineAction.Invoke(EngineAction.SetLightState(l.id, true, false))
      else if action.onOff == "off" then EngineAction.Invoke(EngineAction.SetLightState(l.id, false, false))
      else EngineAction.Fail(RootInvalidAction)
    else EngineAction.Fail(RootInvalidAction)
  }

  /** `QueryAction.Do`: the error it returns (None for success). */
  function Do(action: QueryAction, refreshErr: Option<Error>, execute: EngineAction.Call -> Option<Error>): (err: Option<Error>)
    ensures refreshErr.Some? && (action.group.Some? || action.light.Some?) ==>
      err == Some(Wrapped(if action.group.Some? then "Unable to find group" else "Unable to find light", refreshErr.value))
    ensures action.group.None? && action.light.None? ==> err == Some(RootInvalidAction)
  {
    match Dispatch(action, refreshErr)
    case Invoke(call) => execute(call)
    case Fail(err) => Some(err)
  }

  /**
   * The precedence among a group action's changes: a scene wins over
   * "on"/"off"; with neither it is invalid.
   */
  lemma GroupDispatch(action: QueryAction)
    requires action.group.Some?
    ensures var g := action.group.value;
      Dispatch(action, None) ==
        if action.scene.Some? then EngineAction.Invoke(EngineAction.ActivateScene(g.id, action.scene.value.id))
        else if action.onOff in {"on", "off"} then EngineAction.Invoke(EngineAction.SetGroupState(g.id, action.onOff == "on", false))
        else EngineAction.Fail(RootInvalidAction)
  {
  }

  /** A light action knows only "on" and "off"; a scene on it is ignored. */
  lemma LightDispatch(action: QueryAction)
    requires action.group.None? && action.light.Some?
    ensures var l := action.light.value;
      Dispatch(action, None) ==
        if action.onOff in {"on", "off"} then EngineAction.Invoke(EngineAction.SetLightState(l.id, action.onOff == "on", false))
        else EngineAction.Fail(RootInvalidAction)
  {
  }

  /**
   * Against engine/action.go's dispatch for the same action without a
   * colour: the same step, except that the invalid-action error is this
   * package's own.
   */
  lemma DispatchAgrees(action: QueryAction, refreshErr: Option<Error>)
    ensures var e := EngineAction.Dispatch(ToEngine(action), refreshErr, false);
      Dispatch(action, refreshErr) ==
        if e == EngineAction.Fail(EngineInvalidAction) then EngineAction.Fail(RootInvalidAction) else e
  {
  }

  //
  // String
  //

  /** The target part of `QueryAction.String`: the group, else the light, else "<invalid>". */
  function TargetText(res: QueryAction): (s: string)
    ensures s == EngineAction.TargetText(ToEngine(res))
  {
    if res.group.Some? then "Room " + EngineAction.Quote(res.group.value.name)
    else if res.light.Some? then "Light " + EngineAction.Quote(res.light.value.name)
    else "<invalid>"
  }

  /** The change part of `QueryAction.String`: on, off, else the scene, else nothing. */
  function ChangeText(res: QueryAction): (s: string)
    ensures s == EngineAction.ChangeText(ToEngine(res))
  {
    if res.onOff == "on" then "turn on"
    else if res.onOff == "off" then "turn off"
    else if res.scene.Some? then "activate " + EngineAction.Quote(res.scene.value.name)
    else ""
  }

  /** `QueryAction.String`: "<target>: <change>". */
  function String(res: QueryAction): (s: string)
    ensures s == EngineAction.String(ToEngine(res))
  {
    TargetText(res) + ": " + ChangeText(res)
  }

  /**
   * On and off win over a scene in the printed change, and a group wins
   * over a light in the printed target.
   */
  lemma StringPrecedence(res: QueryAction)
    ensures res.group.Some? ==> TargetText(res) == "Room \"" + res.group.value.name + "\""
    ensures res.group.None? && res.light.Some? ==> TargetText(res) == "Light \"" + res.light.value.name + "\""
    ensures res.onOff in {"on", "off"} ==> ChangeText(res) == "turn " + res.onOff
    ensures res.group.None? && res.light.None? ==> TargetText(res) == "<invalid>"
    ensures res.onOff !in {"on", "off"} && res.scene.Some? ==>
      ChangeText(res) == "activate \"" + res.scene.value.name + "\""
    ensures res.onOff !in {"on", "off"} && res.scene.None? ==> ChangeText(res) == ""
  {
  }
}

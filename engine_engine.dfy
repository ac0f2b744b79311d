/**
 * engine/engine.go: the engine object that owns the bridge connection and
 * the index built from it.
 *
 * The engine starts without a bridge; linking (through a user-supplied
 * connect callback) or `SetBridge` installs one and switches the engine to
 * read-only mode, in which actions take only the read lock. The index is
 * rebuilt by `RefreshIndex`, which the source starts as a goroutine; here it
 * is a separate call, and the bridge fetches, the context's error and the
 * connect callback's outcome are parameters. The lock itself is not
 * modelled: each method runs as one step.
 */
module EngineState {
  import opened Wrappers
  import opened Catalog
  import opened Errors
  import opened ScoreBuffer
  import opened EngineAction
  import opened EngineQuery
  import opened EngineResults
  import opened EngineIndex

  /** `linkAction`: the one special action, offered while no bridge is linked. */
  const LinkAction: Special := Special("link", "Link Hue Bridge")

  /**
   * What the connect callback produced: a bridge, or an error. A callback
   * that returns neither (which engine.go would accept, leaving the engine
   * read-only with no bridge) is not expressible; the callback in
   * creds/manager.go always returns one of the two.
   */
  datatype ConnectOutcome = Connected(bridge: Bridge) | ConnectFailed(err: Error)

  /** The answer `Query` gives without a bridge: just the link action, with zero scores. */
  function LinkSpecial(): (r: (seq<Action>, seq<Buffer>, seq<Score>))
    ensures |r.0| == |r.1| == |r.2| == 1
    ensures r.0[0].special == Some(LinkAction) && r.0[0].group.None? && r.0[0].light.None?
  {
    ([Action(special := Some(LinkAction))], [[]], [[0.0, 0.0, 0.0, 0.0]])
  }

  class Engine {
    /** Whether actions take only the read lock (set once a bridge is installed). */
    var readOnly: bool
    /** Whether a connect callback was supplied. */
    var hasConnect: bool
    var bridge: Option<Bridge>
    var index: Option<Index>
    var indexErr: Option<Error>

    /**
     * The engine is read-only exactly when it has a bridge; an index (and an
     * index error) exists only for a bridge.
     */
    ghost predicate Valid()
      reads this
    {
      && (readOnly <==> bridge.Some?)
      && (index.Some? ==> bridge.Some?)
      && (indexErr.Some? ==> index.Some?)
    }

    /** `NewEngine`: installs the bridge when one is given. */
    constructor(b: Option<Bridge>, hasConnect: bool)
      ensures Valid()
      ensures this.hasConnect == hasConnect
      ensures bridge == b && readOnly == b.Some? && index.None? && indexErr.None?
    {
      this.hasConnect := hasConnect;
      readOnly := b.Some?;
      bridge := b;
      index := None;
      indexErr := None;
    }

    /**
     * `RefreshIndex`: a cancelled context or a missing bridge leave the
     * engine as it is; otherwise the index is replaced by the fetched one,
     * along with the fetch error, which is also returned.
     */
    method RefreshIndex(ctxErr: Option<Error>, fetched: Fetched) returns (err: Option<Error>)
      requires Valid()
      modifies this
      ensures Valid()
      ensures ctxErr.Some? ==> err == ctxErr && unchanged(this)
      ensures ctxErr.None? && old(bridge).None? ==> err == Some(EngineMissingBridge) && unchanged(this)
      ensures ctxErr.None? && old(bridge).Some? ==>
        && index == Some(Index(fetched.groups, fetched.lights, fetched.scenes))
        && indexErr == fetched.err && err == fetched.err
        && readOnly == old(readOnly) && bridge == old(bridge) && hasConnect == old(hasConnect)
    {
      if ctxErr.Some? {
        return ctxErr;
      }
      if bridge.None? {
        return Some(EngineMissingBridge);
      }
      var (newIndex, newErr) := NewIndex(bridge, fetched);
      index := Some(newIndex);
      indexErr := newErr;
      return indexErr;
    }

    /** `SetBridge`: installs `b`, drops the old index and turns read-only on. */
    method SetBridge(b: Bridge)
      requires Valid()
      modifies this
      ensures Valid()
      ensures readOnly && bridge == Some(b) && index.None? && indexErr.None?
      ensures hasConnect == old(hasConnect)
    {
      readOnly := true;
      bridge := Some(b);
      index := None;
      indexErr := None;
    }

    /**
     * `Engine.Query`: without a bridge, only the link action; with a bridge
     * but no index yet, `ErrEngineMissingIndex`; a failed refresh reports
     * its error; otherwise the index's sorted candidates for the passes of
     * the input.
     */
    method Query(input: string, m: Matchers)
      returns (actions: seq<Action>, matchScores: seq<Buffer>, scores: seq<Score>, err: Option<Error>)
      requires Valid()
      ensures bridge.None? ==> (actions, matchScores, scores) == LinkSpecial() && err.None?
      ensures bridge.Some? && index.None? ==>
        actions == [] && matchScores == [] && scores == [] && err == Some(EngineMissingIndex)
      ensures bridge.Some? && index.Some? && indexErr.Some? ==>
        actions == [] && matchScores == [] && scores == [] && err == indexErr
      ensures bridge.Some? && index.Some? && indexErr.None? ==>
        && err.None?
        && |actions| == |matchScores| == |scores|
        && multiset(Zip(actions, scores, matchScores)) == multiset(Scored(Candidates(index.value, Passes(input), m)))
        && Sorted(scores)
    {
      if bridge.None? {
        actions, matchScores, scores := LinkSpecial().0, LinkSpecial().1, LinkSpecial().2;
        return actions, matchScores, scores, None;
      }
      if index.None? {
        return [], [], [], Some(EngineMissingIndex);
      }
      if indexErr.Some? {
        return [], [], [], indexErr;
      }
      actions, matchScores, scores := QueryString(index.value, input, m);
      err := None;
    }

    /**
     * `linkInternal`: refuses without the write lock, does nothing when a
     * bridge is already linked, fails without a connect callback or when it
     * fails, and otherwise installs the new bridge and turns read-only on.
     * The index is left alone: there is none without a bridge.
     */
    method LinkInternal(writeLock: bool, outcome: ConnectOutcome) returns (err: Option<Error>)
      requires Valid()
      modifies this
      ensures Valid()
      ensures !writeLock ==> err == Some(EngineInvalidSpecial) && unchanged(this)
      ensures writeLock && old(bridge).Some? ==> err.None? && unchanged(this)
      ensures writeLock && old(bridge).None? && !old(hasConnect) ==> err == Some(EngineNoConnect) && unchanged(this)
      ensures writeLock && old(bridge).None? && old(hasConnect) && outcome.ConnectFailed? ==>
        err == Some(outcome.err) && unchanged(this)
      ensures writeLock && old(bridge).None? && old(hasConnect) && outcome.Connected? ==>
        && err.None? && readOnly && bridge == Some(outcome.bridge)
        && index == old(index) && indexErr == old(indexErr) && hasConnect == old(hasConnect)
    {
      if !writeLock {
        return Some(EngineInvalidSpecial);
      }
      if bridge.Some? {
        return None;
      }
      if !hasConnect {
        return Some(EngineNoConnect);
      }
      match outcome
      case ConnectFailed(e) =>
        return Some(e);
      case Connected(b) =>
        readOnly := true;
        bridge := Some(b);
        return None;
    }

    /** `Link`: `linkInternal` under the write lock. */
    method Link(outcome: ConnectOutcome) returns (err: Option<Error>)
      requires Valid()
      modifies this
      ensures Valid()
      ensures old(bridge).Some? ==> err.None? && unchanged(this)
      ensures old(bridge).None? && !old(hasConnect) ==> err == Some(EngineNoConnect) && unchanged(this)
      ensures old(bridge).None? && old(hasConnect) ==>
        match outcome
        case ConnectFailed(e) => err == Some(e) && unchanged(this)
        case Connected(b) =>
          && err.None? && readOnly && bridge == Some(b)
          && index == old(index) && indexErr == old(indexErr) && hasConnect == old(hasConnect)
    {
      err := LinkInternal(true, outcome);
    }

    /**
     * `doSpecial`: the link action links (always claiming the write lock,
     * whatever lock the caller took); any other special is invalid.
     */
    method DoSpecial(special: Special, writeLock: bool, outcome: ConnectOutcome) returns (err: Option<Error>)
      requires Valid()
      modifies this
      ensures Valid()
      ensures special.id != LinkAction.id ==> err == Some(EngineInvalidSpecial) && unchanged(this)
      ensures special.id == LinkAction.id && old(bridge).Some? ==> err.None? && unchanged(this)
      ensures special.id == LinkAction.id && old(bridge).None? && !old(hasConnect) ==>
        err == Some(EngineNoConnect) && unchanged(this)
      ensures special.id == LinkAction.id && old(bridge).None? && old(hasConnect) && outcome.ConnectFailed? ==>
        err == Some(outcome.err) && unchanged(this)
      ensures special.id == LinkAction.id && old(bridge).None? && old(hasConnect) && outcome.Connected? ==>
        && err.None? && readOnly && bridge == Some(outcome.bridge)
        && index == old(index) && indexErr == old(indexErr) && hasConnect == old(hasConnect)
    {
      if special.id == LinkAction.id {
        err := LinkInternal(true, outcome);
      } else {
        err := Some(EngineInvalidSpecial);
      }
    }

    /**
     * `Engine.Do`: the write lock is taken only before a bridge is linked.
     * A special action goes to `doSpecial`, anything else to `Action.Do`
     * against the bridge. Once the engine is read-only, `Do` changes
     * nothing, so running it under the read lock is safe.
     */
    method Do(action: Action, env: Environment, outcome: ConnectOutcome) returns (err: Option<Error>)
      requires Valid()
      modifies this
      ensures Valid()
      ensures old(readOnly) ==> unchanged(this)
      ensures action.special.None? ==> err == EngineAction.Do(action, env) && unchanged(this)
      ensures action.special.Some? && action.special.value.id != LinkAction.id ==>
        err == Some(EngineInvalidSpecial) && unchanged(this)
      ensures action.special.Some? && action.special.value.id == LinkAction.id && old(readOnly) ==>
        err.None? && unchanged(this)
      ensures action.special.Some? && action.special.value.id == LinkAction.id && !old(readOnly) && !old(hasConnect) ==>
        err == Some(EngineNoConnect) && unchanged(this)
      ensures action.special.Some? && action.special.value.id == LinkAction.id && !old(readOnly) && old(hasConnect)
              && outcome.ConnectFailed? ==>
        err == Some(outcome.err) && unchanged(this)
      ensures action.special.Some? && action.special.value.id == LinkAction.id && !old(readOnly) && old(hasConnect)
              && outcome.Connected? ==>
        && err.None? && readOnly && bridge == Some(outcome.bridge)
        && index == old(index) && indexErr == old(indexErr) && hasConnect == old(hasConnect)
    {
      var writeLock := !readOnly;
      if action.special.Some? {
        err := DoSpecial(action.special.value, writeLock, outcome);
        return;
      }
      err := EngineAction.Do(action, env);
    }
  }
}

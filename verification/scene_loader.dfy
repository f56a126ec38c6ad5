/**
 * The scene loader (Runtime/Scripts/Managers/Mono/SceneLoader/SceneLoader.cs):
 * a single-flight state machine that saves, optionally plays the transition
 * in, loads a scene group through the scene-group manager with the loading
 * camera on, optionally plays the transition out, and then accepts the next
 * request.
 *
 * The awaits of the asynchronous call are its suspension points: an accepted
 * call runs up to its first await and the phase records where it is
 * suspended; Resume runs it from there to the next await (or to its end).
 */
module Loader {
  import opened Optional
  import opened SceneEnv
  import opened SceneGroups

  datatype SceneTransition = NoTransition | TransitionOut | TransitionInAndOut

  /** Where an accepted call is: none in flight, or suspended at one of its three awaits. */
  datatype Phase = Idle | TransitioningIn | Loading | TransitioningOut

  /** The arguments of the call in flight. */
  datatype Request = Request(index: int, reloadDupScenes: bool, transition: SceneTransition)

  /** What the loader does outside its own state, in order. */
  datatype Event =
    | SaveGameRaised
    | ProgressBarInitialized
    | TransitionInStarted
    | LoopingSoundsFreed
    | LoadingCamera(on: bool)
    | LoadScenesCalled(group: SceneGroup, reloadDupScenes: bool, delay: int)
    | TransitionOutStarted

  // ---------------------------------------------------------------------------
  // Progress forwarding (LoadingProgress, lines 87-97)

  /** The ratio the progress sink divides by. */
  const Ratio: real := 1.0

  /** A reported value, as the progress sink forwards it: unchanged, since the ratio is one. */
  function Report(value: real): (forwarded: real)
    ensures forwarded == value
  {
    value / Ratio
  }

  function ForwardAll(values: seq<real>): seq<real>
  {
    seq(|values|, i requires 0 <= i < |values| => Report(values[i]))
  }

  /** The progress bar shows exactly the values the scene-group manager reports, in order. */
  lemma ForwardingKeepsValues(values: seq<real>)
    ensures ForwardAll(values) == values
  {
    assert forall i :: 0 <= i < |values| ==> ForwardAll(values)[i] == values[i];
  }

  // ---------------------------------------------------------------------------
  // The events of one accepted call

  /** Save, progress bar, and the transition in only for TransitionInAndOut (lines 43-49). */
  function OpeningEvents(transition: SceneTransition): seq<Event>
  {
    [SaveGameRaised, ProgressBarInitialized] + (if transition == TransitionInAndOut then [TransitionInStarted] else [])
  }

  /** Looping sounds freed, loading camera on, the scene-group load (lines 50-55). */
  function LoadingEvents(group: SceneGroup, reload: bool, delay: int): seq<Event>
  {
    [LoopingSoundsFreed, LoadingCamera(true), LoadScenesCalled(group, reload, delay)]
  }

  /** Loading camera off, and the transition out for TransitionOut and TransitionInAndOut (lines 56-63). */
  function ClosingEvents(transition: SceneTransition): seq<Event>
  {
    [LoadingCamera(false)] + (if transition != NoTransition then [TransitionOutStarted] else [])
  }

  function CallEvents(group: SceneGroup, reload: bool, delay: int, transition: SceneTransition): seq<Event>
  {
    OpeningEvents(transition) + LoadingEvents(group, reload, delay) + ClosingEvents(transition)
  }

  /** The events an accepted call has raised by the time it is suspended in the given phase (all of them once it is over). */
  function EventsUntil(phase: Phase, group: SceneGroup, reload: bool, delay: int, transition: SceneTransition): seq<Event>
  {
    match phase
    case TransitioningIn => OpeningEvents(transition)
    case Loading => OpeningEvents(transition) + LoadingEvents(group, reload, delay)
    case TransitioningOut => CallEvents(group, reload, delay, transition)
    case Idle => CallEvents(group, reload, delay, transition)
  }

  /** Whatever the phase, what has been raised is a prefix of the call's events. */
  lemma EventsUntilArePrefix(phase: Phase, group: SceneGroup, reload: bool, delay: int, transition: SceneTransition)
    ensures EventsUntil(phase, group, reload, delay, transition) <= CallEvents(group, reload, delay, transition)
  {
    var opening, loading := OpeningEvents(transition), LoadingEvents(group, reload, delay);
    assert CallEvents(group, reload, delay, transition) == (opening + loading) + ClosingEvents(transition);
    assert (opening + loading) + ClosingEvents(transition) == opening + (loading + ClosingEvents(transition));
  }

  /**
   * The order of one call: the save comes first; the transition in is played
   * exactly for TransitionInAndOut and before the sounds are freed; the
   * scene-group load is bracketed by the loading camera; the transition out is
   * played exactly for TransitionOut and TransitionInAndOut, and last.
   */
  lemma CallOrder(group: SceneGroup, reload: bool, delay: int, transition: SceneTransition)
    ensures var e := CallEvents(group, reload, delay, transition);
      var k := if transition == TransitionInAndOut then 1 else 0;
      && |e| == 6 + k + (if transition != NoTransition then 1 else 0)
      && e[0] == SaveGameRaised && e[1] == ProgressBarInitialized
      && (TransitionInStarted in e <==> transition == TransitionInAndOut)
      && (transition == TransitionInAndOut ==> e[2] == TransitionInStarted)
      && e[2 + k] == LoopingSoundsFreed
      && e[3 + k] == LoadingCamera(true)
      && e[4 + k] == LoadScenesCalled(group, reload, delay)
      && e[5 + k] == LoadingCamera(false)
      && (TransitionOutStarted in e <==> transition != NoTransition)
      && (transition != NoTransition ==> e[|e| - 1] == TransitionOutStarted)
  {
  }

  /** The closing events complete a call whose opening and loading events have been raised. */
  lemma ClosingCompletesCall(start: seq<Event>, group: SceneGroup, reload: bool, delay: int, transition: SceneTransition)
    ensures (start + (OpeningEvents(transition) + LoadingEvents(group, reload, delay))) + ClosingEvents(transition)
            == start + CallEvents(group, reload, delay, transition)
  {
    var opening, loading, closing := OpeningEvents(transition), LoadingEvents(group, reload, delay), ClosingEvents(transition);
    assert (start + (opening + loading)) + closing == start + ((opening + loading) + closing);
  }

  /** The loading events follow the opening ones. */
  lemma LoadingFollowsOpening(start: seq<Event>, group: SceneGroup, reload: bool, delay: int, transition: SceneTransition)
    ensures (start + OpeningEvents(transition)) + LoadingEvents(group, reload, delay)
            == start + (OpeningEvents(transition) + LoadingEvents(group, reload, delay))
  {
  }

  /** How far a phase is from the end of the call: every resumption lowers it. */
  function Rank(phase: Phase): nat
  {
    match phase
    case Idle => 0
    case TransitioningOut => 1
    case Loading => 2
    case TransitioningIn => 3
  }

  class SceneLoader {
    /** The configured scene groups. */
    const sceneGroups: seq<SceneGroup>
    const sceneLoadDelay: int
    const manager: SceneGroupManager
    const world: SceneWorld

    var isTransitioning: bool
    var isLoading: bool
    var loadingCamera: bool
    var phase: Phase
    /** The arguments of the call in flight, or of the last one. */
    var request: Request
    /** Everything raised outside the loader's own state, in order. */
    var trace: seq<Event>
    /** The values shown by the current progress bar. */
    var progressed: seq<real>

    /** The number of accepted calls, and the trace as it was when the last one was accepted. */
    ghost var accepted: nat
    ghost var callStart: seq<Event>

    ghost predicate Valid()
      reads this
    {
      && (phase == Idle <==> !isTransitioning)
      && (isLoading <==> phase == Loading)
      && (loadingCamera <==> phase == Loading)
      && (phase != Idle ==> accepted > 0 && 0 <= request.index < |sceneGroups|)
      && (phase == TransitioningIn ==> request.transition == TransitionInAndOut)
      && (phase == TransitioningOut ==> request.transition != NoTransition)
      && (accepted == 0 ==> trace == [])
      && (accepted > 0 ==> 0 <= request.index < |sceneGroups|)
      && (accepted > 0 && 0 <= request.index < |sceneGroups| ==>
           trace == callStart + EventsUntil(phase, sceneGroups[request.index], request.reloadDupScenes,
                                            sceneLoadDelay, request.transition))
    }

    /** Awake: the loader starts idle, with the manager and engine it is given. */
    constructor (groups: seq<SceneGroup>, delay: int, sceneGroupManager: SceneGroupManager, sceneWorld: SceneWorld)
      ensures Valid()
      ensures sceneGroups == groups && sceneLoadDelay == delay && manager == sceneGroupManager && world == sceneWorld
      ensures phase == Idle && trace == [] && progressed == []
    {
      sceneGroups, sceneLoadDelay, manager, world := groups, delay, sceneGroupManager, sceneWorld;
      isTransitioning, isLoading, loadingCamera := false, false, false;
      phase := Idle;
      request := Request(0, false, NoTransition);
      trace, progressed := [], [];
      accepted, callStart := 0, [];
    }

    /** An index names a configured group exactly when it is within bounds. */
    function IsIndexValid(index: int): (valid: bool)
      ensures valid <==> 0 <= index < |sceneGroups|
    {
      !(index < 0 || index >= |sceneGroups|)
    }

    /**
     * LoadSceneGroup up to its first await. A call is accepted exactly when
     * the index is valid and no call is in flight; a rejected call changes
     * nothing, here, in the manager or in the engine. An accepted call marks
     * the loader as transitioning, raises the save and opens a progress bar,
     * and is then suspended in the transition in (TransitionInAndOut) or in
     * the scene-group load (otherwise).
     */
    method LoadSceneGroup(index: int, reloadDupScenes: bool, transition: SceneTransition) returns (started: bool)
      requires Valid()
      modifies this, manager, world
      ensures Valid()
      ensures started <==> 0 <= index < |sceneGroups| && !old(isTransitioning)
      ensures !started ==> unchanged(this) && unchanged(manager) && unchanged(world)
      ensures started ==> && request == Request(index, reloadDupScenes, transition)
                          && callStart == old(trace) && accepted == old(accepted) + 1
                          && phase == (if transition == TransitionInAndOut then TransitioningIn else Loading)
      ensures started && transition == TransitionInAndOut ==> unchanged(manager) && unchanged(world) && progressed == []
      ensures started && transition != TransitionInAndOut ==>
        GroupLoaded(manager, world, old(world.scenes), old(manager.handles), old(manager.signals), old(world.calls),
          sceneGroups[index], reloadDupScenes, progressed)
    {
      if !IsIndexValid(index) || isTransitioning {
        return false;
      }
      started := true;
      Accept(index, reloadDupScenes, transition);
      if transition != TransitionInAndOut {
        StartLoading();
      }
    }

    /** Lines 40-49: marks the loader as transitioning, raises the save, opens a progress bar and plays the transition in when asked to. */
    method Accept(index: int, reloadDupScenes: bool, transition: SceneTransition)
      requires Valid() && !isTransitioning && 0 <= index < |sceneGroups|
      modifies this`isTransitioning, this`request, this`accepted, this`callStart, this`trace, this`progressed, this`phase
      ensures isTransitioning && request == Request(index, reloadDupScenes, transition)
      ensures callStart == old(trace) && accepted == old(accepted) + 1
      ensures trace == callStart + OpeningEvents(transition) && progressed == []
      ensures phase == (if transition == TransitionInAndOut then TransitioningIn else Idle)
    {
      isTransitioning := true;
      request := Request(index, reloadDupScenes, transition);
      accepted, callStart := accepted + 1, trace;
      trace := trace + [SaveGameRaised];
      progressed := [];
      trace := trace + [ProgressBarInitialized];
      if transition == TransitionInAndOut {
        trace := trace + [TransitionInStarted];
        phase := TransitioningIn;
      }
    }

    /** Lines 50-55: frees the looping sounds, switches to loading with the camera on, and loads the requested group. */
    method StartLoading()
      requires 0 <= request.index < |sceneGroups| && accepted > 0
      requires isTransitioning && !isLoading && !loadingCamera
      requires trace == callStart + OpeningEvents(request.transition)
      modifies this`isLoading, this`loadingCamera, this`phase, this`trace, this`progressed, manager, world
      ensures phase == Loading && isLoading && loadingCamera
      ensures trace == callStart + EventsUntil(Loading, sceneGroups[request.index], request.reloadDupScenes,
                                               sceneLoadDelay, request.transition)
      ensures |progressed| >= |old(progressed)| && progressed[..|old(progressed)|] == old(progressed)
      ensures GroupLoaded(manager, world, old(world.scenes), old(manager.handles), old(manager.signals), old(world.calls),
                          sceneGroups[request.index], request.reloadDupScenes, progressed[|old(progressed)|..])
    {
      EnterLoading();
      LoadAndForward(sceneGroups[request.index], request.reloadDupScenes);
    }

    /** Lines 50-54: the looping sounds are freed, loading starts with the camera on, and the call of the manager's load is recorded. */
    method EnterLoading()
      requires 0 <= request.index < |sceneGroups| && accepted > 0
      requires isTransitioning && !isLoading && !loadingCamera
      requires trace == callStart + OpeningEvents(request.transition)
      modifies this`isLoading, this`loadingCamera, this`trace
      ensures isLoading && loadingCamera
      ensures trace == callStart + EventsUntil(Loading, sceneGroups[request.index], request.reloadDupScenes,
                                               sceneLoadDelay, request.transition)
    {
      LoadingFollowsOpening(callStart, sceneGroups[request.index], request.reloadDupScenes, sceneLoadDelay, request.transition);
      trace := trace + [LoopingSoundsFreed];
      isLoading := true;
      loadingCamera := true;
      trace := trace + [LoadingCamera(true)];
      var group := sceneGroups[request.index];
      trace := trace + [LoadScenesCalled(group, request.reloadDupScenes, sceneLoadDelay)];
    }

    /** Line 55: the manager loads the group, and every value it reports is forwarded to the progress bar, in order. */
    method LoadAndForward(group: SceneGroup, reload: bool)
      modifies this`phase, this`progressed, manager, world
      ensures phase == Loading
      ensures |progressed| >= |old(progressed)| && progressed[..|old(progressed)|] == old(progressed)
      ensures GroupLoaded(manager, world, old(world.scenes), old(manager.handles), old(manager.signals), old(world.calls),
                          group, reload, progressed[|old(progressed)|..])
    {
      var reports := LoadGroup(group, reload);
      ForwardingKeepsValues(reports);
      progressed := progressed + ForwardAll(reports);
      assert progressed[|old(progressed)|..] == reports;
      phase := Loading;
    }

    /** The scene-group manager's load of a group, with the configured delay; it returns the progress values reported. */
    method LoadGroup(group: SceneGroup, reload: bool) returns (reports: seq<real>)
      modifies manager, world
      ensures GroupLoaded(manager, world, old(world.scenes), old(manager.handles), old(manager.signals), old(world.calls),
                          group, reload, reports)
    {
      reports := manager.LoadScenes(world, group, reload, sceneLoadDelay);
    }

    /** Lines 56-63: the camera goes off and loading ends; the transition out is played unless there is none, else the call ends. */
    method EndLoading()
      requires Valid() && phase == Loading
      modifies this`loadingCamera, this`trace, this`isLoading, this`isTransitioning, this`phase
      ensures Valid()
      ensures phase == (if request.transition != NoTransition then TransitioningOut else Idle)
      ensures trace == callStart + CallEvents(sceneGroups[request.index], request.reloadDupScenes,
                                              sceneLoadDelay, request.transition)
    {
      ClosingCompletesCall(callStart, sceneGroups[request.index], request.reloadDupScenes, sceneLoadDelay, request.transition);
      loadingCamera := false;
      trace := trace + [LoadingCamera(false)];
      isLoading := false;
      if request.transition == TransitionOut || request.transition == TransitionInAndOut {
        assert ClosingEvents(request.transition) == [LoadingCamera(false), TransitionOutStarted];
        trace := trace + [TransitionOutStarted];
        phase := TransitioningOut;
        return;
      }
      isTransitioning := false;
      phase := Idle;
    }

    /**
     * Runs the call in flight from the await it is suspended at to the next
     * one, or to its end: after the transition in, the scene-group load; after
     * the load, the camera goes off, loading ends and the transition out
     * starts (or, with no transition, the call ends); after the transition
     * out, the call ends. Once the call is over, its trace holds exactly the
     * events of one call in their order.
     */
    method Resume()
      requires Valid() && phase != Idle
      modifies this, manager, world
      ensures Valid()
      ensures request == old(request) && callStart == old(callStart) && accepted == old(accepted)
      ensures Rank(phase) < Rank(old(phase))
      ensures old(phase) == TransitioningIn ==>
        && phase == Loading
        && |progressed| >= |old(progressed)| && progressed[..|old(progressed)|] == old(progressed)
        && GroupLoaded(manager, world, old(world.scenes), old(manager.handles), old(manager.signals), old(world.calls),
                          sceneGroups[request.index], request.reloadDupScenes, progressed[|old(progressed)|..])
      ensures old(phase) != TransitioningIn ==> unchanged(manager) && unchanged(world) && progressed == old(progressed)
      ensures old(phase) == Loading ==> phase == (if request.transition != NoTransition then TransitioningOut else Idle)
      ensures old(phase) == TransitioningOut ==> phase == Idle
      ensures phase == Idle ==> trace == callStart + CallEvents(sceneGroups[request.index], request.reloadDupScenes,
                                                                sceneLoadDelay, request.transition)
    {
      match phase
      case TransitioningIn =>
        StartLoading();
      case Loading =>
        EndLoading();
      case TransitioningOut =>
        isTransitioning := false;
        phase := Idle;
    }
  }
}

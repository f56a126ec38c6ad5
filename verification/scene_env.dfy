/**
 * The engine underneath the scene-group logic: Unity's scene manager and the
 * Addressables system, reduced to what the logic reads from them and what it
 * asks of them. What the engine does in answer to a request is fixed by
 * constant functions (the "plans"), so every model of this environment is a
 * possible engine; every request is appended to a call log.
 */
module SceneEnv {
  import opened Optional
  import opened Seqs

  /** How a scene entry is referenced (the scene reference's state). */
  datatype ReferenceState = Unsafe | Regular | Addressable

  /** One entry of a scene group: its name, the path its reference resolves to, and its kind. */
  datatype SceneEntry = SceneEntry(name: string, path: string, state: ReferenceState)

  /** A configured scene group: its entries in declared order and the name of its main scene. */
  datatype SceneGroup = SceneGroup(groupName: string, scenes: seq<SceneEntry>, mainScene: string)

  /** One scene of the engine's list of open scenes. */
  datatype LoadedScene = LoadedScene(path: string, name: string, isLoaded: bool)

  /**
   * One asynchronous load or unload as the engine reports it: the progress it
   * shows now, and the progress values it will show at the following polls.
   * The operation is done once nothing is left to show.
   */
  datatype Op = Op(progress: real, script: seq<real>) {

    predicate IsDone() {
      script == []
    }

    /** The engine's step between two polls: the operation shows its next value. */
    function Advance(): (next: Op)
      ensures IsDone() ==> next == this
      ensures !IsDone() ==> |next.script| == |script| - 1 && next.progress == script[0]
    {
      if script == [] then this else Op(script[0], script[1..])
    }

    /** The state the operation ends in, however many polls it takes to get there. */
    function Finished(): (last: Op)
      ensures last.IsDone()
      ensures IsDone() ==> last == this
    {
      if script == [] then this else Op(script[|script| - 1], [])
    }
  }

  /** Polling never changes where an operation ends up. */
  lemma AdvanceKeepsFinished(op: Op)
    ensures op.Advance().Finished() == op.Finished()
  {
  }

  /** An Addressables scene handle: its operation, whether it is valid, and the path of the scene it yields. */
  datatype SceneHandle = SceneHandle(op: Op, valid: bool, resultPath: string) {

    predicate IsDone() {
      op.IsDone()
    }

    function Advance(): SceneHandle {
      this.(op := op.Advance())
    }

    function Finished(): SceneHandle {
      this.(op := op.Finished())
    }
  }

  /** A request made of the engine. */
  datatype EnvCall =
    | SetActiveScene(path: string)
    | LoadSceneAsync(path: string)
    | UnloadSceneAsync(path: string)
    | LoadAddressableAsync(path: string)
    | ReleaseAddressable(handle: SceneHandle)
    | UnloadUnusedAssets

  /** The operation the engine answers an unload request with: none, or one that plays the plan. */
  function UnloadAnswer(plan: string -> Option<seq<real>>, path: string): (op: Option<Op>)
    ensures op.Some? <==> plan(path).Some?
    ensures op.Some? ==> op.value.progress == 0.0
  {
    if plan(path).Some? then Some(Op(0.0, plan(path).value)) else None
  }

  /**
   * The scene list without every scene at the given path: each scene at
   * another path keeps its multiplicity (WithoutPathCounts), and the order is
   * kept (WithoutPathKeepsOrder).
   */
  function WithoutPath(scenes: seq<LoadedScene>, path: string): (rest: seq<LoadedScene>)
    ensures |rest| <= |scenes|
    ensures forall s :: s in rest <==> s in scenes && s.path != path
  {
    if scenes == [] then []
    else
      var last := scenes[|scenes| - 1];
      WithoutPath(scenes[..|scenes| - 1], path) + (if last.path == path then [] else [last])
  }

  /** Each scene at another path keeps its number of occurrences; none is left at the path. */
  lemma {:induction false} WithoutPathCounts(scenes: seq<LoadedScene>, path: string, s: LoadedScene)
    ensures multiset(WithoutPath(scenes, path))[s] == if s.path == path then 0 else multiset(scenes)[s]
  {
    if scenes != [] {
      var init, last := scenes[..|scenes| - 1], scenes[|scenes| - 1];
      var tail := if last.path == path then [] else [last];
      assert scenes == init + [last];
      assert WithoutPath(scenes, path) == WithoutPath(init, path) + tail;
      CountAppend(init, [last], s);
      CountAppend(WithoutPath(init, path), tail, s);
      WithoutPathCounts(init, path, s);
    }
  }

  /** Occurrences in a concatenation add up. */
  lemma CountAppend(xs: seq<LoadedScene>, ys: seq<LoadedScene>, s: LoadedScene)
    ensures multiset(xs + ys)[s] == multiset(xs)[s] + multiset(ys)[s]
  {
  }

  /** The scenes kept, in their order: the list filtered by "at another path". */
  lemma {:induction false} WithoutPathKeepsOrder(scenes: seq<LoadedScene>, path: string)
    ensures WithoutPath(scenes, path) == FlatMap(scenes, (s: LoadedScene) => if s.path == path then [] else [s])
  {
    if scenes != [] {
      WithoutPathKeepsOrder(scenes[..|scenes| - 1], path);
    }
  }

  /** The first scene of the list with the given name, if any. */
  function FirstNamed(scenes: seq<LoadedScene>, name: string): (found: Option<LoadedScene>)
    ensures found.Some? ==> found.value in scenes && found.value.name == name
    ensures found.None? ==> forall s :: s in scenes ==> s.name != name
  {
    if scenes == [] then None
    else if scenes[0].name == name then Some(scenes[0])
    else FirstNamed(scenes[1..], name)
  }

  class SceneWorld {
    /** The open scenes, index 0 being the bootstrap scene. */
    var scenes: seq<LoadedScene>
    /** The path of the active scene. */
    var activeScene: string
    /** Every request made of the engine, in order. */
    var calls: seq<EnvCall>

    /** The path of the always-resident bootstrap scene. */
    const bootLoaderPath: string
    /** The group-membership test of a scene group (its definition is not part of this model). */
    const isSceneInGroup: (SceneGroup, LoadedScene) -> bool
    /** What an unload request for a path is answered with: no operation, or the progress values it will show. */
    const unloadPlan: string -> Option<seq<real>>
    /** The progress values a regular load of a path will show. */
    const loadPlan: string -> seq<real>
    /** The handle an Addressables load of a path is answered with. */
    const addressablePlan: string -> SceneHandle

    constructor (scenes0: seq<LoadedScene>, bootPath: string,
                 inGroup: (SceneGroup, LoadedScene) -> bool,
                 unloads: string -> Option<seq<real>>,
                 loads: string -> seq<real>,
                 handles: string -> SceneHandle)
      ensures scenes == scenes0 && activeScene == bootPath && calls == []
      ensures bootLoaderPath == bootPath && isSceneInGroup == inGroup
      ensures unloadPlan == unloads && loadPlan == loads && addressablePlan == handles
    {
      scenes, activeScene, calls := scenes0, bootPath, [];
      bootLoaderPath, isSceneInGroup := bootPath, inGroup;
      unloadPlan, loadPlan, addressablePlan := unloads, loads, handles;
    }

    /** GetSceneByName(name), with IsValid() read as "Some". */
    function GetSceneByName(name: string): Option<LoadedScene>
      reads this
    {
      FirstNamed(scenes, name)
    }

    method SetActive(path: string)
      modifies this`activeScene, this`calls
      ensures activeScene == path
      ensures calls == old(calls) + [SetActiveScene(path)]
    {
      activeScene := path;
      calls := calls + [SetActiveScene(path)];
    }

    /** An unload request; a scene that is unloaded leaves the list. */
    method UnloadScene(path: string) returns (op: Option<Op>)
      modifies this`scenes, this`calls
      ensures op == UnloadAnswer(unloadPlan, path)
      ensures scenes == if op.Some? then WithoutPath(old(scenes), path) else old(scenes)
      ensures calls == old(calls) + [UnloadSceneAsync(path)]
    {
      op := UnloadAnswer(unloadPlan, path);
      if op.Some? {
        scenes := WithoutPath(scenes, path);
      }
      calls := calls + [UnloadSceneAsync(path)];
    }

    /** An additive regular load request; the scene joins the list. */
    method LoadScene(entry: SceneEntry) returns (op: Op)
      modifies this`scenes, this`calls
      ensures op == Op(0.0, loadPlan(entry.path))
      ensures scenes == old(scenes) + [LoadedScene(entry.path, entry.name, true)]
      ensures calls == old(calls) + [LoadSceneAsync(entry.path)]
    {
      op := Op(0.0, loadPlan(entry.path));
      scenes := scenes + [LoadedScene(entry.path, entry.name, true)];
      calls := calls + [LoadSceneAsync(entry.path)];
    }

    /** An additive Addressables load request; the scene a valid handle yields joins the list. */
    method LoadAddressable(entry: SceneEntry) returns (handle: SceneHandle)
      modifies this`scenes, this`calls
      ensures handle == addressablePlan(entry.path)
      ensures scenes == old(scenes) + AddressableScene(handle, entry)
      ensures calls == old(calls) + [LoadAddressableAsync(entry.path)]
    {
      handle := addressablePlan(entry.path);
      scenes := scenes + AddressableScene(handle, entry);
      calls := calls + [LoadAddressableAsync(entry.path)];
    }

    /** A release of an Addressables handle; the scene it yielded leaves the list. */
    method Release(handle: SceneHandle)
      modifies this`scenes, this`calls
      ensures scenes == WithoutPath(old(scenes), handle.resultPath)
      ensures calls == old(calls) + [ReleaseAddressable(handle)]
    {
      scenes := WithoutPath(scenes, handle.resultPath);
      calls := calls + [ReleaseAddressable(handle)];
    }

    method UnloadUnused()
      modifies this`calls
      ensures calls == old(calls) + [UnloadUnusedAssets]
    {
      calls := calls + [UnloadUnusedAssets];
    }
  }

  /** The scene an Addressables load adds to the list: the handle's result when it is valid. */
  function AddressableScene(handle: SceneHandle, entry: SceneEntry): seq<LoadedScene>
  {
    if handle.valid then [LoadedScene(handle.resultPath, entry.name, true)] else []
  }
}

/**
 * The scene-group engine: which scenes an unload pass releases, which entries a
 * load issues and how, the signals raised along the way, and the polling that
 * waits for the issued operations.
 */
module SceneGroups {
  import opened Optional
  import opened Seqs
  import opened SceneEnv
  import opened OperationGroups

  /** A signal raised to the engine's subscribers. */
  datatype Signal = SceneLoaded(path: string) | SceneUnloaded(path: string) | SceneGroupLoaded

  // ---------------------------------------------------------------------------
  // Unload selection

  /** What the unload pass filters with: the active group, the persistent handles, the duplicates flag, the membership test. */
  datatype UnloadFilter = UnloadFilter(
    group: SceneGroup,
    handles: seq<SceneHandle>,
    unloadDups: bool,
    isSceneInGroup: (SceneGroup, LoadedScene) -> bool)
  {
    /** A valid handle already yields a scene at this path. */
    predicate OwnedByHandle(path: string)
    {
      exists i :: 0 <= i < |handles| && handles[i].valid && handles[i].resultPath == path
    }

    /** The scene is loaded, is not kept as part of the active group, and no valid handle owns it. */
    predicate Selects(s: LoadedScene)
    {
      s.isLoaded && (unloadDups || !isSceneInGroup(group, s)) && !OwnedByHandle(s.path)
    }
  }

  /** The indices, from i down to 1, of the scenes the filter selects. */
  function CandidatesFrom(scenes: seq<LoadedScene>, i: int, f: UnloadFilter): (idx: seq<nat>)
    requires i < |scenes|
    ensures forall k :: 0 <= k < |idx| ==> 1 <= idx[k] <= i
    decreases i
  {
    if i <= 0 then []
    else (if f.Selects(scenes[i]) then [i as nat] else []) + CandidatesFrom(scenes, i - 1, f)
  }

  /** The indices of the scenes an unload pass releases, from the top of the list down. */
  function UnloadCandidates(scenes: seq<LoadedScene>, f: UnloadFilter): seq<nat>
  {
    CandidatesFrom(scenes, |scenes| - 1, f)
  }

  function PathsAt(scenes: seq<LoadedScene>, idx: seq<nat>): seq<string>
    requires forall k :: 0 <= k < |idx| ==> idx[k] < |scenes|
  {
    if idx == [] then [] else PathsAt(scenes, idx[..|idx| - 1]) + [scenes[idx[|idx| - 1]].path]
  }

  /** The paths of the scenes an unload pass releases, in the order it releases them. */
  function UnloadPaths(scenes: seq<LoadedScene>, f: UnloadFilter): seq<string>
  {
    PathsAt(scenes, UnloadCandidates(scenes, f))
  }

  lemma {:induction false} CandidatesFromDescending(scenes: seq<LoadedScene>, i: int, f: UnloadFilter)
    requires i < |scenes|
    ensures forall j, k :: 0 <= j < k < |CandidatesFrom(scenes, i, f)| ==>
      CandidatesFrom(scenes, i, f)[j] > CandidatesFrom(scenes, i, f)[k]
    decreases i
  {
    if i > 0 {
      CandidatesFromDescending(scenes, i - 1, f);
    }
  }

  lemma {:induction false} CandidatesFromSelects(scenes: seq<LoadedScene>, i: int, f: UnloadFilter, j: int)
    requires i < |scenes|
    ensures j in CandidatesFrom(scenes, i, f) <==> 1 <= j <= i && f.Selects(scenes[j])
    decreases i
  {
    if i > 0 {
      CandidatesFromSelects(scenes, i - 1, f, j);
    }
  }

  /** Candidates come in strictly descending index order, all at index 1 or above: the bootstrap scene is never one. */
  lemma UnloadCandidatesDescending(scenes: seq<LoadedScene>, f: UnloadFilter)
    ensures forall k :: 0 <= k < |UnloadCandidates(scenes, f)| ==> 1 <= UnloadCandidates(scenes, f)[k] < |scenes|
    ensures forall j, k :: 0 <= j < k < |UnloadCandidates(scenes, f)| ==>
      UnloadCandidates(scenes, f)[j] > UnloadCandidates(scenes, f)[k]
  {
    CandidatesFromDescending(scenes, |scenes| - 1, f);
  }

  /** A scene is a candidate exactly when it is not the bootstrap scene, it is loaded, no valid handle owns it, and duplicates are unloaded or it is outside the active group. */
  lemma UnloadCandidateIff(scenes: seq<LoadedScene>, f: UnloadFilter, j: int)
    ensures j in UnloadCandidates(scenes, f) <==>
      1 <= j < |scenes| && scenes[j].isLoaded && !f.OwnedByHandle(scenes[j].path)
      && (f.unloadDups || !f.isSceneInGroup(f.group, scenes[j]))
  {
    CandidatesFromSelects(scenes, |scenes| - 1, f, j);
  }

  /** With only the bootstrap scene open, an unload pass has nothing to release. */
  lemma OnlyBootstrapOpen(scenes: seq<LoadedScene>, f: UnloadFilter)
    requires |scenes| <= 1
    ensures UnloadPaths(scenes, f) == []
  {
  }

  /** The unload pass's candidate loop (SceneGroupManager.cs lines 87-100). */
  method CollectUnloadCandidates(scenes: seq<LoadedScene>, f: UnloadFilter) returns (scenesToUnload: seq<string>)
    ensures scenesToUnload == UnloadPaths(scenes, f)
  {
    scenesToUnload := [];
    ghost var taken: seq<nat> := [];
    var i := |scenes| - 1;
    while i > 0
      invariant i < |scenes|
      invariant forall k :: 0 <= k < |taken| ==> taken[k] < |scenes|
      invariant taken + CandidatesFrom(scenes, i, f) == UnloadCandidates(scenes, f)
      invariant scenesToUnload == PathsAt(scenes, taken)
      decreases i
    {
      var sceneAt := scenes[i];
      ghost var rest := CandidatesFrom(scenes, i - 1, f);
      if sceneAt.isLoaded {
        var sceneName := sceneAt.path;
        var keptInGroup := f.isSceneInGroup(f.group, sceneAt) && !f.unloadDups;
        if !keptInGroup && !f.OwnedByHandle(sceneName) {
          assert CandidatesFrom(scenes, i, f) == [i as nat] + rest;
          assert (taken + [i as nat]) + rest == taken + ([i as nat] + rest);
          assert (taken + [i as nat])[..|taken|] == taken;
          taken := taken + [i as nat];
          scenesToUnload := scenesToUnload + [sceneName];
        } else {
          assert CandidatesFrom(scenes, i, f) == rest;
        }
      } else {
        assert CandidatesFrom(scenes, i, f) == rest;
      }
      i := i - 1;
    }
    assert taken == UnloadCandidates(scenes, f);
  }

  // ---------------------------------------------------------------------------
  // What an unload pass asks of the engine and raises

  function UnloadCalls(paths: seq<string>): seq<EnvCall>
  {
    FlatMap(paths, (p: string) => [UnloadSceneAsync(p)])
  }

  /** One unloaded signal per candidate whose unload request was answered with an operation. */
  function UnloadedSignals(paths: seq<string>, plan: string -> Option<seq<real>>): seq<Signal>
  {
    FlatMap(paths, (p: string) => if UnloadAnswer(plan, p).Some? then [SceneUnloaded(p)] else [])
  }

  /** The operations the unload pass tracks: the non-null answers, in order. */
  function IssuedUnloads(paths: seq<string>, plan: string -> Option<seq<real>>): seq<Op>
  {
    FlatMap(paths, (p: string) => if UnloadAnswer(plan, p).Some? then [UnloadAnswer(plan, p).value] else [])
  }

  function ScenesAfterUnloads(scenes: seq<LoadedScene>, paths: seq<string>, plan: string -> Option<seq<real>>): seq<LoadedScene>
  {
    if paths == [] then scenes
    else
      var p := paths[|paths| - 1];
      var before := ScenesAfterUnloads(scenes, paths[..|paths| - 1], plan);
      if UnloadAnswer(plan, p).Some? then WithoutPath(before, p) else before
  }

  /** One release per valid handle, in list order. */
  function ReleaseCalls(hs: seq<SceneHandle>): seq<EnvCall>
  {
    FlatMap(hs, (h: SceneHandle) => if h.valid then [ReleaseAddressable(h)] else [])
  }

  function ScenesAfterReleases(scenes: seq<LoadedScene>, hs: seq<SceneHandle>): seq<LoadedScene>
  {
    if hs == [] then scenes
    else
      var h := hs[|hs| - 1];
      var before := ScenesAfterReleases(scenes, hs[..|hs| - 1]);
      if h.valid then WithoutPath(before, h.resultPath) else before
  }

  /** One more candidate extends every record of the unload pass by that candidate's share. */
  lemma UnloadStep(scenes: seq<LoadedScene>, paths: seq<string>, p: string, plan: string -> Option<seq<real>>)
    ensures UnloadCalls(paths + [p]) == UnloadCalls(paths) + [UnloadSceneAsync(p)]
    ensures UnloadedSignals(paths + [p], plan) == UnloadedSignals(paths, plan) + (if plan(p).Some? then [SceneUnloaded(p)] else [])
    ensures IssuedUnloads(paths + [p], plan) == IssuedUnloads(paths, plan) + (if plan(p).Some? then [Op(0.0, plan(p).value)] else [])
    ensures ScenesAfterUnloads(scenes, paths + [p], plan)
         == (if plan(p).Some? then WithoutPath(ScenesAfterUnloads(scenes, paths, plan), p) else ScenesAfterUnloads(scenes, paths, plan))
  {
    FlatMapSnoc(paths, p, (q: string) => [UnloadSceneAsync(q)]);
    FlatMapSnoc(paths, p, (q: string) => if UnloadAnswer(plan, q).Some? then [SceneUnloaded(q)] else []);
    FlatMapSnoc(paths, p, (q: string) => if UnloadAnswer(plan, q).Some? then [UnloadAnswer(plan, q).value] else []);
    assert (paths + [p])[..|paths|] == paths;
  }

  /** One more handle extends the release records by that handle's share. */
  lemma ReleaseStep(scenes: seq<LoadedScene>, hs: seq<SceneHandle>, h: SceneHandle)
    ensures ReleaseCalls(hs + [h]) == ReleaseCalls(hs) + (if h.valid then [ReleaseAddressable(h)] else [])
    ensures ScenesAfterReleases(scenes, hs + [h])
         == (if h.valid then WithoutPath(ScenesAfterReleases(scenes, hs), h.resultPath) else ScenesAfterReleases(scenes, hs))
  {
    FlatMapSnoc(hs, h, (g: SceneHandle) => if g.valid then [ReleaseAddressable(g)] else []);
    assert (hs + [h])[..|hs|] == hs;
  }

  /** An unloaded signal fires exactly for the candidates whose unload returned an operation, one per tracked operation. */
  lemma {:induction false} UnloadedSignalsMatchOperations(paths: seq<string>, plan: string -> Option<seq<real>>, p: string)
    ensures |UnloadedSignals(paths, plan)| == |IssuedUnloads(paths, plan)|
    ensures SceneUnloaded(p) in UnloadedSignals(paths, plan) <==> p in paths && plan(p).Some?
  {
    var sig := (q: string) => if UnloadAnswer(plan, q).Some? then [SceneUnloaded(q)] else [];
    FlatMapMember(paths, sig, SceneUnloaded(p));
    if paths != [] {
      UnloadedSignalsMatchOperations(paths[..|paths| - 1], plan, p);
    }
    if p in paths && plan(p).Some? {
      var i :| 0 <= i < |paths| && paths[i] == p;
      assert SceneUnloaded(p) in sig(paths[i]);
    }
  }

  /** Every valid handle is released as often as it occurs in the list, and an invalid one never. */
  lemma {:induction false} ReleasesEachValidHandle(hs: seq<SceneHandle>, h: SceneHandle)
    ensures multiset(ReleaseCalls(hs))[ReleaseAddressable(h)] == if h.valid then multiset(hs)[h] else 0
  {
    if hs != [] {
      var init := hs[..|hs| - 1];
      ReleasesEachValidHandle(init, h);
      assert hs == init + [hs[|hs| - 1]];
    }
  }

  /** Nothing survives an unload pass at a path it unloaded, and nothing new appears. */
  lemma {:induction false} UnloadedPathsLeaveTheList(scenes: seq<LoadedScene>, paths: seq<string>,
                                                      plan: string -> Option<seq<real>>, s: LoadedScene)
    requires s in ScenesAfterUnloads(scenes, paths, plan)
    ensures s in scenes
    ensures plan(s.path).Some? ==> s.path !in paths
  {
    if paths != [] {
      var init := paths[..|paths| - 1];
      UnloadedPathsLeaveTheList(scenes, init, plan, s);
      assert paths == init + [paths[|paths| - 1]];
    }
  }

  // ---------------------------------------------------------------------------
  // Load selection and dispatch

  function Names(scenes: seq<LoadedScene>): seq<string>
  {
    FlatMap(scenes, (s: LoadedScene) => [s.name])
  }

  /** The entries a load issues: all of them when reloading duplicates, otherwise those whose name is not open. */
  function LoadSelection(entries: seq<SceneEntry>, loaded: seq<string>, reloadDups: bool): seq<SceneEntry>
  {
    FlatMap(entries, (e: SceneEntry) => if reloadDups || e.name !in loaded then [e] else [])
  }

  /** The regular loads issued, one per Regular entry. */
  function IssuedLoads(selected: seq<SceneEntry>, plan: string -> seq<real>): seq<Op>
  {
    FlatMap(selected, (e: SceneEntry) => if e.state == Regular then [Op(0.0, plan(e.path))] else [])
  }

  /** The handles added to the persistent list, one per Addressable entry. */
  function IssuedHandles(selected: seq<SceneEntry>, plan: string -> SceneHandle): seq<SceneHandle>
  {
    FlatMap(selected, (e: SceneEntry) => if e.state == Addressable then [plan(e.path)] else [])
  }

  /** The engine request one issued entry makes: a Regular load, an Addressable load, or none. */
  function EntryCalls(e: SceneEntry): seq<EnvCall>
  {
    match e.state
    case Regular => [LoadSceneAsync(e.path)]
    case Addressable => [LoadAddressableAsync(e.path)]
    case Unsafe => []
  }

  function LoadCalls(selected: seq<SceneEntry>): seq<EnvCall>
  {
    FlatMap(selected, EntryCalls)
  }

  /** A loaded signal per issued entry, whatever its kind. */
  function LoadedSignals(selected: seq<SceneEntry>): seq<Signal>
  {
    FlatMap(selected, (e: SceneEntry) => [SceneLoaded(e.path)])
  }

  /** The scenes one issued entry opens. */
  function EntryScenes(e: SceneEntry, plan: string -> SceneHandle): seq<LoadedScene>
  {
    match e.state
    case Regular => [LoadedScene(e.path, e.name, true)]
    case Addressable => AddressableScene(plan(e.path), e)
    case Unsafe => []
  }

  function ScenesLoaded(selected: seq<SceneEntry>, plan: string -> SceneHandle): seq<LoadedScene>
  {
    FlatMap(selected, (e: SceneEntry) => EntryScenes(e, plan))
  }

  /** One more entry is selected exactly when it is reloaded or not open. */
  lemma SelectionStep(entries: seq<SceneEntry>, e: SceneEntry, loaded: seq<string>, reloadDups: bool)
    ensures LoadSelection(entries + [e], loaded, reloadDups)
         == LoadSelection(entries, loaded, reloadDups) + (if reloadDups || e.name !in loaded then [e] else [])
  {
    FlatMapSnoc(entries, e, (x: SceneEntry) => if reloadDups || x.name !in loaded then [x] else []);
  }

  /** One more selected entry extends every record of the load pass by that entry's share. */
  lemma IssueStep(selected: seq<SceneEntry>, e: SceneEntry, loads: string -> seq<real>, handles: string -> SceneHandle)
    ensures IssuedLoads(selected + [e], loads) == IssuedLoads(selected, loads) + (if e.state == Regular then [Op(0.0, loads(e.path))] else [])
    ensures IssuedHandles(selected + [e], handles) == IssuedHandles(selected, handles) + (if e.state == Addressable then [handles(e.path)] else [])
    ensures LoadCalls(selected + [e]) == LoadCalls(selected) + EntryCalls(e)
    ensures LoadedSignals(selected + [e]) == LoadedSignals(selected) + [SceneLoaded(e.path)]
    ensures ScenesLoaded(selected + [e], handles) == ScenesLoaded(selected, handles) + EntryScenes(e, handles)
  {
    FlatMapSnoc(selected, e, (x: SceneEntry) => if x.state == Regular then [Op(0.0, loads(x.path))] else []);
    FlatMapSnoc(selected, e, (x: SceneEntry) => if x.state == Addressable then [handles(x.path)] else []);
    FlatMapSnoc(selected, e, EntryCalls);
    FlatMapSnoc(selected, e, (x: SceneEntry) => [SceneLoaded(x.path)]);
    FlatMapSnoc(selected, e, (x: SceneEntry) => EntryScenes(x, handles));
  }

  function OfState(selected: seq<SceneEntry>, state: ReferenceState): seq<SceneEntry>
  {
    FlatMap(selected, (e: SceneEntry) => if e.state == state then [e] else [])
  }

  /** With reload-duplicates set, every entry is issued, in declared order. */
  lemma {:induction false} ReloadSelectsEverything(entries: seq<SceneEntry>, loaded: seq<string>)
    ensures LoadSelection(entries, loaded, true) == entries
  {
    if entries != [] {
      var init := entries[..|entries| - 1];
      ReloadSelectsEverything(init, loaded);
      assert entries == init + [entries[|entries| - 1]];
    }
  }

  /** Without reload-duplicates, an entry is issued exactly when its name is not among the open scenes. */
  lemma SelectionSkipsOpenScenes(entries: seq<SceneEntry>, loaded: seq<string>, e: SceneEntry)
    ensures e in LoadSelection(entries, loaded, false) <==> e in entries && e.name !in loaded
  {
    var keep := (x: SceneEntry) => if false || x.name !in loaded then [x] else [];
    FlatMapMember(entries, keep, e);
    if e in entries && e.name !in loaded {
      var i :| 0 <= i < |entries| && entries[i] == e;
      assert e in keep(entries[i]);
    }
  }

  /** Requesting a group whose scenes are all open, without reload-duplicates, issues nothing. */
  lemma RepeatedLoadIssuesNothing(entries: seq<SceneEntry>, loaded: seq<string>)
    requires forall e :: e in entries ==> e.name in loaded
    ensures LoadSelection(entries, loaded, false) == []
  {
    var sel := LoadSelection(entries, loaded, false);
    if sel != [] {
      SelectionSkipsOpenScenes(entries, loaded, sel[0]);
      assert false;
    }
  }

  /** Each issued entry raises its own loaded signal, in order, including entries of a kind that issues nothing. */
  lemma {:induction false} EveryIssuedEntrySignalled(selected: seq<SceneEntry>)
    ensures |LoadedSignals(selected)| == |selected|
    ensures forall k :: 0 <= k < |selected| ==> LoadedSignals(selected)[k] == SceneLoaded(selected[k].path)
  {
    if selected != [] {
      EveryIssuedEntrySignalled(selected[..|selected| - 1]);
    }
  }

  /** Regular entries add one operation each, Addressable entries one handle each, Unsafe entries nothing. */
  lemma {:induction false} DispatchByKind(selected: seq<SceneEntry>, loads: string -> seq<real>, handles: string -> SceneHandle)
    ensures |IssuedLoads(selected, loads)| == |OfState(selected, Regular)|
    ensures |IssuedHandles(selected, handles)| == |OfState(selected, Addressable)|
    ensures |LoadCalls(selected)| == |OfState(selected, Regular)| + |OfState(selected, Addressable)|
    ensures |OfState(selected, Regular)| + |OfState(selected, Addressable)| + |OfState(selected, Unsafe)| == |selected|
  {
    if selected != [] {
      DispatchByKind(selected[..|selected| - 1], loads, handles);
    }
  }

  /** Per-scene signals never include the group signal, so a load raises it exactly once, last. */
  lemma GroupLoadedOnce(paths: seq<string>, plan: string -> Option<seq<real>>, selected: seq<SceneEntry>)
    ensures multiset(UnloadedSignals(paths, plan) + LoadedSignals(selected) + [SceneGroupLoaded])[SceneGroupLoaded] == 1
  {
    FlatMapMember(paths, (p: string) => if UnloadAnswer(plan, p).Some? then [SceneUnloaded(p)] else [], SceneGroupLoaded);
    FlatMapMember(selected, (e: SceneEntry) => [SceneLoaded(e.path)], SceneGroupLoaded);
  }

  /** A group of Regular entries adds no handle to the persistent list. */
  lemma {:induction false} RegularLoadAddsNoHandles(selected: seq<SceneEntry>, plan: string -> SceneHandle)
    requires forall e :: e in selected ==> e.state == Regular
    ensures IssuedHandles(selected, plan) == []
  {
    if selected != [] {
      RegularLoadAddsNoHandles(selected[..|selected| - 1], plan);
    }
  }

  /** After a load without reload-duplicates, every Regular entry of the group has a scene of its name open. */
  lemma LoadOpensRegularEntries(afterUnload: seq<LoadedScene>, entries: seq<SceneEntry>, plan: string -> SceneHandle, e: SceneEntry)
    requires e in entries && e.state == Regular
    ensures e.name in Names(afterUnload + ScenesLoaded(LoadSelection(entries, Names(afterUnload), false), plan))
  {
    var whole := afterUnload + ScenesLoaded(LoadSelection(entries, Names(afterUnload), false), plan);
    var name := (s: LoadedScene) => [s.name];
    FlatMapMember(afterUnload, name, e.name);
    FlatMapMember(whole, name, e.name);
    if e.name in Names(afterUnload) {
      var i :| 0 <= i < |afterUnload| && e.name in name(afterUnload[i]);
      assert whole[i] == afterUnload[i];
    } else {
      var selected := LoadSelection(entries, Names(afterUnload), false);
      var opens := (x: SceneEntry) => EntryScenes(x, plan);
      var scene := LoadedScene(e.path, e.name, true);
      SelectionSkipsOpenScenes(entries, Names(afterUnload), e);
      var j :| 0 <= j < |selected| && selected[j] == e;
      assert scene in opens(selected[j]);
      FlatMapMember(selected, opens, scene);
      var k :| 0 <= k < |ScenesLoaded(selected, plan)| && ScenesLoaded(selected, plan)[k] == scene;
      assert whole[|afterUnload| + k] == scene;
    }
  }

  /**
   * Loading a group of Regular entries again, without reload-duplicates,
   * once every entry has a scene of its name open and every open scene but
   * the bootstrap scene belongs to the group, changes no scene and asks
   * nothing of the engine: no unload, no release and no load. (A Regular
   * group leaves no handles behind, so the pass runs with none.)
   */
  lemma RepeatedRegularLoadIsNoOp(scenes: seq<LoadedScene>, group: SceneGroup,
                                  inGroup: (SceneGroup, LoadedScene) -> bool, unloadPlan: string -> Option<seq<real>>)
    requires forall e :: e in group.scenes ==> e.state == Regular
    requires forall e :: e in group.scenes ==> e.name in Names(scenes)
    requires forall i :: 1 <= i < |scenes| ==> inGroup(group, scenes[i])
    ensures var paths := UnloadPaths(scenes, UnloadFilter(group, [], false, inGroup));
      var afterUnload := ScenesAfterReleases(ScenesAfterUnloads(scenes, paths, unloadPlan), []);
      var selected := LoadSelection(group.scenes, Names(afterUnload), false);
      && paths == [] && afterUnload == scenes && selected == []
      && UnloadCalls(paths) + ReleaseCalls([]) + LoadCalls(selected) == []
  {
    var f := UnloadFilter(group, [], false, inGroup);
    var idx := UnloadCandidates(scenes, f);
    if idx != [] {
      UnloadCandidatesDescending(scenes, f);
      UnloadCandidateIff(scenes, f, idx[0]);
      assert false;
    }
    RepeatedLoadIssuesNothing(group.scenes, Names(scenes));
  }

  /** The first load of a one-entry Addressable group with only the bootstrap scene open. */
  lemma AddressableFirstLoad(boot: LoadedScene, e: SceneEntry, inGroup: (SceneGroup, LoadedScene) -> bool,
                             group: SceneGroup, plan: string -> SceneHandle)
    requires group.scenes == [e] && e.state == Addressable && plan(e.path).valid && e.name != boot.name
    ensures UnloadPaths([boot], UnloadFilter(group, [], false, inGroup)) == []
    ensures LoadSelection(group.scenes, Names([boot]), false) == [e]
    ensures [boot] + ScenesLoaded([e], plan) == [boot, LoadedScene(plan(e.path).resultPath, e.name, true)]
    ensures IssuedHandles([e], plan) == [plan(e.path)]
  {
    FlatMapSingle(boot, (s: LoadedScene) => [s.name]);
    FlatMapSingle(e, (x: SceneEntry) => if false || x.name !in Names([boot]) then [x] else []);
    FlatMapSingle(e, (x: SceneEntry) => EntryScenes(x, plan));
    FlatMapSingle(e, (x: SceneEntry) => if x.state == Addressable then [plan(x.path)] else []);
  }

  /** The second load: the open Addressable scene is owned by its handle, so nothing is unloaded, but the handle is released. */
  lemma AddressableSecondLoad(boot: LoadedScene, e: SceneEntry, h: SceneHandle, inGroup: (SceneGroup, LoadedScene) -> bool,
                              group: SceneGroup, unloadPlan: string -> Option<seq<real>>)
    requires group.scenes == [e] && e.state == Addressable && h.valid && h.resultPath != boot.path && e.name != boot.name
    ensures var scenes := [boot, LoadedScene(h.resultPath, e.name, true)];
      var hs := FinishHandles([h]);
      var paths := UnloadPaths(scenes, UnloadFilter(group, hs, false, inGroup));
      && e.name in Names(scenes)
      && paths == [] && ReleaseCalls(hs) == [ReleaseAddressable(hs[0])]
      && ScenesAfterReleases(ScenesAfterUnloads(scenes, paths, unloadPlan), hs) == [boot]
  {
    var scenes := [boot, LoadedScene(h.resultPath, e.name, true)];
    assert scenes[..1] == [boot];
    var hs := FinishHandles([h]);
    assert hs[0].valid && hs[0].resultPath == h.resultPath;
    var f := UnloadFilter(group, hs, false, inGroup);
    assert f.OwnedByHandle(h.resultPath);
    assert CandidatesFrom(scenes, 1, f) == [];
    FlatMapSingle(hs[0], (g: SceneHandle) => if g.valid then [ReleaseAddressable(g)] else []);
    assert ScenesAfterReleases(scenes, hs) == WithoutPath(scenes, h.resultPath);
  }

  /** The selection and requests of the second load, with only the bootstrap scene left open. */
  lemma AddressableReissued(boot: LoadedScene, e: SceneEntry, group: SceneGroup)
    requires group.scenes == [e] && e.state == Addressable && e.name != boot.name
    ensures LoadSelection(group.scenes, Names([boot]), false) == [e]
    ensures LoadCalls([e]) == [LoadAddressableAsync(e.path)]
  {
    FlatMapSingle(boot, (s: LoadedScene) => [s.name]);
    FlatMapSingle(e, (x: SceneEntry) => if false || x.name !in Names([boot]) then [x] else []);
    FlatMapSingle(e, EntryCalls);
  }

  /**
   * An Addressable group loaded twice in a row, without reload-duplicates, is
   * issued again by the second load: its own handle is released by the
   * second unload pass before the open scene names are read, so its scene
   * is no longer open when the selection is made.
   */
  lemma RepeatedAddressableLoadReissues(boot: LoadedScene, group: SceneGroup, inGroup: (SceneGroup, LoadedScene) -> bool,
                                        unloadPlan: string -> Option<seq<real>>, plan: string -> SceneHandle)
    requires |group.scenes| == 1 && group.scenes[0].state == Addressable
    requires plan(group.scenes[0].path).valid && plan(group.scenes[0].path).resultPath != boot.path
    requires group.scenes[0].name != boot.name
    ensures var e := group.scenes[0];
      var first := LoadSelection(group.scenes, Names([boot]), false);
      var afterFirst := [boot] + ScenesLoaded(first, plan);
      var hs := FinishHandles(IssuedHandles(first, plan));
      var paths := UnloadPaths(afterFirst, UnloadFilter(group, hs, false, inGroup));
      var afterUnload := ScenesAfterReleases(ScenesAfterUnloads(afterFirst, paths, unloadPlan), hs);
      var second := LoadSelection(group.scenes, Names(afterUnload), false);
      && UnloadPaths([boot], UnloadFilter(group, [], false, inGroup)) == []
      && first == [e] && e.name in Names(afterFirst)
      && paths == [] && ReleaseCalls(hs) == [ReleaseAddressable(hs[0])] && afterUnload == [boot]
      && second == [e] && LoadCalls(second) == [LoadAddressableAsync(e.path)]
  {
    var e := group.scenes[0];
    assert group.scenes == [e];
    AddressableFirstLoad(boot, e, inGroup, group, plan);
    AddressableSecondLoad(boot, e, plan(e.path), inGroup, group, unloadPlan);
    AddressableReissued(boot, e, group);
  }

  // ---------------------------------------------------------------------------
  // Polling

  /** The unload poll (lines 125-128): wait, one engine step per poll, until the group is done. */
  method AwaitOperations(ops: seq<Op>) returns (done: seq<Op>)
    ensures done == FinishAll(ops)
  {
    done := ops;
    while !IsDone(done)
      invariant FinishAll(done) == FinishAll(ops)
      decreases Pending(done)
    {
      AdvanceLowersPending(done);
      AdvanceKeepsFinishAll(done);
      done := AdvanceAll(done);
    }
    DoneIsFinished(done);
  }

  /** The load poll (lines 69-73): report the mean of both groups' progress, then one engine step, until both are done. */
  method AwaitLoads(ops: seq<Op>, hs: seq<SceneHandle>) returns (doneOps: seq<Op>, doneHandles: seq<SceneHandle>, reports: seq<real>)
    ensures doneOps == FinishAll(ops) && doneHandles == FinishHandles(hs)
    ensures reports == Reports(ops, hs)
  {
    doneOps, doneHandles, reports := ops, hs, [];
    while Polling(doneOps, doneHandles)
      invariant PollKeeps(ops, hs, doneOps, doneHandles, reports)
      decreases Pending(doneOps) + Pending(OpsOf(doneHandles))
    {
      PollStep(doneOps, doneHandles);
      PollPreserves(ops, hs, doneOps, doneHandles, reports);
      reports := reports + [Mean(doneOps, doneHandles)];
      doneOps, doneHandles := AdvanceAll(doneOps), AdvanceHandles(doneHandles);
    }
    PollEnds(doneOps, doneHandles);
  }

  /** The snapshot of open scene names (lines 35-39). */
  method SceneNames(scenes: seq<LoadedScene>) returns (names: seq<string>)
    ensures names == Names(scenes)
  {
    names := [];
    for i := 0 to |scenes|
      invariant names == Names(scenes[..i])
    {
      assert scenes[..i + 1] == scenes[..i] + [scenes[i]];
      FlatMapSnoc(scenes[..i], scenes[i], (s: LoadedScene) => [s.name]);
      names := names + [scenes[i].name];
    }
    assert scenes[..|scenes|] == scenes;
  }

  // ---------------------------------------------------------------------------
  // The engine

  class SceneGroupManager {
    var activeSceneGroup: Option<SceneGroup>
    /** The persistent Addressables handle group: appended to by loads, released and cleared by unloads. */
    var handles: seq<SceneHandle>
    /** Every signal raised, in order. */
    var signals: seq<Signal>

    constructor ()
      ensures activeSceneGroup == None && handles == [] && signals == []
    {
      activeSceneGroup, handles, signals := None, [], [];
    }

    /**
     * Unloads every selected scene, releases every valid persistent handle and
     * clears the list, and waits until the tracked unloads are done; the
     * returned group is that finished group.
     */
    method UnloadScenes(world: SceneWorld, unloadDups: bool) returns (unloaded: seq<Op>)
      requires activeSceneGroup.Some?
      modifies this`handles, this`signals, world`scenes, world`calls
      ensures var paths := UnloadPaths(old(world.scenes),
                UnloadFilter(activeSceneGroup.value, old(handles), unloadDups, world.isSceneInGroup));
        && handles == []
        && signals == old(signals) + UnloadedSignals(paths, world.unloadPlan)
        && unloaded == FinishAll(IssuedUnloads(paths, world.unloadPlan))
        && world.scenes == ScenesAfterReleases(ScenesAfterUnloads(old(world.scenes), paths, world.unloadPlan), old(handles))
        && world.calls == old(world.calls) + UnloadCalls(paths) + ReleaseCalls(old(handles)) + [UnloadUnusedAssets]
      ensures IsDone(unloaded)
    {
      var f := UnloadFilter(activeSceneGroup.value, handles, unloadDups, world.isSceneInGroup);
      var scenesToUnload := CollectUnloadCandidates(world.scenes, f);
      var operations := IssueUnloads(world, scenesToUnload);
      ReleaseHandles(world);
      unloaded := AwaitOperations(operations);
      world.UnloadUnused();
    }

    /** The unload requests of an unload pass (lines 103-113): a non-null answer is tracked and signalled, a null one skipped. */
    method IssueUnloads(world: SceneWorld, scenesToUnload: seq<string>) returns (operations: seq<Op>)
      modifies this`signals, world`scenes, world`calls
      ensures operations == IssuedUnloads(scenesToUnload, world.unloadPlan)
      ensures signals == old(signals) + UnloadedSignals(scenesToUnload, world.unloadPlan)
      ensures world.calls == old(world.calls) + UnloadCalls(scenesToUnload)
      ensures world.scenes == ScenesAfterUnloads(old(world.scenes), scenesToUnload, world.unloadPlan)
    {
      operations := [];
      for i := 0 to |scenesToUnload|
        invariant operations == IssuedUnloads(scenesToUnload[..i], world.unloadPlan)
        invariant signals == old(signals) + UnloadedSignals(scenesToUnload[..i], world.unloadPlan)
        invariant world.calls == old(world.calls) + UnloadCalls(scenesToUnload[..i])
        invariant world.scenes == ScenesAfterUnloads(old(world.scenes), scenesToUnload[..i], world.unloadPlan)
      {
        var scene := scenesToUnload[i];
        assert scenesToUnload[..i + 1] == scenesToUnload[..i] + [scene];
        UnloadStep(old(world.scenes), scenesToUnload[..i], scene, world.unloadPlan);
        AppendAssoc(old(signals), UnloadedSignals(scenesToUnload[..i], world.unloadPlan), [SceneUnloaded(scene)]);
        AppendAssoc(old(world.calls), UnloadCalls(scenesToUnload[..i]), [UnloadSceneAsync(scene)]);
        var operation := world.UnloadScene(scene);
        if operation.None? {
          continue;
        }
        operations := operations + [operation.value];
        signals := signals + [SceneUnloaded(scene)];
      }
      assert scenesToUnload[..|scenesToUnload|] == scenesToUnload;
    }

    /** The release of the persistent handles (lines 115-122): every valid handle is released, then the list is cleared. */
    method ReleaseHandles(world: SceneWorld)
      modifies this`handles, world`scenes, world`calls
      ensures handles == []
      ensures world.calls == old(world.calls) + ReleaseCalls(old(handles))
      ensures world.scenes == ScenesAfterReleases(old(world.scenes), old(handles))
    {
      for i := 0 to |handles|
        invariant handles == old(handles)
        invariant world.calls == old(world.calls) + ReleaseCalls(handles[..i])
        invariant world.scenes == ScenesAfterReleases(old(world.scenes), handles[..i])
      {
        var handle := handles[i];
        assert handles[..i + 1] == handles[..i] + [handle];
        ReleaseStep(old(world.scenes), handles[..i], handle);
        AppendAssoc(old(world.calls), ReleaseCalls(handles[..i]), [ReleaseAddressable(handle)]);
        if handle.valid {
          world.Release(handle);
        }
      }
      assert handles[..|handles|] == handles;
      handles := [];
    }

    /**
     * Makes the group active, unloads what it does not keep, issues a load per
     * entry that is not already open (or every entry, when reloading), waits
     * for both groups while reporting their mean progress, activates the main
     * scene when it is open, and signals that the group is loaded.
     */
    method LoadScenes(world: SceneWorld, group: SceneGroup, reloadDups: bool, loadDelay: int) returns (reports: seq<real>)
      modifies this, world
      ensures GroupLoaded(this, world, old(world.scenes), old(handles), old(signals), old(world.calls), group, reloadDups, reports)
    {
      ghost var scenes0, calls0, signals0, handles0 := world.scenes, world.calls, signals, handles;
      activeSceneGroup := Some(group);
      world.SetActive(world.bootLoaderPath);

      var unloaded := UnloadScenes(world, reloadDups);
      assert IsDone(unloaded);
      ghost var paths := UnloadPaths(scenes0, UnloadFilter(group, handles0, reloadDups, world.isSceneInGroup));
      ghost var afterUnload := world.scenes;
      ghost var callsAfterUnload := world.calls;
      assert afterUnload == ScenesAfterReleases(ScenesAfterUnloads(scenes0, paths, world.unloadPlan), handles0);
      assert callsAfterUnload
          == calls0 + [SetActiveScene(world.bootLoaderPath)] + UnloadCalls(paths) + ReleaseCalls(handles0) + [UnloadUnusedAssets];
      assert signals == signals0 + UnloadedSignals(paths, world.unloadPlan);

      var loadedScenes := SceneNames(world.scenes);
      ghost var selected := LoadSelection(group.scenes, Names(afterUnload), reloadDups);
      var operations := IssueLoads(world, group, loadedScenes, reloadDups);
      assert handles == IssuedHandles(selected, world.addressablePlan);
      assert world.scenes == afterUnload + ScenesLoaded(selected, world.addressablePlan);
      assert world.calls == callsAfterUnload + LoadCalls(selected);

      var doneOperations, doneHandles, reported := AwaitLoads(operations, handles);
      handles := doneHandles;
      reports := reported;

      var activeScene := world.GetSceneByName(group.mainScene);
      if activeScene.Some? {
        world.SetActive(activeScene.value.path);
      }
      signals := signals + [SceneGroupLoaded];
    }

    /**
     * The load requests (lines 41-66): entries whose name is open are skipped
     * unless duplicates are reloaded; a Regular entry adds an operation, an
     * Addressable entry a persistent handle, and every entry that is not
     * skipped raises its loaded signal.
     */
    method IssueLoads(world: SceneWorld, group: SceneGroup, loadedScenes: seq<string>, reloadDups: bool)
      returns (operations: seq<Op>)
      modifies this`handles, this`signals, world`scenes, world`calls
      ensures var selected := LoadSelection(group.scenes, loadedScenes, reloadDups);
        && operations == IssuedLoads(selected, world.loadPlan)
        && handles == old(handles) + IssuedHandles(selected, world.addressablePlan)
        && signals == old(signals) + LoadedSignals(selected)
        && world.calls == old(world.calls) + LoadCalls(selected)
        && world.scenes == old(world.scenes) + ScenesLoaded(selected, world.addressablePlan)
    {
      operations := [];
      ghost var chosen: seq<SceneEntry> := [];
      for i := 0 to |group.scenes|
        invariant chosen == LoadSelection(group.scenes[..i], loadedScenes, reloadDups)
        invariant operations == IssuedLoads(chosen, world.loadPlan)
        invariant handles == old(handles) + IssuedHandles(chosen, world.addressablePlan)
        invariant signals == old(signals) + LoadedSignals(chosen)
        invariant world.calls == old(world.calls) + LoadCalls(chosen)
        invariant world.scenes == old(world.scenes) + ScenesLoaded(chosen, world.addressablePlan)
      {
        var sceneData := group.scenes[i];
        assert group.scenes[..i + 1] == group.scenes[..i] + [sceneData];
        SelectionStep(group.scenes[..i], sceneData, loadedScenes, reloadDups);
        if reloadDups == false && sceneData.name in loadedScenes {
          continue;
        }
        IssueStep(chosen, sceneData, world.loadPlan, world.addressablePlan);
        AppendAssoc(old(handles), IssuedHandles(chosen, world.addressablePlan),
                    if sceneData.state == Addressable then [world.addressablePlan(sceneData.path)] else []);
        AppendAssoc(old(signals), LoadedSignals(chosen), [SceneLoaded(sceneData.path)]);
        AppendAssoc(old(world.calls), LoadCalls(chosen), EntryCalls(sceneData));
        AppendAssoc(old(world.scenes), ScenesLoaded(chosen, world.addressablePlan), EntryScenes(sceneData, world.addressablePlan));
        chosen := chosen + [sceneData];

        if sceneData.state == Regular {
          var operation := world.LoadScene(sceneData);
          operations := operations + [operation];
        } else if sceneData.state == Addressable {
          var sceneHandle := world.LoadAddressable(sceneData);
          handles := handles + [sceneHandle];
        }
        // The optional stagger of loadDelay milliseconds between entries is not modelled.
        signals := signals + [SceneLoaded(sceneData.path)];
      }
      assert group.scenes[..|group.scenes|] == group.scenes;
    }
  }

  /**
   * What one LoadScenes call of the group leaves, from the scene list, handle
   * list, signals and engine requests before it: the group is active; the unload pass released the candidates
   * and every old handle; the entries not open afterwards (all of them when
   * reloading) were issued and their handles are the new, finished handle
   * list; the signals are the unloads, the loads and the group signal; the
   * reports are those of the load poll; the main scene is active when open,
   * else the bootstrap scene; and the requests made of the engine are, in
   * order, the bootstrap activation, the unloads, the releases, the asset
   * cleanup, the loads and the main scene's activation.
   */
  predicate GroupLoaded(m: SceneGroupManager, world: SceneWorld, scenes: seq<LoadedScene>, handles: seq<SceneHandle>,
                        signals: seq<Signal>, calls: seq<EnvCall>, group: SceneGroup, reloadDups: bool, reports: seq<real>)
    reads m, world
  {
    var paths := UnloadPaths(scenes, UnloadFilter(group, handles, reloadDups, world.isSceneInGroup));
    var afterUnload := ScenesAfterReleases(ScenesAfterUnloads(scenes, paths, world.unloadPlan), handles);
    var selected := LoadSelection(group.scenes, Names(afterUnload), reloadDups);
    var afterLoad := afterUnload + ScenesLoaded(selected, world.addressablePlan);
    var main := FirstNamed(afterLoad, group.mainScene);
    && m.activeSceneGroup == Some(group)
    && m.handles == FinishHandles(IssuedHandles(selected, world.addressablePlan))
    && m.signals == signals + UnloadedSignals(paths, world.unloadPlan) + LoadedSignals(selected) + [SceneGroupLoaded]
    && reports == Reports(IssuedLoads(selected, world.loadPlan), IssuedHandles(selected, world.addressablePlan))
    && world.scenes == afterLoad
    && world.activeScene == (if main.Some? then main.value.path else world.bootLoaderPath)
    && world.calls == calls + [SetActiveScene(world.bootLoaderPath)] + UnloadCalls(paths)
         + ReleaseCalls(handles) + [UnloadUnusedAssets] + LoadCalls(selected)
         + (if main.Some? then [SetActiveScene(main.value.path)] else [])
  }
}

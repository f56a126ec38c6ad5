# Scene transitions and data persistence of KrasCore.Essentials, in Dafny

This project models three runtime managers of the KrasCore.Essentials Unity
package and proves properties of the model.

- **The scene-group engine** (`SceneGroupManager`, module `SceneGroups`). It
  unloads the scenes a new group does not keep and releases the persistent
  Addressables handles. It then issues one load per group entry that is not
  already open, raises a signal per scene, and polls two operation groups until
  both are done while reporting their mean progress. Finally it activates the
  main scene and signals that the group is loaded.
- **The operation groups** (`AsyncOperationGroup`, `AsyncOperationHandleGroup`,
  module `OperationGroups`). Each reports the mean of its members' progress
  (0 when empty) and is done when every member is. The handle group is also
  done when it is empty.
- **The scene loader** (`SceneLoader`, module `Loader`). It is a single-flight
  state machine. A call with a valid index while no call is in flight marks
  the loader as transitioning and raises the save event. It then opens a
  progress bar and optionally plays the transition in. Next it frees the
  looping sounds and loads the group with the loading camera on. It turns the
  camera off, optionally plays the transition out, and accepts the next call.
  Progress is forwarded through a sink that divides by a ratio of 1.
- **The data persistence manager** (`DataPersistenceManager`, module
  `Persistence`). It holds a cache of the settings record and of the game record
  of one profile. It keeps a registry of each open scene's data objects, keyed
  by scene handle. Load, save and profile-change operations read and write
  that cache and a profile store, and push records into the data objects.

The Unity scene manager and the Addressables system are a class `SceneWorld`
(module `SceneEnv`). It has a scene list, an active scene and a log of every
request made of it. What the engine answers is fixed by constant functions
("plans"), so the proofs hold for every engine that answers that way. An
asynchronous operation is a value `Op(progress, script)`: the progress it shows
now, and the values it will show at the following polls. It is done once its
script is empty.

Each `await` of the loader is a suspension point. An accepted call runs up to
its first await, and `Resume` runs it on to the next await. The phase records
where the call is suspended. The `trace` field logs everything the loader does
outside its own state, so the order of one call can be stated and proved.
The predicate `SceneGroups.GroupLoaded` says what one `LoadScenes` call leaves
in the manager and the engine, given their state before it. `LoadScenes`
states its effect with it, and so does every loader step that runs a load,
together with the progress values that load adds to the progress bar.

Where the code and its design description disagree, the model follows the code:

- The names of the open scenes are collected after the unload pass, not
  before it (SceneGroupManager.cs lines 33-39).
- The progress sink receives a value only while a group is still pending. Two
  operations that show 0, 0.5 and then 1 produce the reports [0, 0.5] and never
  1 (`OperationGroups.TwoPollScenario`).
- The Addressables handle group lives as long as the engine, not one call. A
  load appends to it, and only the next unload pass releases and clears it.
- The scene-list walk of an unload pass skips scenes that are not loaded, and
  scenes yielded by any valid handle. The scene a handle yields exists only
  once its load is complete; in the model every handle reaches the next pass
  complete, since the poll loop of the load that issued it ran until it was.
- The unload pass releases every valid Addressables handle, the requested
  group's own included (lines 115-122), before the open scene names are
  read (lines 35-39). A second load of an Addressable group without
  reload-duplicates therefore releases its scene and loads it again, where
  Regular scenes of the group are kept open and not reloaded
  (`SceneGroups.RepeatedAddressableLoadReissues`,
  `SceneGroups.RepeatedRegularLoadIsNoOp`).
- `ChangeSelectedProfileId` changes the selected profile even while
  persistence is disabled.

## Model

| member | source | states |
|---|---|---|
| SceneEnv.Op.Advance | Runtime/Scripts/Managers/Mono/SceneLoader/SceneGroup/SceneGroupManager.cs:69-73 | between two polls a done operation stays as it is, and any other operation shows its next value and owes one poll less |
| SceneEnv.Op.Finished | Runtime/Scripts/Managers/Mono/SceneLoader/SceneGroup/SceneGroupManager.cs:140 | the state an operation ends in is done, and a done operation is already in it |
| SceneEnv.AdvanceKeepsFinished | Runtime/Scripts/Managers/Mono/SceneLoader/SceneGroup/SceneGroupManager.cs:69-73 | polling never changes the state an operation ends in |
| SceneEnv.UnloadAnswer | Runtime/Scripts/Managers/Mono/SceneLoader/SceneGroup/SceneGroupManager.cs:107-108 | an unload request yields an operation exactly when the engine's answer is not null, and that operation starts at progress 0 |
| SceneEnv.WithoutPath | Runtime/Scripts/Managers/Mono/SceneLoader/SceneGroup/SceneGroupManager.cs:107 | an unloaded path leaves the scene list: a scene is kept exactly when it was listed and is at another path, and the list does not grow |
| SceneEnv.WithoutPathCounts | Runtime/Scripts/Managers/Mono/SceneLoader/SceneGroup/SceneGroupManager.cs:107 | after the unload no scene is left at the path, and every scene at another path keeps its number of occurrences |
| SceneEnv.WithoutPathKeepsOrder | Runtime/Scripts/Managers/Mono/SceneLoader/SceneGroup/SceneGroupManager.cs:107 | the scenes kept are the list filtered by "at another path", in their original order |
| SceneEnv.FirstNamed | Runtime/Scripts/Managers/Mono/SceneLoader/SceneGroup/SceneGroupManager.cs:75-80 | a scene found by name is open and has that name; nothing is found only when no open scene has the name |
| SceneEnv.SceneWorld.SetActive | Runtime/Scripts/Managers/Mono/SceneLoader/SceneGroup/SceneGroupManager.cs:31 | the given scene becomes active and the request is logged |
| SceneEnv.SceneWorld.UnloadScene | Runtime/Scripts/Managers/Mono/SceneLoader/SceneGroup/SceneGroupManager.cs:107 | an unload request returns the engine's answer; the scene leaves the list when an operation is returned, and the request is logged |
| SceneEnv.SceneWorld.LoadScene | Runtime/Scripts/Managers/Mono/SceneLoader/SceneGroup/SceneGroupManager.cs:51 | an additive regular load returns an operation at progress 0, adds the scene to the list and is logged |
| SceneEnv.SceneWorld.LoadAddressable | Runtime/Scripts/Managers/Mono/SceneLoader/SceneGroup/SceneGroupManager.cs:56 | an Addressables load returns the engine's handle, adds the scene a valid handle yields, and is logged |
| SceneEnv.SceneWorld.Release | Runtime/Scripts/Managers/Mono/SceneLoader/SceneGroup/SceneGroupManager.cs:119 | releasing a handle removes the scene it yielded and is logged |
| SceneEnv.SceneWorld.UnloadUnused | Runtime/Scripts/Managers/Mono/SceneLoader/SceneGroup/SceneGroupManager.cs:131 | the unused-assets pass is requested once and changes nothing else |
| OperationGroups.EmptyGroups | Runtime/Scripts/Managers/Mono/SceneLoader/SceneGroup/SceneGroupManager.cs:135-159 | an empty group of either kind reports progress 0 and is done |
| OperationGroups.HandleGroupIsOperationGroup | Runtime/Scripts/Managers/Mono/SceneLoader/SceneGroup/SceneGroupManager.cs:152-153 | the handle group's extra emptiness test changes nothing: its progress and completion are those of an operation group over the handles' operations |
| OperationGroups.PendingZeroIffDone | Runtime/Scripts/Managers/Mono/SceneLoader/SceneGroup/SceneGroupManager.cs:140 | a group owes no more polls exactly when it is done |
| OperationGroups.AdvanceLowersPending | Runtime/Scripts/Managers/Mono/SceneLoader/SceneGroup/SceneGroupManager.cs:69-73 | a poll never adds owed polls and removes at least one while the group is not done, so both poll loops end |
| OperationGroups.AdvanceKeepsFinishAll | Runtime/Scripts/Managers/Mono/SceneLoader/SceneGroup/SceneGroupManager.cs:125-128 | polling a group never changes the state it ends in |
| OperationGroups.AdvanceKeepsFinishHandles | Runtime/Scripts/Managers/Mono/SceneLoader/SceneGroup/SceneGroupManager.cs:69-73 | polling the handles never changes the state they end in |
| OperationGroups.DoneIsFinished | Runtime/Scripts/Managers/Mono/SceneLoader/SceneGroup/SceneGroupManager.cs:125-128 | a group that is done is already in its final state |
| OperationGroups.DoneHandlesAreFinished | Runtime/Scripts/Managers/Mono/SceneLoader/SceneGroup/SceneGroupManager.cs:153 | a handle group that is done is already in its final state |
| OperationGroups.PollEnds | Runtime/Scripts/Managers/Mono/SceneLoader/SceneGroup/SceneGroupManager.cs:69 | once neither group is pending, nothing more is reported and both groups are final |
| OperationGroups.PollStep | Runtime/Scripts/Managers/Mono/SceneLoader/SceneGroup/SceneGroupManager.cs:69-73 | while either group is pending, one poll reports the mean of both groups' progress, owed polls strictly drop, and the final states are kept |
| OperationGroups.PollPreserves | Runtime/Scripts/Managers/Mono/SceneLoader/SceneGroup/SceneGroupManager.cs:69-73 | one poll keeps the load-poll invariant: the reports so far followed by those still to come are the reports of the whole wait |
| OperationGroups.SumWithinBounds | Runtime/Scripts/Managers/Mono/SceneLoader/SceneGroup/SceneGroupManager.cs:139 | the total progress of n members with progress in [lo, hi] lies in [n*lo, n*hi] |
| OperationGroups.ProgressWithinBounds | Runtime/Scripts/Managers/Mono/SceneLoader/SceneGroup/SceneGroupManager.cs:139 | the mean of a non-empty group lies between any bounds of its members' progress |
| OperationGroups.ProgressInUnitRange | Runtime/Scripts/Managers/Mono/SceneLoader/SceneGroup/SceneGroupManager.cs:139 | a group whose members show values in [0, 1] shows a value in [0, 1] |
| OperationGroups.AdvanceStaysInUnitRange | Runtime/Scripts/Managers/Mono/SceneLoader/SceneGroup/SceneGroupManager.cs:69-73 | members whose values all lie in [0, 1] still do after a poll |
| OperationGroups.ReportsInUnitRange | Runtime/Scripts/Managers/Mono/SceneLoader/SceneGroup/SceneGroupManager.cs:71 | every value the load poll reports lies in [0, 1] when every operation's values do |
| OperationGroups.AdvanceRises | Runtime/Scripts/Managers/Mono/SceneLoader/SceneGroup/SceneGroupManager.cs:69-73 | a poll keeps every operation's values rising and lowers no operation's progress |
| OperationGroups.ProgressMonotone | Runtime/Scripts/Managers/Mono/SceneLoader/SceneGroup/SceneGroupManager.cs:139 | a group whose members each show at least as much as before shows at least as much as before |
| OperationGroups.MeanRises | Runtime/Scripts/Managers/Mono/SceneLoader/SceneGroup/SceneGroupManager.cs:69-73 | one poll of operations whose values rise does not lower the reported mean |
| OperationGroups.ReportsRise | Runtime/Scripts/Managers/Mono/SceneLoader/SceneGroup/SceneGroupManager.cs:44-73 | every load is issued before the first poll, so when each operation's values rise the reported values never go down and none is below the first |
| OperationGroups.TwoPollScenario | Runtime/Scripts/Managers/Mono/SceneLoader/SceneGroup/SceneGroupManager.cs:69-73 | one regular and one Addressables load, each showing 0, 0.5 and then 1, produce the reports [0, 0.5] and no report of 1 |
| SceneGroups.CandidatesFromDescending | Runtime/Scripts/Managers/Mono/SceneLoader/SceneGroup/SceneGroupManager.cs:90 | the walk down from an index yields strictly descending indices |
| SceneGroups.CandidatesFromSelects | Runtime/Scripts/Managers/Mono/SceneLoader/SceneGroup/SceneGroupManager.cs:90-100 | the walk down from an index yields an index exactly when it is at least 1, at most the start, and the filter selects its scene |
| SceneGroups.UnloadCandidatesDescending | Runtime/Scripts/Managers/Mono/SceneLoader/SceneGroup/SceneGroupManager.cs:90 | unload candidates come from the top of the list down, all at index 1 or above, so the bootstrap scene is never unloaded |
| SceneGroups.UnloadCandidateIff | Runtime/Scripts/Managers/Mono/SceneLoader/SceneGroup/SceneGroupManager.cs:90-100 | a scene is unloaded exactly when it is not the bootstrap scene, is loaded, no valid handle yields it, and duplicates are unloaded or it is outside the active group |
| SceneGroups.OnlyBootstrapOpen | Runtime/Scripts/Managers/Mono/SceneLoader/SceneGroup/SceneGroupManager.cs:90 | with only the bootstrap scene open, an unload pass selects nothing |
| SceneGroups.CollectUnloadCandidates | Runtime/Scripts/Managers/Mono/SceneLoader/SceneGroup/SceneGroupManager.cs:87-100 | the candidate loop returns exactly the selected paths, in top-down order |
| SceneGroups.UnloadStep | Runtime/Scripts/Managers/Mono/SceneLoader/SceneGroup/SceneGroupManager.cs:105-113 | one more candidate adds one unload request, plus a signal, a tracked operation and a removed scene when the answer is not null |
| SceneGroups.ReleaseStep | Runtime/Scripts/Managers/Mono/SceneLoader/SceneGroup/SceneGroupManager.cs:115-121 | one more handle adds a release and a removed scene exactly when it is valid |
| SceneGroups.UnloadedSignalsMatchOperations | Runtime/Scripts/Managers/Mono/SceneLoader/SceneGroup/SceneGroupManager.cs:105-113 | one unloaded signal per tracked operation; a path is signalled exactly when it is a candidate whose unload was answered with an operation |
| SceneGroups.ReleasesEachValidHandle | Runtime/Scripts/Managers/Mono/SceneLoader/SceneGroup/SceneGroupManager.cs:115-121 | each valid handle is released as often as it occurs in the list, and an invalid handle never |
| SceneGroups.UnloadedPathsLeaveTheList | Runtime/Scripts/Managers/Mono/SceneLoader/SceneGroup/SceneGroupManager.cs:105-113 | after the unload requests no scene is new, and none remains at a path whose unload was answered |
| SceneGroups.SelectionStep | Runtime/Scripts/Managers/Mono/SceneLoader/SceneGroup/SceneGroupManager.cs:44-47 | one more entry is issued exactly when duplicates are reloaded or its name is not open |
| SceneGroups.IssueStep | Runtime/Scripts/Managers/Mono/SceneLoader/SceneGroup/SceneGroupManager.cs:44-66 | one more issued entry adds an operation if Regular, a handle if Addressable, its request and scenes, and one loaded signal |
| SceneGroups.ReloadSelectsEverything | Runtime/Scripts/Managers/Mono/SceneLoader/SceneGroup/SceneGroupManager.cs:47 | with reload-duplicates set, every entry is issued, in declared order |
| SceneGroups.SelectionSkipsOpenScenes | Runtime/Scripts/Managers/Mono/SceneLoader/SceneGroup/SceneGroupManager.cs:47 | without reload-duplicates, an entry is issued exactly when its name is not among the open scenes |
| SceneGroups.RepeatedLoadIssuesNothing | Runtime/Scripts/Managers/Mono/SceneLoader/SceneGroup/SceneGroupManager.cs:44-47 | requesting a group whose scenes are all open, without reload-duplicates, issues no load |
| SceneGroups.EveryIssuedEntrySignalled | Runtime/Scripts/Managers/Mono/SceneLoader/SceneGroup/SceneGroupManager.cs:65 | every issued entry raises its own loaded signal, in order, even an entry of a kind that issues no request |
| SceneGroups.DispatchByKind | Runtime/Scripts/Managers/Mono/SceneLoader/SceneGroup/SceneGroupManager.cs:49-58 | Regular entries add one operation each and Addressable entries one handle each; entries of the remaining kind add no request |
| SceneGroups.GroupLoadedOnce | Runtime/Scripts/Managers/Mono/SceneLoader/SceneGroup/SceneGroupManager.cs:82 | the signals of one load contain the group-loaded signal exactly once |
| SceneGroups.RegularLoadAddsNoHandles | Runtime/Scripts/Managers/Mono/SceneLoader/SceneGroup/SceneGroupManager.cs:49-58 | a group of Regular entries adds no handle to the persistent handle list |
| SceneGroups.LoadOpensRegularEntries | Runtime/Scripts/Managers/Mono/SceneLoader/SceneGroup/SceneGroupManager.cs:35-53 | after a load without reload-duplicates every Regular entry of the group has a scene of its name open, whether it was kept or loaded |
| SceneGroups.RepeatedRegularLoadIsNoOp | Runtime/Scripts/Managers/Mono/SceneLoader/SceneGroup/SceneGroupManager.cs:33-66 | loading a Regular group again without reload-duplicates, with its entries open and every open scene but the bootstrap one in the group, unloads, releases and loads nothing and leaves the scene list as it was |
| SceneGroups.AddressableFirstLoad | Runtime/Scripts/Managers/Mono/SceneLoader/SceneGroup/SceneGroupManager.cs:33-58 | the first load of a one-entry Addressable group from the bootstrap scene alone unloads nothing, selects the entry, opens its scene and adds its handle |
| SceneGroups.AddressableSecondLoad | Runtime/Scripts/Managers/Mono/SceneLoader/SceneGroup/SceneGroupManager.cs:85-122 | on the second load the scene is owned by its valid handle, so the candidate walk skips it, but the release pass releases the handle and the scene leaves the list |
| SceneGroups.AddressableReissued | Runtime/Scripts/Managers/Mono/SceneLoader/SceneGroup/SceneGroupManager.cs:35-58 | with only the bootstrap scene open the entry is selected again and its Addressables load is requested again |
| SceneGroups.RepeatedAddressableLoadReissues | Runtime/Scripts/Managers/Mono/SceneLoader/SceneGroup/SceneGroupManager.cs:33-122 | an Addressable group loaded twice in a row without reload-duplicates is unloaded by its own handle's release and loaded again by the second call |
| SceneGroups.AwaitOperations | Runtime/Scripts/Managers/Mono/SceneLoader/SceneGroup/SceneGroupManager.cs:125-128 | the unload poll returns when the group is done, with every operation in the state it ends in |
| SceneGroups.AwaitLoads | Runtime/Scripts/Managers/Mono/SceneLoader/SceneGroup/SceneGroupManager.cs:69-73 | the load poll ends with both groups in their final state, having reported the mean progress once per poll while either was pending |
| SceneGroups.SceneNames | Runtime/Scripts/Managers/Mono/SceneLoader/SceneGroup/SceneGroupManager.cs:35-39 | the snapshot holds the name of every open scene, in list order |
| SceneGroups.SceneGroupManager.constructor | Runtime/Scripts/Managers/Mono/SceneLoader/SceneGroup/SceneGroupManager.cs:20-22 | a new engine has no active group, no handles and has raised no signal |
| SceneGroups.SceneGroupManager.UnloadScenes | Runtime/Scripts/Managers/Mono/SceneLoader/SceneGroup/SceneGroupManager.cs:85-132 | the selected scenes are requested and signalled, and every valid handle is released and the list cleared. It waits until the tracked unloads are done, then requests the unused-assets pass; scene list and request log are stated in full |
| SceneGroups.SceneGroupManager.IssueUnloads | Runtime/Scripts/Managers/Mono/SceneLoader/SceneGroup/SceneGroupManager.cs:103-113 | one request per candidate; the non-null answers are tracked and signalled, in order, and the null ones skipped |
| SceneGroups.SceneGroupManager.ReleaseHandles | Runtime/Scripts/Managers/Mono/SceneLoader/SceneGroup/SceneGroupManager.cs:115-122 | every valid handle is released in list order, then the list is empty |
| SceneGroups.SceneGroupManager.LoadScenes | Runtime/Scripts/Managers/Mono/SceneLoader/SceneGroup/SceneGroupManager.cs:24-83 | GroupLoaded of the state before the call: the group becomes active, the bootstrap scene is activated and an unload pass runs. Loads are issued for the selection taken after it. The reports are those of polling both groups, the main scene is activated when open, and the signals end with one group-loaded signal; every request is stated in order |
| SceneGroups.SceneGroupManager.IssueLoads | Runtime/Scripts/Managers/Mono/SceneLoader/SceneGroup/SceneGroupManager.cs:41-66 | for the selected entries, in order: an operation per Regular entry, a persistent handle per Addressable entry, the matching request and scenes, and a loaded signal each |
| Loader.Report | Runtime/Scripts/Managers/Mono/SceneLoader/SceneLoader.cs:91-96 | the sink forwards every value unchanged, since the ratio is one |
| Loader.ForwardingKeepsValues | Runtime/Scripts/Managers/Mono/SceneLoader/SceneLoader.cs:87-97 | the progress sink forwards every value unchanged and in order; LoadAndForward uses it to make the progress bar's new values exactly the manager's reports |
| Loader.EventsUntilArePrefix | Runtime/Scripts/Managers/Mono/SceneLoader/SceneLoader.cs:38-65 | at every suspension point, what a call has done is a prefix of what a whole call does |
| Loader.CallOrder | Runtime/Scripts/Managers/Mono/SceneLoader/SceneLoader.cs:42-63 | a call saves first, plays the transition in exactly for TransitionInAndOut and before the sounds are freed, brackets the group load with the loading camera, and plays the transition out exactly for TransitionOut and TransitionInAndOut, last |
| Loader.SceneLoader.constructor | Runtime/Scripts/Managers/Mono/SceneLoader/SceneLoader.cs:24-28 | a new loader is idle, satisfies its invariant and has done nothing |
| Loader.SceneLoader.IsIndexValid | Runtime/Scripts/Managers/Mono/SceneLoader/SceneLoader.cs:67-75 | an index is valid exactly when it names a configured group |
| Loader.SceneLoader.LoadSceneGroup | Runtime/Scripts/Managers/Mono/SceneLoader/SceneLoader.cs:38-55 | a call is accepted exactly when its index is valid and no call is in flight. A rejected call changes nothing in the loader, the manager or the engine. An accepted call keeps the invariant; with the transition in it is suspended there and the manager, the engine and the empty progress bar are untouched; otherwise it is suspended in the load, the manager and engine are as GroupLoaded of the requested group says, and the progress bar holds exactly its reports |
| Loader.SceneLoader.Accept | Runtime/Scripts/Managers/Mono/SceneLoader/SceneLoader.cs:40-49 | an accepted call marks the loader as transitioning, records its arguments, raises the save, opens an empty progress bar and starts the transition in when asked to |
| Loader.SceneLoader.StartLoading | Runtime/Scripts/Managers/Mono/SceneLoader/SceneLoader.cs:50-55 | the sounds are freed and loading starts with the camera on; the manager and engine are left as GroupLoaded of the requested group says, and the progress bar keeps its earlier values followed by exactly that load's reports |
| Loader.SceneLoader.EnterLoading | Runtime/Scripts/Managers/Mono/SceneLoader/SceneLoader.cs:50-54 | the looping sounds are freed, loading and the camera are on, and the trace reaches the call of the manager's load |
| Loader.SceneLoader.LoadAndForward | Runtime/Scripts/Managers/Mono/SceneLoader/SceneLoader.cs:55 | the manager's load of the group, with its reports appended to the progress bar in order and nothing else of the bar changed |
| Loader.SceneLoader.LoadGroup | Runtime/Scripts/Managers/Mono/SceneLoader/SceneLoader.cs:55 | the manager's LoadScenes with the configured delay: the manager and engine afterwards, and the reports returned, are those GroupLoaded states |
| Loader.SceneLoader.EndLoading | Runtime/Scripts/Managers/Mono/SceneLoader/SceneLoader.cs:56-64 | the camera goes off and loading ends; the transition out starts unless there is none, in which case the call is over, and the whole call's events are then raised |
| Loader.SceneLoader.Resume | Runtime/Scripts/Managers/Mono/SceneLoader/SceneLoader.cs:46-64 | every resumption moves the call strictly towards its end along transition in, load and transition out and keeps the invariant. Leaving the transition in runs the load as GroupLoaded says and appends its reports to the progress bar; leaving the load or the transition out touches neither the manager, the engine nor the progress bar. A finished call has raised exactly one call's events in order |
| Persistence.LoadCache | Runtime/Scripts/Managers/Mono/DataPersistance/DataPersistenceManager.cs:133-146 | after Load settings are always held: kept if held, else stored, else new. The game record is kept unless missing or for another profile, is otherwise the stored one, and is missing only for profile -1 with nothing stored; the loaded profile is the selected one |
| Persistence.LoadReads | Runtime/Scripts/Managers/Mono/DataPersistance/DataPersistenceManager.cs:135-140 | storage is asked for settings exactly when none are held, and for the selected profile's game record exactly when it must be re-read |
| Persistence.LoadIsIdempotent | Runtime/Scripts/Managers/Mono/DataPersistance/DataPersistenceManager.cs:133-146 | a second Load with nothing changed in between leaves the cache as the first left it |
| Persistence.ReloadAfterLoad | Runtime/Scripts/Managers/Mono/DataPersistance/DataPersistenceManager.cs:138-146 | after a Load, the next Load reads nothing, except the game record again when profile -1 has nothing stored |
| Persistence.Saved | Runtime/Scripts/Managers/Mono/DataPersistance/DataPersistenceManager.cs:169-186 | a record is saved exactly when one is held; with no objects it is only stamped with the time |
| Persistence.SavedRecordsReload | Runtime/Scripts/Managers/Mono/DataPersistance/DataPersistenceManager.cs:164-187 | round trip: what SaveGame stores is what a Load with nothing held yields, and nothing new is created |
| Persistence.OrderedMembership | Runtime/Scripts/Managers/Mono/DataPersistance/DataPersistenceManager.cs:260-270 | the concatenated lists hold an object exactly when one of the enumerated scenes lists it |
| Persistence.CollectedMembership | Runtime/Scripts/Managers/Mono/DataPersistance/DataPersistenceManager.cs:260-270 | the collected lists hold an object exactly when some registered scene lists it; with nothing registered both are empty |
| Persistence.UnregisterUndoesRegister | Runtime/Scripts/Managers/Mono/DataPersistance/DataPersistenceManager.cs:247-253 | unloading a scene that was just registered restores the registry as it was |
| Persistence.SettingsLoads | Runtime/Scripts/Managers/Mono/DataPersistance/DataPersistenceManager.cs:150-153 | one push per settings object, in order, each with the held settings |
| Persistence.GameLoads | Runtime/Scripts/Managers/Mono/DataPersistance/DataPersistenceManager.cs:157-160 | one push per game object, in order, each with the held game record |
| Persistence.NoGamePushWithoutRecord | Runtime/Scripts/Managers/Mono/DataPersistance/DataPersistenceManager.cs:155-161 | with no game record held, no game object receives a push |
| Persistence.ProfileStore.ReadSettings | Runtime/Scripts/Managers/Mono/DataPersistance/DataPersistenceManager.cs:135 | a settings read returns the stored settings, if any, and is logged |
| Persistence.ProfileStore.ReadGame | Runtime/Scripts/Managers/Mono/DataPersistance/DataPersistenceManager.cs:140 | a game read returns the record stored for that profile, if any, and is logged |
| Persistence.ProfileStore.WriteSettings | Runtime/Scripts/Managers/Mono/DataPersistance/DataPersistenceManager.cs:176 | the written settings are the stored ones |
| Persistence.ProfileStore.WriteGame | Runtime/Scripts/Managers/Mono/DataPersistance/DataPersistenceManager.cs:185 | the written record is stored under that profile and every other profile's record is kept |
| Persistence.DataPersistenceManager.constructor | Runtime/Scripts/Managers/Mono/DataPersistance/DataPersistenceManager.cs:203-212 | a new manager holds nothing, has an empty registry and has selected its initial profile |
| Persistence.DataPersistenceManager.Init | Runtime/Scripts/Managers/Mono/DataPersistance/DataPersistenceManager.cs:83-109 | the selected profile is 0 with a single profile and the storage's most recent one otherwise; the registry is empty |
| Persistence.DataPersistenceManager.Load | Runtime/Scripts/Managers/Mono/DataPersistance/DataPersistenceManager.cs:133-162 | the cache becomes the load result for the selected profile, storage is read only where that demands, and the held records are pushed into the given objects, settings first |
| Persistence.DataPersistenceManager.Push | Runtime/Scripts/Managers/Mono/DataPersistance/DataPersistenceManager.cs:148-161 | the settings objects are pushed first, then the game objects, each only when its record is held |
| Persistence.DataPersistenceManager.RefreshSettings | Runtime/Scripts/Managers/Mono/DataPersistance/DataPersistenceManager.cs:135-136 | settings are read only while none are held, and created when storage has none |
| Persistence.DataPersistenceManager.RefreshGame | Runtime/Scripts/Managers/Mono/DataPersistance/DataPersistenceManager.cs:138-146 | the game record is re-read when missing or for another profile, the selected profile becomes the loaded one, and a missing record is created unless the profile is -1 |
| Persistence.DataPersistenceManager.PushSettings | Runtime/Scripts/Managers/Mono/DataPersistance/DataPersistenceManager.cs:148-154 | each settings object receives the held settings, in order |
| Persistence.DataPersistenceManager.PushGame | Runtime/Scripts/Managers/Mono/DataPersistance/DataPersistenceManager.cs:155-161 | each game object receives the held game record, in order |
| Persistence.DataPersistenceManager.GetAllDataObjs | Runtime/Scripts/Managers/Mono/DataPersistance/DataPersistenceManager.cs:260-270 | the returned lists are the concatenations of every registered scene's lists, in one enumeration order of the registry |
| Persistence.DataPersistenceManager.NextKey | Runtime/Scripts/Managers/Mono/DataPersistance/DataPersistenceManager.cs:264 | the enumerator yields a key not yet visited |
| Persistence.DataPersistenceManager.LoadGame | Runtime/Scripts/Managers/Mono/DataPersistance/DataPersistenceManager.cs:114-121 | nothing happens while disabled; otherwise it is a Load with the objects of every registered scene |
| Persistence.DataPersistenceManager.LoadGameForScene | Runtime/Scripts/Managers/Mono/DataPersistance/DataPersistenceManager.cs:123-131 | disabled: nothing happens. A handle already registered is the duplicate-key error and changes nothing. Otherwise the scene's objects are registered under its handle and a Load pushes into them alone |
| Persistence.DataPersistenceManager.HandleSceneUnloaded | Runtime/Scripts/Managers/Mono/DataPersistance/DataPersistenceManager.cs:247-253 | the unloaded scene's entry is gone and every other entry is kept |
| Persistence.DataPersistenceManager.SaveGame | Runtime/Scripts/Managers/Mono/DataPersistance/DataPersistenceManager.cs:164-187 | disabled: nothing happens. Otherwise each held record is written by every registered object, stamped with the given time and stored, the game record under the selected profile; a missing record is neither created nor stored |
| Persistence.SwitchingBackRestoresGame | Runtime/Scripts/Managers/Mono/DataPersistance/DataPersistenceManager.cs:194-199 | switching from a profile to another and back gives back the game record saved at the first switch: the other profile's save cannot overwrite it, and the return re-reads it |
| Persistence.Switch | Runtime/Scripts/Managers/Mono/DataPersistance/DataPersistenceManager.cs:164-199 | a profile change stores each held record after the objects wrote into it (the game record under the old profile, no other profile's file touched), then loads for the new profile: it is the loaded one, settings are held, and a reload for the same profile keeps the record just stored |
| Persistence.DataPersistenceManager.ChangeSelectedProfileId | Runtime/Scripts/Managers/Mono/DataPersistance/DataPersistenceManager.cs:194-199 | the new profile is selected even while disabled, when nothing else changes. While enabled, the cache and storage afterwards are Switch of the old cache and storage from the old profile to the new one, for some enumeration of the registered objects; the storage reads are those a Load of the old cache for the new profile makes, and the pushes are Load's |
| Persistence.DataPersistenceManager.WriteInto | Runtime/Scripts/Managers/Mono/DataPersistance/DataPersistenceManager.cs:171-174 | the record after each object, in order, has written into it |

## Left out

- Unity's scene manager and the Addressables system are an environment whose answers are constant functions. Several effects are assumptions of this model, not facts about Unity:
  - an unload removes its scene from the list as soon as it is requested;
  - a release removes the scene its handle yielded;
  - a load appends its scene at once.
- Engine operations are finite scripts of progress values, so operations that never finish are not modelled. The unbounded wait the code would perform then is not captured.
- The `loadDelay` stagger between loads and the 100 ms poll interval are not modelled as time. The model freezes every operation between its issue and the first poll: an operation makes no progress while later loads are issued, and advances by exactly one script step per poll.
- Progress values are real numbers, so single-precision rounding in the average is not modelled.
- The group-membership test `IsSceneInGroup` is an opaque parameter; SceneGroup.cs is not part of this model.
- The static `IsTransitioning` and `IsLoading` flags are fields of the one loader. The awaits of the transition effects are the loader's phases.
- The engine's own awaits are invisible to the loader. `SceneGroups.SceneGroupManager.LoadScenes` runs as one step, at the point the loader calls it.
- The per-scene debug subscriptions in the loader's Awake and all logging are left out.
- SceneGroups.SceneGroupManager.UnloadScenes: requires an active group. In the code, an unload pass with none would fail on a null reference, and every caller sets one first.
- The file handlers, their paths, file naming patterns and encryption are not modelled. They are represented by a store holding one settings record and a map from profile id to game record.
- The handler's most recent profile is a constant of that store. `DateTime.Now` is the `now` parameter of `SaveGame`. The code reads the clock twice, once for the settings record's stamp (DataPersistenceManager.cs line 175) and once for the game record's (line 184); the model stamps both with the one `now`, so a tick between the two reads is not captured.
- What `NewSettingsData`, `NewGameData` and each object's `SaveData` produce comes from given functions. The scene traversal of `DataPersistenceObjects.Init` is a given function from scene handle to the scene's objects.
- Records are values: a SaveData that mutates the shared record in place is modelled as a function returning the updated record.
- `DeleteProfileData` and `GetAllProfilesGameData` only forward to the game file handler, which is not part of this model.
- `HandleSceneLoaded` forwards to `LoadGameForScene` and `OnApplicationQuit` to `SaveGame`. The event-bus and scene-event subscriptions of `OnEnable`/`OnDisable` are not modelled.
- The editor-only block of Awake, the inspector buttons that open the saves folder or the save file, and `IsPatternValid` are editor tooling and are left out.
- The dictionary's enumeration order is unspecified by .NET. Persistence.DataPersistenceManager.GetAllDataObjs therefore promises some order of the registered scenes, not a particular one.
- Persistence.DataPersistenceManager.LoadGame: the pushes are stated for some enumeration order of the registry, since the order itself is unspecified.
- The countdown timer in the timers directory is not part of this model.

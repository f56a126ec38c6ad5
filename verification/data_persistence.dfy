/**
 * The in-memory part of the data persistence manager
 * (Runtime/Scripts/Managers/Mono/DataPersistance/DataPersistenceManager.cs):
 * the settings and game-data cache, the selected and loaded profile ids, the
 * registry of each open scene's data objects keyed by scene handle, and the
 * pushes of data into those objects.
 *
 * S is the settings record type and G the game record type. The file handlers
 * are represented by a ProfileStore; the code of the data objects and of the
 * concrete manager (new records, what an object writes into a record, the
 * timestamp) is given as Hooks.
 */
module Persistence {
  import opened Optional
  import opened Seqs

  /** A data object, by identity. */
  type ObjId = int

  /** The objects of one scene that take settings and game data. */
  datatype DataObjects = DataObjects(settingsObjs: seq<ObjId>, gameObjs: seq<ObjId>)

  /** A LoadData push into an object, with the record it received. */
  datatype DataCall<S, G> =
    | SettingsLoadedInto(obj: ObjId, settings: S)
    | GameLoadedInto(obj: ObjId, game: G)

  /** A read of the storage. */
  datatype StoreRead = SettingsRead | GameRead(profileId: int)

  /** The code the manager calls but that is not part of it. */
  datatype Hooks<!S, !G> = Hooks(
    newSettings: S,                      // NewSettingsData
    newGame: G,                          // NewGameData
    sceneObjects: int -> DataObjects,    // what DataPersistenceObjects.Init finds in the scene with that handle
    settingsWrite: (ObjId, S) -> S,      // what an object's SaveData writes into the settings
    gameWrite: (ObjId, G) -> G,          // what an object's SaveData writes into the game record
    stampSettings: (S, int) -> S,        // lastUpdated := the time given
    stampGame: (G, int) -> G)

  /** Outcome of loading for a scene: done, skipped (persistence disabled), or the duplicate-key error of the registry. */
  datatype Outcome = Done | Disabled | DuplicateHandle

  // ---------------------------------------------------------------------------
  // The cache (Load, lines 133-162)

  /** The records held and the profile the game record was read for. */
  datatype Cache<S, G> = Cache(settings: Option<S>, game: Option<G>, loadedProfileId: int)

  function StoredGame<G>(files: map<int, G>, profileId: int): Option<G>
  {
    if profileId in files then Some(files[profileId]) else None
  }

  /** Load re-reads the game record when none is held or it belongs to another profile. */
  predicate NeedsGameReload<S, G>(c: Cache<S, G>, selected: int)
  {
    c.game.None? || c.loadedProfileId != selected
  }

  /**
   * The cache after Load, given what storage holds. Settings are kept when
   * held, else read, else created, so they are always present afterwards; the
   * game record is re-read exactly when it is missing or for another
   * profile, and the loaded profile is then the selected one; a missing game
   * record is created unless the selected profile is -1.
   */
  function LoadCache<S, G>(c: Cache<S, G>, selected: int, storedSettings: Option<S>, storedGame: Option<G>,
                           freshSettings: S, freshGame: G): (r: Cache<S, G>)
    ensures r.settings.Some?
    ensures c.settings.Some? ==> r.settings == c.settings
    ensures c.settings.None? ==> r.settings == (if storedSettings.Some? then storedSettings else Some(freshSettings))
    ensures r.loadedProfileId == selected
    ensures !NeedsGameReload(c, selected) ==> r.game == c.game
    ensures NeedsGameReload(c, selected) && storedGame.Some? ==> r.game == storedGame
    ensures r.game.None? <==> NeedsGameReload(c, selected) && storedGame.None? && selected == -1
  {
    Cache(SettingsAfterLoad(c.settings, storedSettings, freshSettings),
          GameAfterLoad(c.game, c.loadedProfileId, selected, storedGame, freshGame),
          if NeedsGameReload(c, selected) then selected else c.loadedProfileId)
  }

  /** Lines 135-136: the held settings, else the stored ones, else new ones. */
  function SettingsAfterLoad<S>(held: Option<S>, stored: Option<S>, created: S): Option<S>
  {
    if held.Some? then held else if stored.Some? then stored else Some(created)
  }

  /** Lines 138-146: the game record, re-read when missing or for another profile, and created when still missing unless the profile is -1. */
  function GameAfterLoad<G>(held: Option<G>, loaded: int, selected: int, stored: Option<G>, created: G): Option<G>
  {
    var game := if held.None? || loaded != selected then stored else held;
    if game.None? && selected != -1 then Some(created) else game
  }

  /** The storage reads Load makes: the settings only while none are held, the game record only when it is re-read. */
  function LoadReads<S, G>(c: Cache<S, G>, selected: int): (issued: seq<StoreRead>)
    ensures SettingsRead in issued <==> c.settings.None?
    ensures GameRead(selected) in issued <==> NeedsGameReload(c, selected)
  {
    (if c.settings.None? then [SettingsRead] else []) + (if NeedsGameReload(c, selected) then [GameRead(selected)] else [])
  }

  /** A second Load with nothing changed in between leaves the cache as the first left it. */
  lemma LoadIsIdempotent<S, G>(c: Cache<S, G>, selected: int, storedSettings: Option<S>, storedGame: Option<G>,
                              freshSettings: S, freshGame: G)
    ensures var once := LoadCache(c, selected, storedSettings, storedGame, freshSettings, freshGame);
      LoadCache(once, selected, storedSettings, storedGame, freshSettings, freshGame) == once
  {
    var once := LoadCache(c, selected, storedSettings, storedGame, freshSettings, freshGame);
    if once.game.None? {
      assert NeedsGameReload(c, selected) && storedGame.None? && selected == -1;
    }
  }

  /** After a Load only profile -1 with nothing stored makes the next Load read the game record again. */
  lemma ReloadAfterLoad<S, G>(c: Cache<S, G>, selected: int, storedSettings: Option<S>, storedGame: Option<G>,
                             freshSettings: S, freshGame: G)
    ensures var once := LoadCache(c, selected, storedSettings, storedGame, freshSettings, freshGame);
      && LoadReads(once, selected) == (if once.game.None? then [GameRead(selected)] else [])
      && (once.game.None? <==> NeedsGameReload(c, selected) && storedGame.None? && selected == -1)
  {
  }

  // ---------------------------------------------------------------------------
  // Saving (SaveGame, lines 164-187)

  /** The record after each object, in order, has written into it. */
  function WriteAll<D>(objs: seq<ObjId>, d: D, write: (ObjId, D) -> D): D
  {
    if objs == [] then d else write(objs[|objs| - 1], WriteAll(objs[..|objs| - 1], d, write))
  }

  /** A held record after SaveGame: written by every object, then stamped; nothing is created when none is held. */
  function Saved<D>(held: Option<D>, objs: seq<ObjId>, write: (ObjId, D) -> D, stamp: (D, int) -> D, now: int): (r: Option<D>)
    ensures r.Some? <==> held.Some?
    ensures objs == [] && held.Some? ==> r == Some(stamp(held.value, now))
  {
    if held.None? then None else Some(stamp(WriteAll(objs, held.value, write), now))
  }

  /**
   * What SaveGame stores is what a later session reads back: with nothing
   * held, Load yields the saved settings and the saved game record of the
   * selected profile, and creates neither.
   */
  lemma SavedRecordsReload<S, G>(settings: S, game: G, files: map<int, G>, selected: int, loaded: int,
                                 freshSettings: S, freshGame: G)
    ensures LoadCache(Cache(None, None, loaded), selected, Some(settings), StoredGame(files[selected := game], selected),
                      freshSettings, freshGame)
         == Cache(Some(settings), Some(game), selected)
  {
    assert StoredGame(files[selected := game], selected) == Some(game);
  }

  // ---------------------------------------------------------------------------
  // Changing profile (ChangeSelectedProfileId, lines 194-199)

  /** What storage holds: the settings file and each profile's game file. */
  datatype Stored<S, G> = Stored(settings: Option<S>, games: map<int, G>)

  /** The held records after SaveGame has had the collected objects write into them and stamped them. */
  function SavedCache<S, G>(c: Cache<S, G>, settingsObjs: seq<ObjId>, gameObjs: seq<ObjId>, hooks: Hooks<S, G>, now: int): Cache<S, G>
  {
    Cache(Saved(c.settings, settingsObjs, hooks.settingsWrite, hooks.stampSettings, now),
          Saved(c.game, gameObjs, hooks.gameWrite, hooks.stampGame, now),
          c.loadedProfileId)
  }

  /**
   * Saving under profile `from`, then loading for profile `to`: the cache and
   * the storage afterwards. Every held record is stored, the game record
   * under `from` and no other profile's file; the cache is then loaded for
   * `to` from that storage.
   */
  function Switch<S, G>(c: Cache<S, G>, st: Stored<S, G>, from: int, to: int,
                        settingsObjs: seq<ObjId>, gameObjs: seq<ObjId>, hooks: Hooks<S, G>, now: int)
    : (r: (Cache<S, G>, Stored<S, G>))
    ensures r.0.loadedProfileId == to && r.0.settings.Some?
    ensures r.1.settings == (if c.settings.Some? then Saved(c.settings, settingsObjs, hooks.settingsWrite, hooks.stampSettings, now)
                             else st.settings)
    ensures c.game.Some? ==> StoredGame(r.1.games, from) == Saved(c.game, gameObjs, hooks.gameWrite, hooks.stampGame, now)
    ensures c.game.None? ==> r.1.games == st.games
    ensures forall p :: p != from ==> StoredGame(r.1.games, p) == StoredGame(st.games, p)
    ensures from == to && c.loadedProfileId == to && c.game.Some? ==> r.0.game == StoredGame(r.1.games, from)
  {
    var saved := SavedCache(c, settingsObjs, gameObjs, hooks, now);
    var stored := Stored(if saved.settings.Some? then saved.settings else st.settings,
                         if saved.game.Some? then st.games[from := saved.game.value] else st.games);
    (LoadCache(saved, to, stored.settings, StoredGame(stored.games, to), hooks.newSettings, hooks.newGame), stored)
  }

  /**
   * Switching from profile a to another profile b and back again gives back
   * the game record stored at the first switch: b's save cannot overwrite a's
   * file, and the cache is re-read because it was loaded for b.
   */
  lemma SwitchingBackRestoresGame<S, G>(c: Cache<S, G>, st: Stored<S, G>, a: int, b: int,
                                        so1: seq<ObjId>, go1: seq<ObjId>, so2: seq<ObjId>, go2: seq<ObjId>,
                                        hooks: Hooks<S, G>, now1: int, now2: int)
    requires a != b && c.game.Some?
    ensures var first := Switch(c, st, a, b, so1, go1, hooks, now1);
      var second := Switch(first.0, first.1, b, a, so2, go2, hooks, now2);
      && second.0.loadedProfileId == a
      && second.0.game == StoredGame(first.1.games, a)
      && second.0.game == Saved(c.game, go1, hooks.gameWrite, hooks.stampGame, now1)
  {
    var first := Switch(c, st, a, b, so1, go1, hooks, now1);
    var saved := SavedCache(first.0, so2, go2, hooks, now2);
    assert StoredGame(Switch(first.0, first.1, b, a, so2, go2, hooks, now2).1.games, a) == StoredGame(first.1.games, a);
    assert NeedsGameReload(saved, a);
  }

  // ---------------------------------------------------------------------------
  // The data-object registry and its enumeration (lines 123-131, 247-253, 260-270)

  /** Every key of the map exactly once, in some order. */
  ghost predicate IsKeyOrder(order: seq<int>, m: map<int, DataObjects>)
  {
    && (forall i, j :: 0 <= i < j < |order| ==> order[i] != order[j])
    && (forall i :: 0 <= i < |order| ==> order[i] in m)
    && (forall k :: k in m ==> k in order)
  }

  /** The settings lists of the given scenes, concatenated in the given order. */
  function SettingsOf(m: map<int, DataObjects>, order: seq<int>): seq<ObjId>
    requires forall i :: 0 <= i < |order| ==> order[i] in m
  {
    if order == [] then [] else SettingsOf(m, order[..|order| - 1]) + m[order[|order| - 1]].settingsObjs
  }

  function GamesOf(m: map<int, DataObjects>, order: seq<int>): seq<ObjId>
    requires forall i :: 0 <= i < |order| ==> order[i] in m
  {
    if order == [] then [] else GamesOf(m, order[..|order| - 1]) + m[order[|order| - 1]].gameObjs
  }

  /** The two lists GetAllDataObjs may return: the concatenations over the registered scenes, in one enumeration order. */
  ghost predicate Collected(m: map<int, DataObjects>, settingsObjs: seq<ObjId>, gameObjs: seq<ObjId>)
  {
    exists order :: IsKeyOrder(order, m) && settingsObjs == SettingsOf(m, order) && gameObjs == GamesOf(m, order)
  }

  lemma {:induction false} OrderedMembership(m: map<int, DataObjects>, order: seq<int>, obj: ObjId)
    requires forall i :: 0 <= i < |order| ==> order[i] in m
    ensures obj in SettingsOf(m, order) <==> exists i :: 0 <= i < |order| && obj in m[order[i]].settingsObjs
    ensures obj in GamesOf(m, order) <==> exists i :: 0 <= i < |order| && obj in m[order[i]].gameObjs
  {
    if order != [] {
      var init := order[..|order| - 1];
      OrderedMembership(m, init, obj);
      forall i | 0 <= i < |init| ensures init[i] == order[i] { }
    }
  }

  /**
   * The collected lists hold an object exactly when some registered scene
   * lists it, and nothing else; with no scene registered both are empty.
   */
  lemma CollectedMembership(m: map<int, DataObjects>, settingsObjs: seq<ObjId>, gameObjs: seq<ObjId>, obj: ObjId)
    requires Collected(m, settingsObjs, gameObjs)
    ensures obj in settingsObjs <==> exists h :: h in m && obj in m[h].settingsObjs
    ensures obj in gameObjs <==> exists h :: h in m && obj in m[h].gameObjs
    ensures m == map[] ==> settingsObjs == [] && gameObjs == []
  {
    var order :| IsKeyOrder(order, m) && settingsObjs == SettingsOf(m, order) && gameObjs == GamesOf(m, order);
    OrderedMembership(m, order, obj);
    if exists h :: h in m && obj in m[h].settingsObjs {
      var h :| h in m && obj in m[h].settingsObjs;
      var i :| 0 <= i < |order| && order[i] == h;
    }
    if exists h :: h in m && obj in m[h].gameObjs {
      var h :| h in m && obj in m[h].gameObjs;
      var i :| 0 <= i < |order| && order[i] == h;
    }
  }

  /** A set of keys that is not empty has a member to enumerate next. */
  lemma NonEmptyHasKey(keys: set<int>)
    requires keys != {}
    ensures exists k :: k in keys
  {
    assert (forall k :: k !in keys) ==> keys == {};
  }

  /** Unloading a scene that was just registered restores the registry it was registered into. */
  lemma UnregisterUndoesRegister(m: map<int, DataObjects>, handle: int, objects: DataObjects)
    requires handle !in m
    ensures m[handle := objects] - {handle} == m
  {
    assert (m[handle := objects] - {handle}).Keys == m.Keys;
  }

  // ---------------------------------------------------------------------------
  // Pushes into objects

  function SettingsLoads<S, G>(objs: seq<ObjId>, settings: S): (calls: seq<DataCall<S, G>>)
    ensures |calls| == |objs|
    ensures forall i :: 0 <= i < |objs| ==> calls[i] == SettingsLoadedInto(objs[i], settings)
  {
    if objs == [] then [] else SettingsLoads(objs[..|objs| - 1], settings) + [SettingsLoadedInto(objs[|objs| - 1], settings)]
  }

  function GameLoads<S, G>(objs: seq<ObjId>, game: G): (calls: seq<DataCall<S, G>>)
    ensures |calls| == |objs|
    ensures forall i :: 0 <= i < |objs| ==> calls[i] == GameLoadedInto(objs[i], game)
  {
    if objs == [] then [] else GameLoads(objs[..|objs| - 1], game) + [GameLoadedInto(objs[|objs| - 1], game)]
  }

  /** The pushes of Load: every settings object gets the settings, and every game object the game record when one is held. */
  function LoadPushes<S, G>(settingsObjs: seq<ObjId>, gameObjs: seq<ObjId>, settings: Option<S>, game: Option<G>): seq<DataCall<S, G>>
  {
    (if settings.Some? then SettingsLoads(settingsObjs, settings.value) else [])
      + (if game.Some? then GameLoads(gameObjs, game.value) else [])
  }

  /** With no game record held, no game object receives a push. */
  lemma NoGamePushWithoutRecord<S, G>(settingsObjs: seq<ObjId>, gameObjs: seq<ObjId>, settings: Option<S>, obj: ObjId, game: G)
    ensures GameLoadedInto(obj, game) !in LoadPushes<S, G>(settingsObjs, gameObjs, settings, None)
  {
    if settings.Some? {
      var pushes := SettingsLoads<S, G>(settingsObjs, settings.value);
      assert LoadPushes<S, G>(settingsObjs, gameObjs, settings, None) == pushes;
      assert forall i :: 0 <= i < |pushes| ==> pushes[i].SettingsLoadedInto?;
    }
  }

  // ---------------------------------------------------------------------------
  // The storage the file handlers give access to

  class ProfileStore<S, G> {
    var settingsFile: Option<S>
    var gameFiles: map<int, G>
    var readLog: seq<StoreRead>
    /** The profile the game handler reports as most recently saved. */
    const mostRecentProfileId: int

    constructor (settings: Option<S>, games: map<int, G>, mostRecent: int)
      ensures settingsFile == settings && gameFiles == games && readLog == [] && mostRecentProfileId == mostRecent
    {
      settingsFile, gameFiles, readLog := settings, games, [];
      mostRecentProfileId := mostRecent;
    }

    method ReadSettings() returns (settings: Option<S>)
      modifies this`readLog
      ensures settings == settingsFile && readLog == old(readLog) + [SettingsRead]
    {
      settings := settingsFile;
      readLog := readLog + [SettingsRead];
    }

    method ReadGame(profileId: int) returns (game: Option<G>)
      modifies this`readLog
      ensures game == StoredGame(gameFiles, profileId) && readLog == old(readLog) + [GameRead(profileId)]
    {
      game := StoredGame(gameFiles, profileId);
      readLog := readLog + [GameRead(profileId)];
    }

    method WriteSettings(settings: S)
      modifies this`settingsFile
      ensures settingsFile == Some(settings)
    {
      settingsFile := Some(settings);
    }

    method WriteGame(game: G, profileId: int)
      modifies this`gameFiles
      ensures gameFiles == old(gameFiles)[profileId := game]
    {
      gameFiles := gameFiles[profileId := game];
    }
  }

  // ---------------------------------------------------------------------------
  // The manager

  class DataPersistenceManager<S, G> {
    const disabled: bool
    const multipleProfiles: bool
    const hooks: Hooks<S, G>
    const store: ProfileStore<S, G>

    var settingsData: Option<S>
    var gameData: Option<G>
    var loadedProfileId: int
    var selectedProfileId: int
    /** The data objects of each open scene, by scene handle. */
    var sceneDataObjects: map<int, DataObjects>
    /** Every LoadData push, in order. */
    var pushes: seq<DataCall<S, G>>

    function Held(): Cache<S, G>
      reads this
    {
      Cache(settingsData, gameData, loadedProfileId)
    }

    /** Awake: nothing is held, and Init chooses the profile and empties the registry. */
    constructor (disable: bool, multiple: bool, code: Hooks<S, G>, storage: ProfileStore<S, G>)
      ensures disabled == disable && multipleProfiles == multiple && hooks == code && store == storage
      ensures settingsData == None && gameData == None && loadedProfileId == 0 && pushes == []
      ensures selectedProfileId == (if multiple then storage.mostRecentProfileId else 0)
      ensures sceneDataObjects == map[]
    {
      disabled, multipleProfiles, hooks, store := disable, multiple, code, storage;
      settingsData, gameData, loadedProfileId, selectedProfileId := None, None, 0, 0;
      sceneDataObjects, pushes := map[], [];
      new;
      Init();
    }

    /** Profile 0 with a single profile, the storage's most recent profile otherwise; an empty registry. */
    method Init()
      modifies this`selectedProfileId, this`sceneDataObjects
      ensures selectedProfileId == (if multipleProfiles then store.mostRecentProfileId else 0)
      ensures sceneDataObjects == map[]
    {
      if multipleProfiles {
        selectedProfileId := -1;
      } else {
        selectedProfileId := 0;
      }
      sceneDataObjects := map[];
      if multipleProfiles {
        selectedProfileId := store.mostRecentProfileId;
      }
    }

    /**
     * Brings the cache up to date for the selected profile, reading storage
     * only where LoadReads says, then pushes the settings into every
     * settings object and, when a game record is held, the game record into
     * every game object.
     */
    method Load(settingsObjs: seq<ObjId>, gameObjs: seq<ObjId>)
      modifies this`settingsData, this`gameData, this`loadedProfileId, this`pushes, store`readLog
      ensures Held() == LoadCache(old(Held()), selectedProfileId, store.settingsFile,
                                  StoredGame(store.gameFiles, selectedProfileId), hooks.newSettings, hooks.newGame)
      ensures store.readLog == old(store.readLog) + LoadReads(old(Held()), selectedProfileId)
      ensures pushes == old(pushes) + LoadPushes(settingsObjs, gameObjs, settingsData, gameData)
    {
      ghost var held := Held();
      RefreshSettings();
      RefreshGame();
      AppendAssoc(old(store.readLog), if held.settings.None? then [SettingsRead] else [],
                  if NeedsGameReload(held, selectedProfileId) then [GameRead(selectedProfileId)] else []);
      Push(settingsObjs, gameObjs);
    }

    /** The LoadData pushes of Load: settings objects first, then game objects, each only when its record is held. */
    method Push(settingsObjs: seq<ObjId>, gameObjs: seq<ObjId>)
      modifies this`pushes
      ensures pushes == old(pushes) + LoadPushes(settingsObjs, gameObjs, settingsData, gameData)
    {
      ghost var first := if settingsData.Some? then SettingsLoads<S, G>(settingsObjs, settingsData.value) else [];
      ghost var second := if gameData.Some? then GameLoads<S, G>(gameObjs, gameData.value) else [];
      if settingsData.Some? {
        PushSettings(settingsObjs);
      }
      if gameData.Some? {
        PushGame(gameObjs);
      }
      AppendAssoc(old(pushes), first, second);
    }

    /** Lines 135-136: settings are read only while none are held, and created when storage has none. */
    method RefreshSettings()
      modifies this`settingsData, store`readLog
      ensures settingsData == SettingsAfterLoad(old(settingsData), store.settingsFile, hooks.newSettings)
      ensures store.readLog == old(store.readLog) + (if old(settingsData).None? then [SettingsRead] else [])
    {
      if settingsData.None? {
        settingsData := store.ReadSettings();
      }
      if settingsData.None? {
        settingsData := Some(hooks.newSettings);
      }
    }

    /** Lines 138-146: the game record is re-read when missing or for another profile, then created unless the profile is -1. */
    method RefreshGame()
      modifies this`gameData, this`loadedProfileId, store`readLog
      ensures gameData == GameAfterLoad(old(gameData), old(loadedProfileId), selectedProfileId,
                                        StoredGame(store.gameFiles, selectedProfileId), hooks.newGame)
      ensures loadedProfileId == selectedProfileId
      ensures store.readLog == old(store.readLog)
                + (if old(gameData).None? || old(loadedProfileId) != selectedProfileId then [GameRead(selectedProfileId)] else [])
    {
      if gameData.None? || loadedProfileId != selectedProfileId {
        gameData := store.ReadGame(selectedProfileId);
        loadedProfileId := selectedProfileId;
      }
      if gameData.None? && selectedProfileId != -1 {
        gameData := Some(hooks.newGame);
      }
    }

    /** LoadData of the held settings into each object, in order. */
    method PushSettings(settingsObjs: seq<ObjId>)
      requires settingsData.Some?
      modifies this`pushes
      ensures pushes == old(pushes) + SettingsLoads(settingsObjs, settingsData.value)
    {
      for i := 0 to |settingsObjs|
        invariant pushes == old(pushes) + SettingsLoads(settingsObjs[..i], settingsData.value)
      {
        assert settingsObjs[..i + 1][..i] == settingsObjs[..i];
        AppendAssoc(old(pushes), SettingsLoads<S, G>(settingsObjs[..i], settingsData.value),
                    [SettingsLoadedInto(settingsObjs[i], settingsData.value)]);
        pushes := pushes + [SettingsLoadedInto(settingsObjs[i], settingsData.value)];
      }
      assert settingsObjs[..|settingsObjs|] == settingsObjs;
    }

    /** LoadData of the held game record into each object, in order. */
    method PushGame(gameObjs: seq<ObjId>)
      requires gameData.Some?
      modifies this`pushes
      ensures pushes == old(pushes) + GameLoads(gameObjs, gameData.value)
    {
      for i := 0 to |gameObjs|
        invariant pushes == old(pushes) + GameLoads(gameObjs[..i], gameData.value)
      {
        assert gameObjs[..i + 1][..i] == gameObjs[..i];
        AppendAssoc(old(pushes), GameLoads<S, G>(gameObjs[..i], gameData.value), [GameLoadedInto(gameObjs[i], gameData.value)]);
        pushes := pushes + [GameLoadedInto(gameObjs[i], gameData.value)];
      }
      assert gameObjs[..|gameObjs|] == gameObjs;
    }

    /** The settings and game objects of every registered scene, concatenated in the dictionary's enumeration order. */
    method GetAllDataObjs() returns (settingsObjs: seq<ObjId>, gameObjs: seq<ObjId>)
      ensures Collected(sceneDataObjects, settingsObjs, gameObjs)
    {
      var registry := sceneDataObjects;
      settingsObjs, gameObjs := [], [];
      var remaining := registry.Keys;
      ghost var order: seq<int> := [];
      while remaining != {}
        invariant remaining <= registry.Keys
        invariant forall i, j :: 0 <= i < j < |order| ==> order[i] != order[j]
        invariant forall i :: 0 <= i < |order| ==> order[i] in registry && order[i] !in remaining
        invariant forall k :: k in registry && k !in remaining ==> k in order
        invariant settingsObjs == SettingsOf(registry, order)
        invariant gameObjs == GamesOf(registry, order)
        decreases remaining
      {
        var handle := NextKey(remaining);
        var pair := registry[handle];
        assert (order + [handle])[..|order|] == order;
        order := order + [handle];
        settingsObjs := settingsObjs + pair.settingsObjs;
        gameObjs := gameObjs + pair.gameObjs;
        remaining := remaining - {handle};
      }
      assert IsKeyOrder(order, registry);
    }

    /** The next key the dictionary's enumerator yields: some key not yet visited, in no order the model fixes. */
    static method NextKey(remaining: set<int>) returns (key: int)
      requires remaining != {}
      ensures key in remaining
    {
      NonEmptyHasKey(remaining);
      key :| key in remaining;
    }

    /** LoadGame(): nothing when disabled; otherwise Load with the objects of every registered scene. */
    method LoadGame()
      modifies this`settingsData, this`gameData, this`loadedProfileId, this`pushes, store`readLog
      ensures disabled ==> unchanged(this) && unchanged(store)
      ensures !disabled ==>
        && Held() == LoadCache(old(Held()), selectedProfileId, store.settingsFile,
                               StoredGame(store.gameFiles, selectedProfileId), hooks.newSettings, hooks.newGame)
        && store.readLog == old(store.readLog) + LoadReads(old(Held()), selectedProfileId)
        && exists so, go :: Collected(sceneDataObjects, so, go) && pushes == old(pushes) + LoadPushes(so, go, settingsData, gameData)
    {
      if disabled {
        return;
      }
      var settingsObjs, gameObjs := GetAllDataObjs();
      Load(settingsObjs, gameObjs);
    }

    /**
     * LoadGame(scene), also run for every scene the engine loads: nothing
     * when disabled; a handle already registered is the registry's
     * duplicate-key error and changes nothing; otherwise the scene's objects
     * are registered under its handle and Load pushes into them alone.
     */
    method LoadGameForScene(sceneHandle: int) returns (outcome: Outcome)
      modifies this`settingsData, this`gameData, this`loadedProfileId, this`pushes, this`sceneDataObjects, store`readLog
      ensures outcome == (if disabled then Disabled else if sceneHandle in old(sceneDataObjects) then DuplicateHandle else Done)
      ensures outcome != Done ==> unchanged(this) && unchanged(store)
      ensures outcome == Done ==>
        var objects := hooks.sceneObjects(sceneHandle);
        && sceneDataObjects == old(sceneDataObjects)[sceneHandle := objects]
        && Held() == LoadCache(old(Held()), selectedProfileId, store.settingsFile,
                               StoredGame(store.gameFiles, selectedProfileId), hooks.newSettings, hooks.newGame)
        && store.readLog == old(store.readLog) + LoadReads(old(Held()), selectedProfileId)
        && pushes == old(pushes) + LoadPushes(objects.settingsObjs, objects.gameObjs, settingsData, gameData)
    {
      if disabled {
        return Disabled;
      }
      var dataObjects := hooks.sceneObjects(sceneHandle);
      if sceneHandle in sceneDataObjects {
        return DuplicateHandle;
      }
      sceneDataObjects := sceneDataObjects[sceneHandle := dataObjects];
      Load(dataObjects.settingsObjs, dataObjects.gameObjs);
      return Done;
    }

    /** An unloaded scene's entry is removed when present; every other entry stays. */
    method HandleSceneUnloaded(sceneHandle: int)
      modifies this`sceneDataObjects
      ensures sceneDataObjects == old(sceneDataObjects) - {sceneHandle}
      ensures forall h :: h != sceneHandle && h in old(sceneDataObjects) ==>
                h in sceneDataObjects && sceneDataObjects[h] == old(sceneDataObjects)[h]
    {
      if sceneHandle in sceneDataObjects {
        sceneDataObjects := sceneDataObjects - {sceneHandle};
      }
    }

    /**
     * SaveGame: nothing when disabled; otherwise every held record is written
     * into by the objects of every registered scene, stamped with the time
     * given, and stored (the game record under the selected profile).
     */
    method SaveGame(now: int)
      modifies this`settingsData, this`gameData, store`settingsFile, store`gameFiles
      ensures disabled ==> unchanged(this) && unchanged(store)
      ensures !disabled ==>
        && (exists so, go :: && Collected(sceneDataObjects, so, go)
                            && settingsData == Saved(old(settingsData), so, hooks.settingsWrite, hooks.stampSettings, now)
                            && gameData == Saved(old(gameData), go, hooks.gameWrite, hooks.stampGame, now))
        && store.settingsFile == (if settingsData.Some? then settingsData else old(store.settingsFile))
        && store.gameFiles == (if gameData.Some? then old(store.gameFiles)[selectedProfileId := gameData.value] else old(store.gameFiles))
    {
      if disabled {
        return;
      }
      var settingsObjs, gameObjs := GetAllDataObjs();
      if settingsData.Some? {
        var settings := WriteInto(settingsObjs, settingsData.value, hooks.settingsWrite);
        settingsData := Some(hooks.stampSettings(settings, now));
        store.WriteSettings(settingsData.value);
      }
      if gameData.Some? {
        var game := WriteInto(gameObjs, gameData.value, hooks.gameWrite);
        gameData := Some(hooks.stampGame(game, now));
        store.WriteGame(gameData.value, selectedProfileId);
      }
      assert Collected(sceneDataObjects, settingsObjs, gameObjs);
    }

    /**
     * Saves under the current profile, selects the new one (even when
     * persistence is disabled), and loads for it.
     */
    method ChangeSelectedProfileId(newProfileId: int, now: int)
      modifies this`settingsData, this`gameData, this`loadedProfileId, this`pushes, this`selectedProfileId, store
      ensures selectedProfileId == newProfileId
      ensures disabled ==> settingsData == old(settingsData) && gameData == old(gameData)
                           && loadedProfileId == old(loadedProfileId) && pushes == old(pushes) && unchanged(store)
      ensures !disabled ==>
        && (exists so, go :: && Collected(sceneDataObjects, so, go)
                            && (Held(), Stored(store.settingsFile, store.gameFiles))
                               == Switch(old(Held()), Stored(old(store.settingsFile), old(store.gameFiles)),
                                         old(selectedProfileId), newProfileId, so, go, hooks, now))
        && store.readLog == old(store.readLog) + LoadReads(old(Held()), newProfileId)
        && (exists so, go :: Collected(sceneDataObjects, so, go) && pushes == old(pushes) + LoadPushes(so, go, settingsData, gameData))
    {
      SaveGame(now);
      if disabled {
        selectedProfileId := newProfileId;
        return;
      }
      ghost var so, go :| && Collected(sceneDataObjects, so, go)
                          && settingsData == Saved(old(settingsData), so, hooks.settingsWrite, hooks.stampSettings, now)
                          && gameData == Saved(old(gameData), go, hooks.gameWrite, hooks.stampGame, now);
      assert Held() == SavedCache(old(Held()), so, go, hooks, now);
      selectedProfileId := newProfileId;
      LoadGame();
    }

    /** The record after each of the objects, in order, has written into it (the SaveData loop). */
    static method WriteInto<D>(objs: seq<ObjId>, d: D, write: (ObjId, D) -> D) returns (written: D)
      ensures written == WriteAll(objs, d, write)
    {
      written := d;
      for i := 0 to |objs|
        invariant written == WriteAll(objs[..i], d, write)
      {
        assert objs[..i + 1][..i] == objs[..i];
        written := write(objs[i], written);
      }
      assert objs[..|objs|] == objs;
    }
  }
}

/**
 * backend/services/SceneService.js: holds the current scene (or none) and routes edits to it.
 * Every editing operation fails with NoSceneLoaded when no scene is current; a thrown error
 * is an `Err`/`Fail` result that leaves the state as it was. Emitted events are kept as a log
 * of their names; the payloads are not modelled.
 */
module SceneServices {
  import opened Wrappers
  import opened UnitData
  import opened Graphics
  import opened Scenes

  /** The keys `Object.assign(settings, updates)` can replace; an absent key is `None`. */
  datatype SettingsPatch = SettingsPatch(lod: Option<bool>, camera: Option<Camera>,
    display: Option<Display>)

  /** The keys `Object.assign(time, timeData)` can replace. */
  datatype TimePatch = TimePatch(currentTime: Option<string>, duration: Option<int>,
    isPlaying: Option<bool>, playbackSpeed: Option<real>)

  /** A shallow merge: each supplied key replaces the old value, the others are kept. */
  function PatchedSettings(s: Settings, p: SettingsPatch): (r: Settings)
    ensures r.lodEnabled == (if p.lod.Some? then p.lod.value else s.lodEnabled)
    ensures r.camera == (if p.camera.Some? then p.camera.value else s.camera)
    ensures r.display == (if p.display.Some? then p.display.value else s.display)
  {
    Settings(p.lod.GetOr(s.lodEnabled), p.camera.GetOr(s.camera), p.display.GetOr(s.display))
  }

  function PatchedTime(t: TimeState, p: TimePatch): (r: TimeState)
    ensures r.currentTime == (if p.currentTime.Some? then p.currentTime.value else t.currentTime)
    ensures r.duration == (if p.duration.Some? then p.duration.value else t.duration)
    ensures r.isPlaying == (if p.isPlaying.Some? then p.isPlaying.value else t.isPlaying)
    ensures r.playbackSpeed ==
      (if p.playbackSpeed.Some? then p.playbackSpeed.value else t.playbackSpeed)
  {
    TimeState(p.currentTime.GetOr(t.currentTime), p.duration.GetOr(t.duration),
      p.isPlaying.GetOr(t.isPlaying), p.playbackSpeed.GetOr(t.playbackSpeed))
  }

  /** An empty patch changes nothing, and merging the same patch twice is merging it once. */
  lemma SettingsPatchLaws(s: Settings, p: SettingsPatch)
    ensures PatchedSettings(s, SettingsPatch(None, None, None)) == s
    ensures PatchedSettings(PatchedSettings(s, p), p) == PatchedSettings(s, p)
  {
  }

  lemma TimePatchLaws(t: TimeState, p: TimePatch)
    ensures PatchedTime(t, TimePatch(None, None, None, None)) == t
    ensures PatchedTime(PatchedTime(t, p), p) == PatchedTime(t, p)
  {
  }

  /** Merging two patches in a row equals merging their union, the later one winning. */
  lemma TimePatchCompose(t: TimeState, p: TimePatch, q: TimePatch)
    ensures PatchedTime(PatchedTime(t, p), q) == PatchedTime(t, TimePatch(
      if q.currentTime.Some? then q.currentTime else p.currentTime,
      if q.duration.Some? then q.duration else p.duration,
      if q.isPlaying.Some? then q.isPlaying else p.isPlaying,
      if q.playbackSpeed.Some? then q.playbackSpeed else p.playbackSpeed))
  {
  }

  /** togglePlay's step on the time block. */
  function Toggled(t: TimeState): (r: TimeState)
    ensures r.isPlaying != t.isPlaying
    ensures r.(isPlaying := t.isPlaying) == t
  {
    t.(isPlaying := !t.isPlaying)
  }

  /** Toggling twice restores the original time block. */
  lemma ToggleTwice(t: TimeState)
    ensures Toggled(Toggled(t)) == t
  {
  }

  const SceneCreated := "backend:scene:created"
  const SceneCleared := "backend:scene:cleared"
  const SettingsUpdated := "backend:scene:settings:updated"
  const UnitAdded := "backend:scene:unit:added"
  const UnitRemoved := "backend:scene:unit:removed"
  const UnitUpdated := "backend:scene:unit:updated"
  const GraphicAdded := "backend:scene:graphic:added"
  const GraphicRemoved := "backend:scene:graphic:removed"
  const TimeUpdated := "backend:scene:time:updated"
  const PlaybackToggled := "backend:scene:playback:toggled"
  const SpeedChanged := "backend:scene:playback:speed:changed"

  class SceneService {
    var currentScene: Scene?
    var emitted: seq<string>

    constructor ()
      ensures currentScene == null && emitted == []
    {
      currentScene := null;
      emitted := [];
    }

    /** createScene: a new scene built from `config` becomes current. */
    method CreateScene(config: SceneConfig, freshUuid: string) returns (scene: Scene)
      modifies this
      ensures fresh(scene) && currentScene == scene
      ensures scene.uuid == OrString(config.uuid, freshUuid)
      ensures scene.name == OrString(config.name, "新場景")
      ensures scene.description == OrString(config.description, "")
      ensures scene.version == OrString(config.version, "1.0.0")
      ensures scene.terrain == config.terrain.GetOr(DefaultTerrain)
      ensures scene.author == OrString(config.author, "")
      ensures scene.units == config.units.GetOr(map[])
      ensures scene.graphics == config.graphics.GetOr([])
      ensures scene.settings == config.settings.GetOr(DefaultSettings)
      ensures scene.time == config.time.GetOr(DefaultTime)
      ensures emitted == old(emitted) + [SceneCreated]
    {
      scene := new Scene(config, freshUuid);
      currentScene := scene;
      emitted := emitted + [SceneCreated];
    }

    method ClearScene()
      modifies this
      ensures currentScene == null && emitted == old(emitted) + [SceneCleared]
    {
      currentScene := null;
      emitted := emitted + [SceneCleared];
    }

    method UpdateSettings(p: SettingsPatch) returns (r: Result<Settings>)
      modifies this, currentScene
      ensures currentScene == old(currentScene)
      ensures old(currentScene) == null ==> r == Err(NoSceneLoaded) && emitted == old(emitted)
      ensures old(currentScene) != null ==>
        currentScene.settings == PatchedSettings(old(currentScene.settings), p) &&
        r == Ok(currentScene.settings) && emitted == old(emitted) + [SettingsUpdated]
      ensures currentScene != null ==>
        currentScene.units == old(currentScene.units) &&
        currentScene.graphics == old(currentScene.graphics) &&
        currentScene.time == old(currentScene.time) &&
        currentScene.Header() == old(currentScene.Header())
    {
      if currentScene == null {
        return Err(NoSceneLoaded);
      }
      currentScene.settings := PatchedSettings(currentScene.settings, p);
      emitted := emitted + [SettingsUpdated];
      r := Ok(currentScene.settings);
    }

    /** addUnitToScene: stores the unit under its uuid and hands it back. */
    method AddUnitToScene(unit: UnitRecord) returns (r: Result<UnitRecord>)
      modifies this, currentScene
      ensures currentScene == old(currentScene)
      ensures old(currentScene) == null ==> r == Err(NoSceneLoaded) && emitted == old(emitted)
      ensures old(currentScene) != null ==>
        currentScene.units == old(currentScene.units)[unit.uuid := unit] &&
        r == Ok(unit) && emitted == old(emitted) + [UnitAdded]
      ensures currentScene != null ==>
        currentScene.graphics == old(currentScene.graphics) &&
        currentScene.settings == old(currentScene.settings) &&
        currentScene.time == old(currentScene.time) &&
        currentScene.Header() == old(currentScene.Header())
    {
      if currentScene == null {
        return Err(NoSceneLoaded);
      }
      currentScene.AddUnit(unit);
      emitted := emitted + [UnitAdded];
      r := Ok(unit);
    }

    /** removeUnitFromScene: an absent uuid is no error. */
    method RemoveUnitFromScene(uuid: Id) returns (r: Outcome)
      modifies this, currentScene
      ensures currentScene == old(currentScene)
      ensures old(currentScene) == null ==> r == Fail(NoSceneLoaded) && emitted == old(emitted)
      ensures old(currentScene) != null ==>
        currentScene.units == old(currentScene.units) - {uuid} &&
        r == Pass && emitted == old(emitted) + [UnitRemoved]
      ensures currentScene != null ==>
        currentScene.graphics == old(currentScene.graphics) &&
        currentScene.settings == old(currentScene.settings) &&
        currentScene.time == old(currentScene.time) &&
        currentScene.Header() == old(currentScene.Header())
    {
      if currentScene == null {
        return Fail(NoSceneLoaded);
      }
      currentScene.RemoveUnit(uuid);
      emitted := emitted + [UnitRemoved];
      r := Pass;
    }

    /** updateUnitInScene: the stored unit is patched in place and returned. */
    method UpdateUnitInScene(uuid: Id, updates: seq<PatchKey>) returns (r: Result<UnitRecord>)
      modifies this, currentScene
      ensures currentScene == old(currentScene)
      ensures old(currentScene) == null ==> r == Err(NoSceneLoaded)
      ensures old(currentScene) != null && uuid !in old(currentScene.units) ==>
        r == Err(UnitNotInScene(uuid)) && currentScene.units == old(currentScene.units)
      ensures r.Err? ==> emitted == old(emitted)
      ensures old(currentScene) != null && uuid in old(currentScene.units) ==>
        r == Ok(Updated(old(currentScene.units)[uuid], updates)) &&
        currentScene.units == old(currentScene.units)[uuid := r.value] &&
        emitted == old(emitted) + [UnitUpdated]
      ensures currentScene != null ==>
        currentScene.graphics == old(currentScene.graphics) &&
        currentScene.settings == old(currentScene.settings) &&
        currentScene.time == old(currentScene.time) &&
        currentScene.Header() == old(currentScene.Header())
    {
      if currentScene == null {
        return Err(NoSceneLoaded);
      }
      var found := currentScene.GetUnit(uuid);
      if found.None? {
        return Err(UnitNotInScene(uuid));
      }
      var unit := Updated(found.value, updates);
      currentScene.units := currentScene.units[uuid := unit];
      emitted := emitted + [UnitUpdated];
      r := Ok(unit);
    }

    /** addGraphicToScene: a new graphic built from `graphicData` is appended. */
    method AddGraphicToScene(graphicData: GraphicData, freshUuid: string)
      returns (r: Result<TacticalGraphic>)
      modifies this, currentScene
      ensures currentScene == old(currentScene)
      ensures old(currentScene) == null ==> r == Err(NoSceneLoaded) && emitted == old(emitted)
      ensures old(currentScene) != null ==>
        r.Ok? && fresh(r.value) && r.value.uuid == OrString(graphicData.uuid, freshUuid) &&
        r.value.geometry == InitialGeometry(r.value.graphicType, graphicData) &&
        currentScene.graphics == old(currentScene.graphics) + [r.value] &&
        emitted == old(emitted) + [GraphicAdded]
      ensures currentScene != null ==>
        currentScene.units == old(currentScene.units) &&
        currentScene.settings == old(currentScene.settings) &&
        currentScene.time == old(currentScene.time) &&
        currentScene.Header() == old(currentScene.Header())
    {
      if currentScene == null {
        return Err(NoSceneLoaded);
      }
      var graphic := new TacticalGraphic(graphicData, freshUuid);
      currentScene.AddGraphic(graphic);
      emitted := emitted + [GraphicAdded];
      r := Ok(graphic);
    }

    method RemoveGraphicFromScene(uuid: string) returns (r: Outcome)
      modifies this, currentScene
      ensures currentScene == old(currentScene)
      ensures old(currentScene) == null ==> r == Fail(NoSceneLoaded) && emitted == old(emitted)
      ensures old(currentScene) != null ==>
        currentScene.graphics == WithoutGraphic(old(currentScene.graphics), uuid) &&
        r == Pass && emitted == old(emitted) + [GraphicRemoved]
      ensures currentScene != null ==>
        currentScene.units == old(currentScene.units) &&
        currentScene.settings == old(currentScene.settings) &&
        currentScene.time == old(currentScene.time) &&
        currentScene.Header() == old(currentScene.Header())
    {
      if currentScene == null {
        return Fail(NoSceneLoaded);
      }
      currentScene.RemoveGraphic(uuid);
      emitted := emitted + [GraphicRemoved];
      r := Pass;
    }

    method UpdateTime(p: TimePatch) returns (r: Result<TimeState>)
      modifies this, currentScene
      ensures currentScene == old(currentScene)
      ensures old(currentScene) == null ==> r == Err(NoSceneLoaded) && emitted == old(emitted)
      ensures old(currentScene) != null ==>
        currentScene.time == PatchedTime(old(currentScene.time), p) &&
        r == Ok(currentScene.time) && emitted == old(emitted) + [TimeUpdated]
      ensures currentScene != null ==>
        currentScene.units == old(currentScene.units) &&
        currentScene.graphics == old(currentScene.graphics) &&
        currentScene.settings == old(currentScene.settings) &&
        currentScene.Header() == old(currentScene.Header())
    {
      if currentScene == null {
        return Err(NoSceneLoaded);
      }
      currentScene.time := PatchedTime(currentScene.time, p);
      emitted := emitted + [TimeUpdated];
      r := Ok(currentScene.time);
    }

    /** togglePlay: flips `time.isPlaying` and returns the new value. */
    method TogglePlay() returns (r: Result<bool>)
      modifies this, currentScene
      ensures currentScene == old(currentScene)
      ensures old(currentScene) == null ==> r == Err(NoSceneLoaded) && emitted == old(emitted)
      ensures old(currentScene) != null ==>
        currentScene.time == Toggled(old(currentScene.time)) &&
        r == Ok(currentScene.time.isPlaying) && emitted == old(emitted) + [PlaybackToggled]
      ensures currentScene != null ==>
        currentScene.units == old(currentScene.units) &&
        currentScene.graphics == old(currentScene.graphics) &&
        currentScene.settings == old(currentScene.settings) &&
        currentScene.Header() == old(currentScene.Header())
    {
      if currentScene == null {
        return Err(NoSceneLoaded);
      }
      currentScene.time := Toggled(currentScene.time);
      emitted := emitted + [PlaybackToggled];
      r := Ok(currentScene.time.isPlaying);
    }

    /** setPlaybackSpeed: stores the speed as given and returns it. */
    method SetPlaybackSpeed(speed: real) returns (r: Result<real>)
      modifies this, currentScene
      ensures currentScene == old(currentScene)
      ensures old(currentScene) == null ==> r == Err(NoSceneLoaded) && emitted == old(emitted)
      ensures old(currentScene) != null ==>
        currentScene.time == old(currentScene.time).(playbackSpeed := speed) &&
        r == Ok(speed) && emitted == old(emitted) + [SpeedChanged]
      ensures currentScene != null ==>
        currentScene.units == old(currentScene.units) &&
        currentScene.graphics == old(currentScene.graphics) &&
        currentScene.settings == old(currentScene.settings) &&
        currentScene.Header() == old(currentScene.Header())
    {
      if currentScene == null {
        return Err(NoSceneLoaded);
      }
      currentScene.time := currentScene.time.(playbackSpeed := speed);
      emitted := emitted + [SpeedChanged];
      r := Ok(speed);
    }
  }

  /** Two togglePlay calls on the same scene leave `time` as it was. */
  method ToggleTwiceRestores(service: SceneService) returns (first: Result<bool>, second: Result<bool>)
    requires service.currentScene != null
    modifies service, service.currentScene
    ensures service.currentScene == old(service.currentScene)
    ensures service.currentScene.time == old(service.currentScene.time)
    ensures first.Ok? && second.Ok? && second.value == !first.value
  {
    first := service.TogglePlay();
    second := service.TogglePlay();
    ToggleTwice(old(service.currentScene.time));
  }
}

/**
 * backend/data/Scene.js: a scene holds units keyed by uuid, a list of tactical graphics,
 * and settings and time blocks with defaults. Timestamps are not modelled; a missing uuid
 * is replaced by a constructor parameter.
 */
module Scenes {
  import opened Wrappers
  import opened UnitData
  import opened Graphics

  datatype Terrain = Terrain(kind: string, width: real, height: real,
    minHeight: real, maxHeight: real)

  datatype Camera = Camera(position: Vec3, target: Vec3)

  datatype Display = Display(showGrid: bool, showUnitLabels: bool, showTacticalGraphics: bool)

  /** `settings`, with its three top-level keys. */
  datatype Settings = Settings(lodEnabled: bool, camera: Camera, display: Display)

  /** `time`; the duration is in seconds. */
  datatype TimeState = TimeState(currentTime: string, duration: int, isPlaying: bool,
    playbackSpeed: real)

  const DefaultTerrain := Terrain("flat", 1000.0, 1000.0, 0.0, 0.0)

  const DefaultSettings := Settings(true,
    Camera(Vec3(0.0, 100.0, 200.0), Vec3(0.0, 0.0, 0.0)), Display(true, true, true))

  const DefaultTime := TimeState("2024-01-01T08:00:00", 600, false, 1.0)

  /** The constructor's `data`; a missing key is `None`. */
  datatype SceneConfig = SceneConfig(uuid: Option<string>, name: Option<string>,
    description: Option<string>, version: Option<string>, terrain: Option<Terrain>,
    units: Option<map<Id, UnitRecord>>, graphics: Option<seq<TacticalGraphic>>,
    settings: Option<Settings>, time: Option<TimeState>, author: Option<string>)

  const EmptyConfig := SceneConfig(None, None, None, None, None, None, None, None, None, None)

  /** `graphics.filter(g => g.uuid !== uuid)`. */
  function WithoutGraphic(gs: seq<TacticalGraphic>, uuid: string): (r: seq<TacticalGraphic>)
    ensures forall g | g in r :: g in gs && g.uuid != uuid
    ensures forall g | g in gs && g.uuid != uuid :: g in r
    ensures (forall g | g in gs :: g.uuid != uuid) ==> r == gs
  {
    if gs == [] then []
    else if gs[0].uuid == uuid then WithoutGraphic(gs[1..], uuid)
    else [gs[0]] + WithoutGraphic(gs[1..], uuid)
  }

  /** Filtering distributes over concatenation, so the surviving graphics keep their order. */
  lemma {:induction false} WithoutGraphicAppend(a: seq<TacticalGraphic>, b: seq<TacticalGraphic>,
    uuid: string)
    ensures WithoutGraphic(a + b, uuid) == WithoutGraphic(a, uuid) + WithoutGraphic(b, uuid)
  {
    if a == [] {
      assert a + b == b;
    } else {
      assert (a + b)[1..] == a[1..] + b;
      WithoutGraphicAppend(a[1..], b, uuid);
    }
  }

  /** Values read off a list of present keys are values of the map. */
  lemma ValuesFromKeys(units: map<Id, UnitRecord>, all: seq<UnitRecord>, ks: seq<Id>)
    requires |ks| == |all|
    requires forall i | 0 <= i < |ks| :: ks[i] in units && all[i] == units[ks[i]]
    ensures forall v | v in all :: exists k | k in units :: units[k] == v
  {
    forall v | v in all
      ensures exists k | k in units :: units[k] == v
    {
      var i :| 0 <= i < |all| && all[i] == v;
      assert units[ks[i]] == v;
    }
  }

  class Scene {
    var uuid: string
    var name: string
    var description: string
    var version: string
    var terrain: Terrain
    var units: map<Id, UnitRecord>
    var graphics: seq<TacticalGraphic>
    var settings: Settings
    var time: TimeState
    var author: string

    /** The fields none of the update methods touch. */
    function Header(): (string, string, string, string, Terrain, string)
      reads this
    {
      (uuid, name, description, version, terrain, author)
    }

    /** `freshUuid` stands for generateUUID's time-and-random id. */
    constructor (data: SceneConfig, freshUuid: string)
      ensures uuid == OrString(data.uuid, freshUuid) && name == OrString(data.name, "新場景")
      ensures description == OrString(data.description, "")
      ensures version == OrString(data.version, "1.0.0")
      ensures terrain == data.terrain.GetOr(DefaultTerrain)
      ensures units == data.units.GetOr(map[]) && graphics == data.graphics.GetOr([])
      ensures settings == data.settings.GetOr(DefaultSettings)
      ensures time == data.time.GetOr(DefaultTime)
      ensures author == OrString(data.author, "")
    {
      uuid := OrString(data.uuid, freshUuid);
      name := OrString(data.name, "新場景");
      description := OrString(data.description, "");
      version := OrString(data.version, "1.0.0");
      terrain := data.terrain.GetOr(DefaultTerrain);
      units := data.units.GetOr(map[]);
      graphics := data.graphics.GetOr([]);
      settings := data.settings.GetOr(DefaultSettings);
      time := data.time.GetOr(DefaultTime);
      author := OrString(data.author, "");
    }

    /** addUnit: stored under its own uuid, replacing any unit already there. */
    method AddUnit(unit: UnitRecord)
      modifies this
      ensures units == old(units)[unit.uuid := unit]
      ensures graphics == old(graphics) && settings == old(settings) && time == old(time)
      ensures Header() == old(Header())
    {
      units := units[unit.uuid := unit];
    }

    method RemoveUnit(uuid: Id)
      modifies this
      ensures units == old(units) - {uuid}
      ensures graphics == old(graphics) && settings == old(settings) && time == old(time)
      ensures Header() == old(Header())
    {
      units := units - {uuid};
    }

    /** getUnit; `undefined` is `None`. */
    function GetUnit(uuid: Id): (r: Option<UnitRecord>)
      reads this
      ensures r.Some? <==> uuid in units
      ensures r.Some? ==> r.value == units[uuid]
    {
      if uuid in units then Some(units[uuid]) else None
    }

    /** getAllUnits: one entry per stored key (the order of Object.values is not modelled). */
    method GetAllUnits() returns (all: seq<UnitRecord>)
      ensures |all| == |units|
      ensures forall k | k in units :: units[k] in all
      ensures forall v | v in all :: exists k | k in units :: units[k] == v
    {
      all := [];
      var rest := units.Keys;
      ghost var done: set<Id> := {};
      ghost var ks: seq<Id> := [];
      while rest != {}
        invariant rest !! done && rest + done == units.Keys
        invariant |all| == |done| && |ks| == |all|
        invariant forall i | 0 <= i < |ks| :: ks[i] in units && all[i] == units[ks[i]]
        invariant forall k | k in done :: units[k] in all
        decreases rest
      {
        var k :| k in rest;
        all := all + [units[k]];
        ks := ks + [k];
        rest := rest - {k};
        done := done + {k};
      }
      assert done == units.Keys;
      ValuesFromKeys(units, all, ks);
    }

    method AddGraphic(graphic: TacticalGraphic)
      modifies this
      ensures graphics == old(graphics) + [graphic]
      ensures units == old(units) && settings == old(settings) && time == old(time)
      ensures Header() == old(Header())
    {
      graphics := graphics + [graphic];
    }

    method RemoveGraphic(uuid: string)
      modifies this
      ensures graphics == WithoutGraphic(old(graphics), uuid)
      ensures units == old(units) && settings == old(settings) && time == old(time)
      ensures Header() == old(Header())
    {
      graphics := WithoutGraphic(graphics, uuid);
    }
  }
}

/**
 * frontend/engine/UnitEngine.js: the registry of unit entities, the selection, and the
 * level-of-detail choice of each entity. Meshes, symbols, labels and the scene graph are
 * not modelled; an entity keeps only its selection flag, its current level and the level
 * configuration last applied to it.
 */
module UnitEngines {
  import opened Wrappers
  import opened UnitData

  /** One entry of `Config.lod.levels`. */
  datatype LodLevel = LodLevel(name: string, minDistance: real, showModel: bool,
    showSymbol: bool, symbolSize: int)

  const Strategic := "strategic"
  const Operational := "operational"
  const Tactical := "tactical"
  const Detail := "detail"

  /** frontend/core/Config.js: the levels from the farthest band to the nearest. */
  const ConfigLevels := [
    LodLevel(Strategic, 500.0, false, true, 32),
    LodLevel(Operational, 200.0, false, true, 48),
    LodLevel(Tactical, 50.0, true, true, 32),
    LodLevel(Detail, 0.0, true, true, 24)]

  /** The highest index below `n` whose minimum distance `distance` reaches. */
  function LastReached(levels: seq<LodLevel>, distance: real, n: nat): (r: Option<nat>)
    requires n <= |levels|
    ensures r.Some? ==> r.value < n && distance >= levels[r.value].minDistance
    ensures r.Some? ==> forall j | r.value < j < n :: distance < levels[j].minDistance
    ensures r.None? ==> forall j | 0 <= j < n :: distance < levels[j].minDistance
  {
    if n == 0 then None
    else if distance >= levels[n - 1].minDistance then Some(n - 1)
    else LastReached(levels, distance, n - 1)
  }

  /** UnitEntity.updateLOD's choice as written: scanning from the last level down. */
  function ChooseLevel(distance: real, levels: seq<LodLevel>): (name: string)
    ensures name == Detail || exists i | 0 <= i < |levels| :: name == levels[i].name
  {
    match LastReached(levels, distance, |levels|)
    case None => Detail
    case Some(i) => levels[i].name
  }

  /** With the configured levels the last band starts at 0, so every distance gets 'detail'. */
  lemma ConfigAlwaysDetail(distance: real)
    ensures ChooseLevel(distance, ConfigLevels) == Detail
  {
    if distance >= 0.0 {
      assert LastReached(ConfigLevels, distance, 4) == Some(3);
    } else {
      assert LastReached(ConfigLevels, distance, 4).None?;
    }
  }

  /** The lowest index whose minimum distance `distance` reaches, scanning from far to near. */
  function FirstReached(levels: seq<LodLevel>, distance: real, from: nat): (r: Option<nat>)
    requires from <= |levels|
    ensures r.Some? ==> from <= r.value < |levels| && distance >= levels[r.value].minDistance
    ensures r.Some? ==> forall j | from <= j < r.value :: distance < levels[j].minDistance
    ensures r.None? ==> forall j | from <= j < |levels| :: distance < levels[j].minDistance
    decreases |levels| - from
  {
    if from == |levels| then None
    else if distance >= levels[from].minDistance then Some(from)
    else FirstReached(levels, distance, from + 1)
  }

  /** The far-to-near scan the source's comment describes. */
  function ChooseLevelFarToNear(distance: real, levels: seq<LodLevel>): (name: string)
    ensures name == Detail || exists i | 0 <= i < |levels| :: name == levels[i].name
  {
    match FirstReached(levels, distance, 0)
    case None => Detail
    case Some(i) => levels[i].name
  }

  /** With levels ordered from far to near, the far-to-near scan lands in the band holding
    * `distance`: at or beyond its minimum and short of the previous level's minimum. */
  lemma FarToNearPicksBand(distance: real, levels: seq<LodLevel>)
    requires forall i, j | 0 <= i < j < |levels| :: levels[i].minDistance > levels[j].minDistance
    requires |levels| > 0 && distance >= levels[|levels| - 1].minDistance
    ensures exists i | 0 <= i < |levels| ::
      ChooseLevelFarToNear(distance, levels) == levels[i].name &&
      levels[i].minDistance <= distance &&
      (i == 0 || distance < levels[i - 1].minDistance)
  {
    var r := FirstReached(levels, distance, 0);
    assert r.Some?;
    var i := r.value;
    assert ChooseLevelFarToNear(distance, levels) == levels[i].name;
    assert i == 0 || distance < levels[i - 1].minDistance;
  }

  /** The configured bands under the far-to-near scan. */
  lemma ConfigBands(distance: real)
    ensures distance >= 500.0 ==> ChooseLevelFarToNear(distance, ConfigLevels) == Strategic
    ensures 200.0 <= distance < 500.0 ==>
      ChooseLevelFarToNear(distance, ConfigLevels) == Operational
    ensures 50.0 <= distance < 200.0 ==> ChooseLevelFarToNear(distance, ConfigLevels) == Tactical
    ensures distance < 50.0 ==> ChooseLevelFarToNear(distance, ConfigLevels) == Detail
  {
    var r := FirstReached(ConfigLevels, distance, 0);
    assert ConfigLevels[0].minDistance == 500.0 && ConfigLevels[1].minDistance == 200.0;
    assert ConfigLevels[2].minDistance == 50.0 && ConfigLevels[3].minDistance == 0.0;
    if distance >= 500.0 {
      assert r == Some(0);
    } else if distance >= 200.0 {
      assert r == Some(1);
    } else if distance >= 50.0 {
      assert r == Some(2);
    } else if distance >= 0.0 {
      assert r == Some(3);
    } else {
      assert r.None?;
    }
  }

  /** `levels.find(l => l.name === level)`: the first level with that name. */
  function FirstNamed(levels: seq<LodLevel>, name: string): (r: Option<nat>)
    ensures r.Some? ==> r.value < |levels| && levels[r.value].name == name
    ensures r.Some? ==> forall j | 0 <= j < r.value :: levels[j].name != name
    ensures r.None? ==> forall j | 0 <= j < |levels| :: levels[j].name != name
  {
    if levels == [] then None
    else if levels[0].name == name then Some(0)
    else match FirstNamed(levels[1..], name)
      case None => None
      case Some(i) => Some(i + 1)
  }

  class UnitEntity {
    var selected: bool
    var lodLevel: string
    /** The level configuration applyLOD last copied onto the meshes. */
    var applied: Option<LodLevel>

    constructor ()
      ensures !selected && lodLevel == Detail && applied == None
    {
      selected := false;
      lodLevel := Detail;
      applied := None;
    }

    method SetSelected(b: bool)
      modifies this
      ensures selected == b && lodLevel == old(lodLevel) && applied == old(applied)
    {
      selected := b;
    }

    /** applyLOD: copies the named level's settings; an unknown name does nothing. */
    method ApplyLod(level: string, levels: seq<LodLevel>)
      modifies this
      ensures FirstNamed(levels, level).None? ==> applied == old(applied)
      ensures FirstNamed(levels, level).Some? ==>
        applied == Some(levels[FirstNamed(levels, level).value])
      ensures selected == old(selected) && lodLevel == old(lodLevel)
    {
      var found := FirstNamed(levels, level);
      if found.None? {
        return;
      }
      applied := Some(levels[found.value]);
    }

    /** updateLOD: the downward scan, then applyLOD only when the level changes. */
    method UpdateLod(distance: real, levels: seq<LodLevel>)
      modifies this
      ensures lodLevel == ChooseLevel(distance, levels)
      ensures lodLevel == old(lodLevel) ==> applied == old(applied)
      ensures lodLevel != old(lodLevel) && FirstNamed(levels, lodLevel).Some? ==>
        applied == Some(levels[FirstNamed(levels, lodLevel).value])
      ensures lodLevel != old(lodLevel) && FirstNamed(levels, lodLevel).None? ==>
        applied == old(applied)
      ensures selected == old(selected)
    {
      var newLevel := Detail;
      var i := |levels| - 1;
      while i >= 0
        invariant -1 <= i < |levels|
        invariant forall j | i < j < |levels| :: distance < levels[j].minDistance
        invariant LastReached(levels, distance, i + 1) == LastReached(levels, distance, |levels|)
        decreases i + 1
      {
        if distance >= levels[i].minDistance {
          newLevel := levels[i].name;
          break;
        }
        i := i - 1;
      }
      assert newLevel == ChooseLevel(distance, levels);
      if newLevel != lodLevel {
        lodLevel := newLevel;
        ApplyLod(newLevel, levels);
      }
    }
  }

  /** JavaScript truthiness of `selectedUnitId`: null and the empty string are false. */
  predicate Truthy(id: Option<Id>) {
    id.Some? && id.value != ""
  }

  class UnitEngine {
    var units: map<Id, UnitEntity>
    var selectedUnitId: Option<Id>

    /** Every registered uuid has an entity of its own. */
    ghost predicate Valid()
      reads this
    {
      forall a, b | a in units && b in units && a != b :: units[a] != units[b]
    }

    /** The selection, if any, has a truthy id, and at most the selected unit is highlighted. */
    ghost predicate HighlightMatches()
      reads this, units.Values
    {
      selectedUnitId != Some("") &&
      forall k | k in units && units[k].selected :: selectedUnitId == Some(k) && k != ""
    }

    constructor ()
      ensures Valid() && HighlightMatches() && units == map[] && selectedUnitId == None
    {
      units := map[];
      selectedUnitId := None;
    }

    /** addUnit: an existing uuid returns its entity; otherwise a new entity is registered. */
    method AddUnit(uuid: Id) returns (entity: UnitEntity)
      requires Valid()
      modifies this
      ensures Valid() && selectedUnitId == old(selectedUnitId)
      ensures uuid in old(units) ==> entity == old(units[uuid]) && units == old(units)
      ensures uuid !in old(units) ==>
        fresh(entity) && units == old(units)[uuid := entity] && !entity.selected
      ensures old(HighlightMatches()) ==> HighlightMatches()
    {
      if uuid in units {
        return units[uuid];
      }
      entity := new UnitEntity();
      units := units[uuid := entity];
    }

    /** selectUnit: the previous unit is un-highlighted first; an unknown uuid selects
      * nothing new and leaves `selectedUnitId` as it was. */
    method SelectUnit(uuid: Id)
      requires Valid()
      modifies this, units.Values
      ensures Valid() && units == old(units)
      ensures uuid in units ==> selectedUnitId == Some(uuid) && units[uuid].selected
      ensures uuid !in units ==> selectedUnitId == old(selectedUnitId)
      ensures forall k | k in units && k != uuid ::
        units[k].selected ==
          (old(units[k].selected) && !(Truthy(old(selectedUnitId)) && old(selectedUnitId) == Some(k)))
      ensures forall k | k in units ::
        units[k].lodLevel == old(units[k].lodLevel) && units[k].applied == old(units[k].applied)
      ensures old(HighlightMatches()) && uuid != "" ==> HighlightMatches()
    {
      if Truthy(selectedUnitId) && selectedUnitId.value in units {
        units[selectedUnitId.value].SetSelected(false);
      }
      if uuid in units {
        units[uuid].SetSelected(true);
        selectedUnitId := Some(uuid);
      }
    }

    /** deselectUnit: a truthy selection is cleared and its unit un-highlighted. */
    method DeselectUnit()
      requires Valid()
      modifies this, units.Values
      ensures Valid() && units == old(units)
      ensures selectedUnitId == (if Truthy(old(selectedUnitId)) then None else old(selectedUnitId))
      ensures forall k | k in units ::
        units[k].selected ==
          (old(units[k].selected) && !(Truthy(old(selectedUnitId)) && old(selectedUnitId) == Some(k)))
      ensures forall k | k in units ::
        units[k].lodLevel == old(units[k].lodLevel) && units[k].applied == old(units[k].applied)
      ensures old(HighlightMatches()) ==> HighlightMatches() && selectedUnitId == None
    {
      if Truthy(selectedUnitId) {
        if selectedUnitId.value in units {
          units[selectedUnitId.value].SetSelected(false);
        }
        selectedUnitId := None;
      }
    }

    /** removeUnit: an unknown uuid changes nothing; removing the selected unit deselects. */
    method RemoveUnit(uuid: Id)
      requires Valid()
      modifies this, units.Values
      ensures Valid() && units == old(units) - {uuid}
      ensures uuid !in old(units) ==> selectedUnitId == old(selectedUnitId)
      ensures uuid in old(units) && old(selectedUnitId) == Some(uuid) && uuid != "" ==>
        selectedUnitId == None
      ensures old(selectedUnitId) != Some(uuid) ==> selectedUnitId == old(selectedUnitId)
      ensures forall k | k in units ::
        units[k].selected == old(units[k].selected) &&
        units[k].lodLevel == old(units[k].lodLevel) && units[k].applied == old(units[k].applied)
      ensures old(HighlightMatches()) ==> HighlightMatches()
    {
      if uuid !in units {
        return;
      }
      units := units - {uuid};
      if selectedUnitId == Some(uuid) {
        DeselectUnit();
      }
    }

    /** clear: no unit registered and nothing selected. */
    method Clear()
      modifies this
      ensures Valid() && HighlightMatches() && units == map[] && selectedUnitId == None
    {
      units := map[];
      selectedUnitId := None;
    }

    function GetUnit(uuid: Id): (r: Option<UnitEntity>)
      reads this
      ensures r.Some? <==> uuid in units
      ensures r.Some? ==> r.value == units[uuid]
    {
      if uuid in units then Some(units[uuid]) else None
    }

    function GetUnitCount(): (n: nat)
      reads this
      ensures n == |units.Keys|
    {
      |units|
    }
  }
}

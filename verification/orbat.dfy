/**
 * backend/services/ORBATService.js: the service object. Its fields change in place, step by
 * step as in the source; each method is proved to leave the state that the matching function
 * of module OrbatForest computes from the old state, and the events it emits are logged.
 */
module Orbat {
  import opened Wrappers
  import opened Seqs
  import opened UnitData
  import opened OrbatForest
  import opened OrbatRemoval
  import opened OrbatProperties

  /** What the service emits on its event bus. */
  datatype OrbatEvent =
    | UnitAdded(unit: UnitRecord)                                   // backend:unit:added
    | UnitUpdated(uuid: Id, updates: seq<PatchKey>)                 // backend:unit:updated
    | UnitRemoved(uuid: Id)                                         // backend:unit:removed
    | UnitMoved(uuid: Id, oldParentId: Option<Id>, newParentId: Option<Id>) // backend:unit:moved
    | OrbatCleared                                                  // backend:orbat:cleared

  datatype Stats = Stats(total: nat, byLevel: map<string, nat>, byBranch: map<string, nat>)

  function AddedEvents(us: seq<UnitRecord>): (r: seq<OrbatEvent>)
    ensures |r| == |us| && forall i | 0 <= i < |us| :: r[i] == UnitAdded(us[i])
  {
    if us == [] then [] else AddedEvents(us[..|us| - 1]) + [UnitAdded(us[|us| - 1])]
  }

  /** The records addUnits builds, one per input, in input order. */
  function NewRecords(ds: seq<UnitInput>, ids: seq<Id>): (r: seq<UnitRecord>)
    requires |ids| == |ds|
    ensures |r| == |ds|
  {
    if ds == [] then []
    else NewRecords(ds[..|ds| - 1], ids[..|ids| - 1]) + [NewRecord(ds[|ds| - 1], ids[|ids| - 1])]
  }

  /** The i-th record is built from the i-th input and the i-th fresh id. */
  lemma {:induction false} NewRecordsAt(ds: seq<UnitInput>, ids: seq<Id>, i: nat)
    requires |ids| == |ds| && i < |ds|
    ensures NewRecords(ds, ids)[i] == NewRecord(ds[i], ids[i])
  {
    if i < |ds| - 1 {
      NewRecordsAt(ds[..|ds| - 1], ids[..|ids| - 1], i);
    }
  }

  lemma NewRecordsSnoc(ds: seq<UnitInput>, ids: seq<Id>, i: nat)
    requires |ids| == |ds| && i < |ds|
    ensures NewRecords(ds[..i + 1], ids[..i + 1])
      == NewRecords(ds[..i], ids[..i]) + [NewRecord(ds[i], ids[i])]
  {
    assert ds[..i + 1][..i] == ds[..i] && ids[..i + 1][..i] == ids[..i];
  }

  lemma AddAllSnoc(f: Forest, us: seq<UnitRecord>, u: UnitRecord)
    ensures AddAllFn(f, us + [u]) == AddFn(AddAllFn(f, us), u)
    ensures AddedEvents(us + [u]) == AddedEvents(us) + [UnitAdded(u)]
  {
    assert (us + [u])[..|us|] == us;
  }

  class OrbatService {
    var units: map<Id, UnitRecord>
    var rootUnits: seq<Id>
    /** The Map's insertion order, which `Array.from(this.units.values())` follows. */
    var order: seq<Id>
    var events: seq<OrbatEvent>

    function State(): Forest
      reads this
    {
      Forest(units, rootUnits, order)
    }

    /** The Map's key order matches its keys, and each unit is stored under its uuid. */
    ghost predicate Valid()
      reads this
    {
      Indexed(State())
    }

    constructor ()
      ensures Valid()
      ensures State() == Empty && events == []
    {
      units := map[];
      rootUnits := [];
      order := [];
      events := [];
    }

    method AddUnit(data: UnitInput, freshId: Id) returns (unit: UnitRecord)
      requires Valid()
      modifies this
      ensures Valid()
      ensures unit == NewRecord(data, freshId)
      ensures State() == AddFn(old(State()), unit)
      ensures events == old(events) + [UnitAdded(unit)]
    {
      unit := NewRecord(data, freshId);
      if unit.uuid !in units {
        order := order + [unit.uuid];
      }
      units := units[unit.uuid := unit];
      Hook(unit.uuid, OrNull(unit.parentId));
      events := events + [UnitAdded(unit)];
      AddIndexed(old(State()), unit);
    }

    method UpdateUnit(uuid: Id, updates: seq<PatchKey>) returns (r: Result<UnitRecord>)
      requires Valid()
      modifies this
      ensures Valid()
      ensures uuid !in old(units) ==> r == Err(UnitNotFound(uuid)) && unchanged(this)
      ensures uuid in old(units) ==>
        && r == Ok(Updated(old(units)[uuid], updates))
        && State() == UpdateFn(old(State()), uuid, updates)
        && events == old(events) + [UnitUpdated(uuid, updates)]
    {
      if uuid !in units {
        return Err(UnitNotFound(uuid));
      }
      ghost var f := State();
      var unit := Updated(units[uuid], updates);
      UpdateStep(f, uuid, updates, unit);
      units := units[uuid := unit];
      assert State() == UpdateFn(f, uuid, updates);
      events := events + [UnitUpdated(uuid, updates)];
      r := Ok(unit);
    }

    /**
     * `rank` witnesses that no cycle is reachable from `uuid` (elsewhere there may be one);
     * it is not part of the state.
     */
    method RemoveUnit(uuid: Id, ghost rank: map<Id, nat>) returns (r: Outcome)
      requires Valid()
      requires RankedPart(units, rank) && (uuid in units ==> uuid in rank)
      modifies this
      ensures Valid()
      ensures uuid !in old(units) ==> r == Fail(UnitNotFound(uuid)) && unchanged(this)
      ensures uuid in old(units) ==>
        && r == Pass
        && State() == RemoveRec(old(State()), uuid, rank)
        && events == old(events) + [UnitRemoved(uuid)]
    {
      if uuid !in units {
        return Fail(UnitNotFound(uuid));
      }
      RemoveRecursive(uuid, rank);
      events := events + [UnitRemoved(uuid)];
      RemoveIndexed(old(State()), uuid, rank);
      r := Pass;
    }

    /** _removeUnitRecursive: children first, then unlink from the parent, then delete. */
    method RemoveRecursive(uuid: Id, ghost rank: map<Id, nat>)
      requires RankedPart(units, rank) && (uuid in units ==> uuid in rank)
      modifies this
      ensures State() == RemoveRec(old(State()), uuid, rank)
      ensures events == old(events)
      decreases if uuid in units then rank[uuid] else 0, 1
    {
      if uuid !in units {
        return;
      }
      var unit := units[uuid];
      RemoveEach(unit.children, rank, rank[uuid]);
      Detach(uuid, unit.parentId);
      units := units - {uuid};
      order := Without(order, uuid);
    }

    /**
     * `for (const childId of unit.children) this._removeUnitRecursive(childId)`; a child
     * missing from the Map is skipped, as its call returns at once.
     */
    method RemoveEach(cs: seq<Id>, ghost rank: map<Id, nat>, ghost bound: nat)
      requires RankedPart(units, rank)
      requires forall c | c in cs && c in units :: c in rank && rank[c] < bound
      modifies this
      ensures State() == RemoveChildren(old(State()), cs, 0, rank, bound)
      ensures events == old(events)
      decreases bound, 0
    {
      ghost var f0 := State();
      var i := 0;
      while i < |cs|
        invariant 0 <= i <= |cs|
        invariant RankedPart(units, rank)
        invariant units.Keys <= f0.units.Keys
        invariant RemoveChildren(State(), cs, i, rank, bound)
          == RemoveChildren(f0, cs, 0, rank, bound)
        invariant events == old(events)
      {
        ghost var s := State();
        if cs[i] in units {
          RemoveRecursive(cs[i], rank);
        }
        assert RemoveChildren(s, cs, i, rank, bound)
          == RemoveChildren(State(), cs, i + 1, rank, bound);
        i := i + 1;
      }
    }

    /** Take `uuid` out of its parent's children, or out of rootUnits when it has no parent. */
    method Detach(uuid: Id, parentId: Option<Id>)
      modifies this
      ensures State() == Unlink(old(State()), uuid, parentId)
      ensures events == old(events)
    {
      if parentId.Some? && parentId.value != "" {
        var p := parentId.value;
        if p in units {
          units := units[p := units[p].(children := Without(units[p].children, uuid))];
        }
      } else {
        rootUnits := Without(rootUnits, uuid);
      }
    }

    /**
     * `if (parentId) { parent.children.push(uuid) unless listed } else { rootUnits.push(uuid)
     * unless listed }`, as addUnit and moveUnit both do; `target` is the truthy parent id.
     */
    method Hook(uuid: Id, target: Option<Id>)
      modifies this
      ensures State() == Attach(old(State()), uuid, target)
      ensures events == old(events)
    {
      if target.Some? {
        var q := target.value;
        if q in units && uuid !in units[q].children {
          units := units[q := units[q].(children := units[q].children + [uuid])];
        }
      } else if uuid !in rootUnits {
        rootUnits := rootUnits + [uuid];
      }
    }

    function GetUnit(uuid: Id): (r: Option<UnitRecord>)
      reads this
      ensures r.Some? <==> uuid in units
      ensures r.Some? ==> r.value == units[uuid]
    {
      if uuid in units then Some(units[uuid]) else None
    }

    /** The units in the Map's insertion order: each stored unit exactly once. */
    function GetAllUnits(): (r: seq<UnitRecord>)
      reads this
      requires Valid()
      ensures |r| == |order|
      ensures forall i | 0 <= i < |r| :: r[i] == units[order[i]]
    {
      ValuesOf(units, order)
    }

    /** `rank` witnesses that no cycle is reachable from a root; it is not part of the state. */
    function GetTree(ghost rank: map<Id, nat>): (r: seq<TreeNode>)
      reads this
      requires RankedPart(units, rank) && forall x | x in rootUnits && x in units :: x in rank
      ensures |r| == |PresentIds(units, rootUnits)|
      ensures forall i | 0 <= i < |r| ::
        r[i] == BuildNode(units, PresentIds(units, rootUnits)[i], rank).value
      ensures KeyedByUuid(units) ==> UuidsOf(r) == PresentIds(units, rootUnits)
    {
      BuildRootsEach(units, rootUnits, rank);
      BuildRoots(units, rootUnits, rank)
    }

    method MoveUnit(uuid: Id, newParentId: Option<Id>) returns (r: Outcome)
      requires Valid()
      modifies this
      ensures Valid()
      ensures uuid !in old(units) ==> r == Fail(UnitNotFound(uuid)) && unchanged(this)
      ensures uuid in old(units) ==>
        && r == Pass
        && State() == MoveFn(old(State()), uuid, newParentId)
        && events == old(events) + [UnitMoved(uuid, old(units)[uuid].parentId, newParentId)]
    {
      if uuid !in units {
        return Fail(UnitNotFound(uuid));
      }
      var oldParentId := units[uuid].parentId;
      Detach(uuid, oldParentId);
      units := units[uuid := units[uuid].(parentId := OrNull(newParentId))];
      Hook(uuid, OrNull(newParentId));
      events := events + [UnitMoved(uuid, oldParentId, newParentId)];
      MoveIndexed(old(State()), uuid, newParentId);
      r := Pass;
    }

    /** addUnits: `freshIds[i]` is the id generateUUID would give the i-th unit. */
    method AddUnits(unitsData: seq<UnitInput>, freshIds: seq<Id>) returns (added: seq<UnitRecord>)
      requires |freshIds| == |unitsData|
      requires Valid()
      modifies this
      ensures Valid()
      ensures added == NewRecords(unitsData, freshIds)
      ensures State() == AddAllFn(old(State()), added)
      ensures events == old(events) + AddedEvents(added)
    {
      added := [];
      var i := 0;
      while i < |unitsData|
        invariant 0 <= i <= |unitsData|
        invariant Valid()
        invariant added == NewRecords(unitsData[..i], freshIds[..i])
        invariant State() == AddAllFn(old(State()), added)
        invariant events == old(events) + AddedEvents(added)
      {
        var unit := AddUnit(unitsData[i], freshIds[i]);
        NewRecordsSnoc(unitsData, freshIds, i);
        AddAllSnoc(old(State()), added, unit);
        AppendAssoc(old(events), AddedEvents(added), [UnitAdded(unit)]);
        added := added + [unit];
        i := i + 1;
      }
      assert unitsData[..i] == unitsData && freshIds[..i] == freshIds;
    }

    method Clear()
      modifies this
      ensures Valid()
      ensures State() == Empty
      ensures events == old(events) + [OrbatCleared]
    {
      units := map[];
      rootUnits := [];
      order := [];
      events := events + [OrbatCleared];
    }

    method GetStats() returns (s: Stats)
      requires Valid()
      ensures s.total == |order|
      ensures s.byLevel == Tally(Levels(GetAllUnits()))
      ensures s.byBranch == Tally(Branches(GetAllUnits()))
    {
      var all := GetAllUnits();
      var byLevel := CountBy(Levels(all));
      var byBranch := CountBy(Branches(all));
      s := Stats(|all|, byLevel, byBranch);
    }
  }

  /** The loop of _countByLevel / _countByBranch over the units' level or branch. */
  method CountBy(keys: seq<string>) returns (stats: map<string, nat>)
    ensures stats == Tally(keys)
  {
    stats := map[];
    var i := 0;
    while i < |keys|
      invariant 0 <= i <= |keys|
      invariant stats == Tally(keys[..i])
    {
      var k := keys[i];
      assert keys[..i + 1][..i] == keys[..i];
      stats := stats[k := (if k in stats then stats[k] else 0) + 1];
      i := i + 1;
    }
    assert keys[..|keys|] == keys;
  }
}

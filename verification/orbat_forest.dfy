/**
 * The state of backend/services/ORBATService.js as a value, and the effect of each of its
 * operations on that value.
 *
 * `units` is the id-indexed Map, `order` the Map's insertion order (what getAllUnits walks),
 * `roots` the `rootUnits` array. Every operation is written here as a function of the old
 * state; the class in module Orbat performs the same steps in place and is proved equal.
 */
module OrbatForest {
  import opened Wrappers
  import opened Seqs
  import opened UnitData

  datatype Forest = Forest(units: map<Id, UnitRecord>, roots: seq<Id>, order: seq<Id>)

  const Empty := Forest(map[], [], [])

  /** `if (unit.parentId)`: a parent id that JavaScript treats as present. */
  predicate Attached(u: UnitRecord) {
    u.parentId.Some? && u.parentId.value != ""
  }

  /** `u.parentId` names `k` and is truthy. */
  predicate AttachedTo(u: UnitRecord, k: Id) {
    Attached(u) && u.parentId.value == k
  }

  // ---------- invariants ----------

  /** The Map's key list matches its keys, and every unit is stored under its own uuid. */
  ghost predicate Indexed(f: Forest) {
    && NoDup(f.order)
    && (forall k :: k in f.units <==> k in f.order)
    && KeyedByUuid(f.units)
  }

  /**
   * The forest invariant the service is meant to keep: parent and child links agree in both
   * directions, lists have no duplicates, and every unit is in exactly one place (the root
   * list or its parent's children).
   */
  ghost predicate Wellformed(f: Forest) {
    Indexed(f) && RootsExact(f) && ParentsListed(f) && ChildrenBack(f)
  }

  /** rootUnits lists, once each, exactly the present units without a truthy parentId. */
  ghost predicate RootsExact(f: Forest) {
    && NoDup(f.roots)
    && (forall r | r in f.roots :: r in f.units && !Attached(f.units[r]))
    && (forall k | k in f.units && !Attached(f.units[k]) :: k in f.roots)
  }

  /** A unit that names a parent names a present one (by a truthy id) and is among its children. */
  ghost predicate ParentsListed(f: Forest) {
    && (forall k | k in f.units && f.units[k].parentId.Some? :: Attached(f.units[k]))
    && (forall k | k in f.units && Attached(f.units[k]) ::
          f.units[k].parentId.value in f.units &&
          k in f.units[f.units[k].parentId.value].children)
  }

  /** Every listed child is present and names the lister as its parent; no child twice. */
  ghost predicate ChildrenBack(f: Forest) {
    && (forall k, c | k in f.units && c in f.units[k].children ::
          c in f.units && AttachedTo(f.units[c], k))
    && (forall k | k in f.units :: NoDup(f.units[k].children))
  }

  /**
   * `rank` covers a part of the Map that holds every present child of its members, each
   * ranked strictly below its parent: no cycle is reachable from a ranked unit. Units outside
   * the part, cycles among them included, are not constrained.
   */
  ghost predicate RankedPart(units: map<Id, UnitRecord>, rank: map<Id, nat>) {
    forall k, c | k in rank && k in units && c in units[k].children && c in units ::
      c in rank && rank[c] < rank[k]
  }

  /** Every unit is ranked, and every present child strictly below its parent. */
  ghost predicate Ranked(units: map<Id, UnitRecord>, rank: map<Id, nat>) {
    && (forall k | k in units :: k in rank)
    && RankedPart(units, rank)
  }

  /** The children links contain no cycle, so the recursive walks of the source terminate. */
  ghost predicate Acyclic(units: map<Id, UnitRecord>) {
    exists rank :: Ranked(units, rank)
  }

  /** `S` contains every present child of each of its members. */
  ghost predicate Closed(units: map<Id, UnitRecord>, S: set<Id>) {
    forall x, y | x in S && x in units && y in units[x].children && y in units :: y in S
  }

  // ---------- filters used by removal ----------

  /** `children.filter(id => id !== x)` for every removed `x` whose parent is `k`. */
  function Drop(cs: seq<Id>, D: set<Id>, units: map<Id, UnitRecord>, k: Id): (r: seq<Id>)
  {
    if cs == [] then []
    else
      var rest := Drop(cs[1..], D, units, k);
      if cs[0] in D && cs[0] in units && AttachedTo(units[cs[0]], k) then rest else [cs[0]] + rest
  }

  /** `rootUnits.filter(id => id !== x)` for every removed parentless `x`. */
  function DropRoots(rs: seq<Id>, D: set<Id>, units: map<Id, UnitRecord>): (r: seq<Id>)
  {
    if rs == [] then []
    else
      var rest := DropRoots(rs[1..], D, units);
      if rs[0] in D && rs[0] in units && !Attached(units[rs[0]]) then rest else [rs[0]] + rest
  }

  /** The Map's key order after deleting every key of `D`. */
  function Keep(ks: seq<Id>, D: set<Id>): (r: seq<Id>)
  {
    if ks == [] then [] else if ks[0] in D then Keep(ks[1..], D) else [ks[0]] + Keep(ks[1..], D)
  }

  /**
   * `g` is `f` with exactly the units of `D` deleted: each survivor lost from its children
   * the removed units that named it as parent, the root list lost the removed parentless
   * units, and the key order lost the removed keys.
   */
  ghost predicate RemovedExactly(f: Forest, g: Forest, D: set<Id>) {
    && D <= f.units.Keys
    && g.units.Keys == f.units.Keys - D
    && (forall k | k in g.units ::
          g.units[k] == f.units[k].(children := Drop(f.units[k].children, D, f.units, k)))
    && g.roots == DropRoots(f.roots, D, f.units)
    && g.order == Keep(f.order, D)
  }

  // ---------- the operations ----------

  /**
   * The hook-up step addUnit and moveUnit share: with a truthy target that is present, append
   * `id` to its children unless already there; with none, append `id` to rootUnits unless
   * already there; with a target that is missing, do nothing.
   */
  function Attach(f: Forest, id: Id, target: Option<Id>): (g: Forest)
    ensures g.units.Keys == f.units.Keys && g.order == f.order
  {
    if target.Some? then
      var q := target.value;
      if q in f.units && id !in f.units[q].children then
        f.(units := f.units[q := f.units[q].(children := f.units[q].children + [id])])
      else f
    else
      f.(roots := PushNew(f.roots, id))
  }

  /** addUnit: store the new unit, then hook it under its parent or into the root list. */
  function AddFn(f: Forest, u: UnitRecord): (g: Forest)
    ensures g.units.Keys == f.units.Keys + {u.uuid}
    ensures g.order == if u.uuid in f.units then f.order else f.order + [u.uuid]
    // the new record is stored as given, except that it may be listed as its own child
    ensures g.units[u.uuid] == u.(children := g.units[u.uuid].children)
    ensures forall k | k in f.units && k != u.uuid ::
      g.units[k] == f.units[k].(children := g.units[k].children)
  {
    var order := if u.uuid in f.units then f.order else f.order + [u.uuid];
    Attach(Forest(f.units[u.uuid := u], f.roots, order), u.uuid, OrNull(u.parentId))
  }

  /** addUnits: addUnit for each record in turn. */
  function AddAllFn(f: Forest, us: seq<UnitRecord>): (g: Forest)
    ensures g.units.Keys == f.units.Keys + (set u | u in us :: u.uuid)
  {
    if us == [] then f else AddFn(AddAllFn(f, us[..|us| - 1]), us[|us| - 1])
  }

  /** updateUnit on a present unit. */
  function UpdateFn(f: Forest, id: Id, ks: seq<PatchKey>): (g: Forest)
    requires id in f.units
    ensures g.units.Keys == f.units.Keys && g.roots == f.roots && g.order == f.order
    ensures g.units[id] == Updated(f.units[id], ks)
    // the links are kept
    ensures g.units[id].parentId == f.units[id].parentId
    ensures g.units[id].children == f.units[id].children
    ensures forall k | k in f.units && k != id :: g.units[k] == f.units[k]
  {
    f.(units := f.units[id := Updated(f.units[id], ks)])
  }

  /** Take `id` out of the children of `parent`, or out of the root list when it has none. */
  function Unlink(f: Forest, id: Id, parent: Option<Id>): (g: Forest)
    ensures g.units.Keys == f.units.Keys && g.order == f.order
  {
    if parent.Some? && parent.value != "" then
      var p := parent.value;
      if p in f.units then
        f.(units := f.units[p := f.units[p].(children := Without(f.units[p].children, id))])
      else f
    else
      f.(roots := Without(f.roots, id))
  }

  /** moveUnit on a present unit; `newParent` is the argument, `None` for null/undefined. */
  function MoveFn(f: Forest, id: Id, newParent: Option<Id>): (g: Forest)
    requires id in f.units
    ensures g.units.Keys == f.units.Keys && g.order == f.order
  {
    var f1 := Unlink(f, id, f.units[id].parentId);
    Attach(Reparent(f1, id, OrNull(newParent)), id, OrNull(newParent))
  }

  /** `unit.parentId = newParentId || null`. */
  function Reparent(f: Forest, id: Id, target: Option<Id>): (g: Forest)
    requires id in f.units
    ensures g.units.Keys == f.units.Keys && g.roots == f.roots && g.order == f.order
    ensures g.units[id] == f.units[id].(parentId := target)
    ensures forall k | k in f.units && k != id :: g.units[k] == f.units[k]
  {
    f.(units := f.units[id := f.units[id].(parentId := target)])
  }

  /** _removeUnitRecursive(id): children first, then unlink from the parent, then delete. */
  ghost function RemoveRec(f: Forest, id: Id, rank: map<Id, nat>): (g: Forest)
    requires RankedPart(f.units, rank) && (id in f.units ==> id in rank)
    ensures RankedPart(g.units, rank)
    ensures g.units.Keys <= f.units.Keys
    decreases if id in f.units then rank[id] else 0, 1
  {
    if id !in f.units then f
    else
      var u := f.units[id];
      var f1 := RemoveChildren(f, u.children, 0, rank, rank[id]);
      var f2 := Unlink(f1, id, u.parentId);
      f2.(units := f2.units - {id}, order := Without(f2.order, id))
  }

  /** The `for (const childId of unit.children)` loop, from position `i` on. */
  ghost function RemoveChildren(f: Forest, cs: seq<Id>, i: nat, rank: map<Id, nat>, bound: nat)
    : (g: Forest)
    requires RankedPart(f.units, rank)
    requires i <= |cs|
    requires forall c | c in cs && c in f.units :: c in rank && rank[c] < bound
    ensures RankedPart(g.units, rank)
    ensures g.units.Keys <= f.units.Keys
    decreases bound, 0, |cs| - i
  {
    if i == |cs| then f
    else
      var f1 := if cs[i] in f.units then RemoveRec(f, cs[i], rank) else f;
      RemoveChildren(f1, cs, i + 1, rank, bound)
  }

  /** The Map's values in insertion order (getAllUnits). */
  function ValuesOf(units: map<Id, UnitRecord>, ks: seq<Id>): (r: seq<UnitRecord>)
    requires forall k | k in ks :: k in units
    ensures |r| == |ks|
    ensures forall i | 0 <= i < |ks| :: r[i] == units[ks[i]]
  {
    if ks == [] then [] else [units[ks[0]]] + ValuesOf(units, ks[1..])
  }

  // ---------- the tree projection ----------

  /** A node of getTree's result. */
  datatype TreeNode = TreeNode(uuid: Id, name: string, sidc: string, level: string,
    children: seq<TreeNode>)

  /** Every unit is stored under its own uuid, as `units.set(unit.uuid, unit)` does. */
  predicate KeyedByUuid(units: map<Id, UnitRecord>) {
    forall k | k in units :: units[k].uuid == k
  }

  /** The ids of a list, kept only where they are in the Map. */
  function PresentIds(units: map<Id, UnitRecord>, ids: seq<Id>): (r: seq<Id>)
    ensures forall x :: x in r <==> x in ids && x in units
    ensures |r| <= |ids|
  {
    if ids == [] then []
    else if ids[0] in units then [ids[0]] + PresentIds(units, ids[1..])
    else PresentIds(units, ids[1..])
  }

  function UuidsOf(ns: seq<TreeNode>): (r: seq<Id>)
    ensures |r| == |ns| && forall i | 0 <= i < |ns| :: r[i] == ns[i].uuid
  {
    if ns == [] then [] else [ns[0].uuid] + UuidsOf(ns[1..])
  }

  /** buildNode(uuid): null for a missing id, otherwise the node with its built children. */
  function BuildNode(units: map<Id, UnitRecord>, id: Id, ghost rank: map<Id, nat>)
    : (r: Option<TreeNode>)
    requires RankedPart(units, rank) && (id in units ==> id in rank)
    ensures r.Some? <==> id in units
    ensures r.Some? ==>
      (r.value.uuid == units[id].uuid && r.value.name == units[id].name &&
       r.value.sidc == units[id].sidc && r.value.level == units[id].level &&
       (KeyedByUuid(units) ==> UuidsOf(r.value.children) == PresentIds(units, units[id].children)))
    decreases if id in units then rank[id] else 0, 1
  {
    if id !in units then None
    else
      var u := units[id];
      Some(TreeNode(u.uuid, u.name, u.sidc, u.level,
        BuildChildren(units, u.children, rank, rank[id])))
  }

  /** `children.map(buildNode).filter(n => n !== null)`. */
  function BuildChildren(units: map<Id, UnitRecord>, cs: seq<Id>, ghost rank: map<Id, nat>,
      ghost bound: nat): (r: seq<TreeNode>)
    requires RankedPart(units, rank)
    requires forall c | c in cs && c in units :: c in rank && rank[c] < bound
    ensures |r| == |PresentIds(units, cs)|
    ensures KeyedByUuid(units) ==> UuidsOf(r) == PresentIds(units, cs)
    decreases bound, 0, |cs|
  {
    if cs == [] then []
    else
      var rest := BuildChildren(units, cs[1..], rank, bound);
      if cs[0] in units then [BuildNode(units, cs[0], rank).value] + rest else rest
  }

  /** `rootUnits.map(buildNode).filter(n => n !== null)`. */
  function BuildRoots(units: map<Id, UnitRecord>, rs: seq<Id>, ghost rank: map<Id, nat>)
    : (r: seq<TreeNode>)
    requires RankedPart(units, rank) && forall x | x in rs && x in units :: x in rank
    ensures |r| == |PresentIds(units, rs)|
    ensures KeyedByUuid(units) ==> UuidsOf(r) == PresentIds(units, rs)
  {
    if rs == [] then []
    else
      var rest := BuildRoots(units, rs[1..], rank);
      if rs[0] in units then [BuildNode(units, rs[0], rank).value] + rest else rest
  }

  /** A children list is built node by node exactly as the root list is. */
  lemma {:induction false} ChildrenBuiltAsRoots(units: map<Id, UnitRecord>, cs: seq<Id>,
      rank: map<Id, nat>, bound: nat)
    requires RankedPart(units, rank)
    requires forall c | c in cs && c in units :: c in rank && rank[c] < bound
    ensures BuildChildren(units, cs, rank, bound) == BuildRoots(units, cs, rank)
    decreases |cs|
  {
    if cs != [] {
      ChildrenBuiltAsRoots(units, cs[1..], rank, bound);
    }
  }

  /** Node `i` of the built children is the tree built for the `i`-th present child id. */
  lemma BuildChildrenAt(units: map<Id, UnitRecord>, cs: seq<Id>,
      rank: map<Id, nat>, bound: nat, i: nat)
    requires RankedPart(units, rank)
    requires forall c | c in cs && c in units :: c in rank && rank[c] < bound
    requires i < |BuildChildren(units, cs, rank, bound)|
    ensures BuildChildren(units, cs, rank, bound)[i] ==
      BuildNode(units, PresentIds(units, cs)[i], rank).value
  {
    ChildrenBuiltAsRoots(units, cs, rank, bound);
    BuildRootsAt(units, cs, rank, i);
  }

  /** Node `i` of getTree's top level is the tree built for the `i`-th present root id. */
  lemma {:induction false} BuildRootsAt(units: map<Id, UnitRecord>, rs: seq<Id>,
      rank: map<Id, nat>, i: nat)
    requires RankedPart(units, rank) && forall x | x in rs && x in units :: x in rank
    requires i < |BuildRoots(units, rs, rank)|
    ensures BuildRoots(units, rs, rank)[i] == BuildNode(units, PresentIds(units, rs)[i], rank).value
    decreases |rs|
  {
    if rs[0] in units {
      if i > 0 {
        BuildRootsAt(units, rs[1..], rank, i - 1);
      }
    } else {
      BuildRootsAt(units, rs[1..], rank, i);
    }
  }

  /** BuildRootsAt for every position at once. */
  lemma BuildRootsEach(units: map<Id, UnitRecord>, rs: seq<Id>, rank: map<Id, nat>)
    requires RankedPart(units, rank) && forall x | x in rs && x in units :: x in rank
    ensures var r := BuildRoots(units, rs, rank);
      forall i | 0 <= i < |r| :: r[i] == BuildNode(units, PresentIds(units, rs)[i], rank).value
  {
    var r := BuildRoots(units, rs, rank);
    forall i | 0 <= i < |r|
      ensures r[i] == BuildNode(units, PresentIds(units, rs)[i], rank).value
    {
      BuildRootsAt(units, rs, rank, i);
    }
  }

  // ---------- statistics ----------

  /** `stats[key] = (stats[key] || 0) + 1` over a list of keys. */
  function Tally(keys: seq<string>): map<string, nat>
  {
    if keys == [] then map[]
    else
      var m := Tally(keys[..|keys| - 1]);
      var k := keys[|keys| - 1];
      m[k := (if k in m then m[k] else 0) + 1]
  }

  function Levels(us: seq<UnitRecord>): (r: seq<string>)
    ensures |r| == |us| && forall i | 0 <= i < |us| :: r[i] == us[i].level
  {
    if us == [] then [] else [us[0].level] + Levels(us[1..])
  }

  function Branches(us: seq<UnitRecord>): (r: seq<string>)
    ensures |r| == |us| && forall i | 0 <= i < |us| :: r[i] == us[i].branch
  {
    if us == [] then [] else [us[0].branch] + Branches(us[1..])
  }
}

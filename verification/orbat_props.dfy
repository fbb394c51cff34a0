/**
 * Properties of the ORBAT operations of backend/services/ORBATService.js: what each one
 * does to the root list and the children lists, and which invariants it keeps.
 */
module OrbatProperties {
  import opened Wrappers
  import opened Seqs
  import opened UnitData
  import opened OrbatForest
  import opened OrbatRemoval

  // ---------- removeUnit ----------

  lemma {:induction false} DropKeepsNoDup(cs: seq<Id>, D: set<Id>, units: map<Id, UnitRecord>,
      k: Id)
    requires NoDup(cs)
    ensures NoDup(Drop(cs, D, units, k))
  {
    if cs != [] {
      DropKeepsNoDup(cs[1..], D, units, k);
      DropMembers(cs[1..], D, units, k);
      assert cs[0] !in cs[1..];
    }
  }

  lemma {:induction false} DropRootsKeepsNoDup(rs: seq<Id>, D: set<Id>,
      units: map<Id, UnitRecord>)
    requires NoDup(rs)
    ensures NoDup(DropRoots(rs, D, units))
  {
    if rs != [] {
      DropRootsKeepsNoDup(rs[1..], D, units);
      DropRootsMembers(rs[1..], D, units);
      assert rs[0] !in rs[1..];
    }
  }

  lemma {:induction false} KeepKeepsNoDup(ks: seq<Id>, D: set<Id>)
    requires NoDup(ks)
    ensures NoDup(Keep(ks, D))
  {
    if ks != [] {
      KeepKeepsNoDup(ks[1..], D);
      KeepMembers(ks[1..], D);
      assert ks[0] !in ks[1..];
    }
  }

  /** The units removeUnit(id) deletes. */
  ghost function Subtree(f: Forest, id: Id, rank: map<Id, nat>): set<Id>
    requires RankedPart(f.units, rank) && (id in f.units ==> id in rank)
  {
    f.units.Keys - RemoveRec(f, id, rank).units.Keys
  }

  /**
   * removeUnit deletes the unit and every transitive descendant, and nothing else: the
   * deleted set contains `id`, contains every present child of each of its members, and lies
   * inside every other set that does both. The survivors keep their records except for the
   * children lists, which lose exactly the deleted units.
   */
  lemma RemoveDeletesSubtree(f: Forest, id: Id, rank: map<Id, nat>)
    requires RankedPart(f.units, rank) && id in f.units && id in rank
    ensures var g := RemoveRec(f, id, rank);
      var D := Subtree(f, id, rank);
      && id in D && Closed(f.units, D)
      && (forall S: set<Id> | id in S && Closed(f.units, S) :: D <= S)
      && RemovedExactly(f, g, D)
  {
    RemoveRecExact(f, id, rank);
    assert Present(f, {id}) == {id};
  }

  /**
   * A cycle elsewhere does not stand in the way: with a root A and units B and C listing
   * each other as children (what moveUnit(B, C) leaves after A > B > C), the links are not
   * acyclic, yet a ranking of A alone lets removeUnit(A) and getTree run; both terminate in
   * the source as well, since neither walk reaches B or C.
   */
  lemma RemovalBesideCycle(u: UnitRecord)
    ensures var a := u.(uuid := "A", parentId := None, children := []);
      var b := u.(uuid := "B", parentId := Some("C"), children := ["C"]);
      var c := u.(uuid := "C", parentId := Some("B"), children := ["B"]);
      var f := Forest(map["A" := a, "B" := b, "C" := c], ["A"], ["A", "B", "C"]);
      var rank := map["A" := 0];
      && !Acyclic(f.units) && RankedPart(f.units, rank)
      && RemoveRec(f, "A", rank).units.Keys == {"B", "C"}
      && UuidsOf(BuildRoots(f.units, f.roots, rank)) == ["A"]
  {
    var a := u.(uuid := "A", parentId := None, children := []);
    var b := u.(uuid := "B", parentId := Some("C"), children := ["C"]);
    var c := u.(uuid := "C", parentId := Some("B"), children := ["B"]);
    var units := map["A" := a, "B" := b, "C" := c];
    var f := Forest(units, ["A"], ["A", "B", "C"]);
    var rank := map["A" := 0];
    assert RemoveChildren(f, [], 0, rank, 0) == f;
    assert RankedPart(f.units, rank);
    assert RemoveRec(f, "A", rank).units.Keys == {"B", "C"};
    assert UuidsOf(BuildRoots(f.units, f.roots, rank)) == ["A"];
    assert !Acyclic(f.units);
  }

  /** The subtree of `id` is the least closed set holding `id`; it is ranked at most `id`. */
  lemma SubtreeLeast(f: Forest, id: Id, rank: map<Id, nat>)
    requires RankedPart(f.units, rank) && id in f.units && id in rank
    ensures var D := Subtree(f, id, rank);
      && id in D && D <= f.units.Keys && Closed(f.units, D)
      && (forall S: set<Id> | id in S && Closed(f.units, S) :: D <= S)
      && (forall x | x in D :: x in rank && rank[x] <= rank[id])
  {
    RemoveRecExact(f, id, rank);
    assert Present(f, {id}) == {id};
  }

  /** On a well-formed forest, removal leaves a well-formed forest. */
  lemma RemovePreservesWellformed(f: Forest, id: Id, rank: map<Id, nat>)
    requires Wellformed(f) && RankedPart(f.units, rank) && id in f.units && id in rank
    ensures Wellformed(RemoveRec(f, id, rank))
  {
    var g := RemoveRec(f, id, rank);
    var D := Subtree(f, id, rank);
    RemoveDeletesSubtree(f, id, rank);
    RemovedIndexed(f, g, D);
    RemovedRootsExact(f, g, D);
    RemovedParentsListed(f, g, D);
    RemovedChildrenBack(f, g, D);
  }

  lemma RemovedIndexed(f: Forest, g: Forest, D: set<Id>)
    requires Indexed(f) && RemovedExactly(f, g, D)
    ensures Indexed(g)
  {
    KeepMembers(f.order, D);
    KeepKeepsNoDup(f.order, D);
  }

  lemma RemovedRootsExact(f: Forest, g: Forest, D: set<Id>)
    requires RootsExact(f) && RemovedExactly(f, g, D)
    ensures RootsExact(g)
  {
    DropRootsMembers(f.roots, D, f.units);
    DropRootsKeepsNoDup(f.roots, D, f.units);
  }

  lemma RemovedParentsListed(f: Forest, g: Forest, D: set<Id>)
    requires ParentsListed(f) && Closed(f.units, D) && RemovedExactly(f, g, D)
    ensures ParentsListed(g)
  {
    forall k | k in g.units && Attached(g.units[k])
      ensures g.units[k].parentId.value in g.units
      ensures k in g.units[g.units[k].parentId.value].children
    {
      var p := f.units[k].parentId.value;
      assert k in f.units[p].children;
      DropMembers(f.units[p].children, D, f.units, p);
    }
  }

  lemma RemovedChildrenBack(f: Forest, g: Forest, D: set<Id>)
    requires ChildrenBack(f) && RemovedExactly(f, g, D)
    ensures ChildrenBack(g)
  {
    forall k | k in g.units
      ensures NoDup(g.units[k].children)
      ensures forall c | c in g.units[k].children :: c in g.units && AttachedTo(g.units[c], k)
    {
      RemovedChildrenBackAt(f, g, D, k);
    }
  }

  lemma RemovedChildrenBackAt(f: Forest, g: Forest, D: set<Id>, k: Id)
    requires ChildrenBack(f) && RemovedExactly(f, g, D) && k in g.units
    ensures NoDup(g.units[k].children)
    ensures forall c | c in g.units[k].children :: c in g.units && AttachedTo(g.units[c], k)
  {
    var cs := f.units[k].children;
    assert g.units[k].children == Drop(cs, D, f.units, k);
    DropMembers(cs, D, f.units, k);
    DropKeepsNoDup(cs, D, f.units, k);
    forall c | c in g.units[k].children
      ensures c in g.units && AttachedTo(g.units[c], k)
    {
      assert c in cs && AttachedTo(f.units[c], k);
      assert c in g.units;
      assert g.units[c].parentId == f.units[c].parentId;
    }
  }

  /**
   * After removeUnit(id) on a well-formed forest, no deleted unit is listed anywhere: not in
   * the root list and not in any survivor's children, the former parent's included.
   */
  lemma RemoveDetaches(f: Forest, id: Id, rank: map<Id, nat>)
    requires Wellformed(f) && RankedPart(f.units, rank) && id in f.units && id in rank
    ensures var g := RemoveRec(f, id, rank);
      && id !in g.units
      && (forall x | x in Subtree(f, id, rank) ::
            x !in g.roots && forall k | k in g.units :: x !in g.units[k].children)
  {
    var g := RemoveRec(f, id, rank);
    var D := Subtree(f, id, rank);
    RemoveDeletesSubtree(f, id, rank);
    DropRootsMembers(f.roots, D, f.units);
    forall x, k | x in D && k in g.units
      ensures x !in g.roots && x !in g.units[k].children
    {
      DropMembers(f.units[k].children, D, f.units, k);
      if x in f.units[k].children {
        assert AttachedTo(f.units[x], k);
      }
    }
  }

  // ---------- addUnit ----------

  /**
   * addUnit with a truthy parentId that resolves to another unit: the parent's children gain
   * the new id at the end, at most once, every other unit and rootUnits are untouched.
   */
  lemma AddUnderParent(f: Forest, u: UnitRecord)
    requires Attached(u) && u.parentId.value in f.units && u.parentId.value != u.uuid
    ensures var g := AddFn(f, u); var p := u.parentId.value;
      && g.roots == f.roots
      && g.units[u.uuid] == u
      && g.units[p] == f.units[p].(children := PushNew(f.units[p].children, u.uuid))
      && (NoDup(f.units[p].children) ==> NoDup(g.units[p].children))
      && (forall k | k in f.units && k != p && k != u.uuid :: g.units[k] == f.units[k])
  {
    var p := u.parentId.value;
    if NoDup(f.units[p].children) {
      PushNewKeepsNoDup(f.units[p].children, u.uuid);
    }
  }

  /** addUnit without a truthy parentId: rootUnits gains the id at the end unless it is there. */
  lemma AddAsRoot(f: Forest, u: UnitRecord)
    requires !Attached(u)
    ensures var g := AddFn(f, u);
      && g.units == f.units[u.uuid := u]
      && g.roots == PushNew(f.roots, u.uuid)
      && (NoDup(f.roots) ==> NoDup(g.roots))
  {
    if NoDup(f.roots) {
      PushNewKeepsNoDup(f.roots, u.uuid);
    }
  }

  /**
   * addUnit whose truthy parentId does not resolve: the unit is stored but listed nowhere,
   * neither in rootUnits nor in any children list.
   */
  lemma AddOrphan(f: Forest, u: UnitRecord)
    requires RootsExact(f) && ChildrenBack(f) && u.uuid !in f.units && u.uuid !in u.children
    requires Attached(u) && u.parentId.value !in f.units && u.parentId.value != u.uuid
    ensures var g := AddFn(f, u);
      && g.units == f.units[u.uuid := u]
      && u.uuid !in g.roots
      && (forall k | k in g.units :: u.uuid !in g.units[k].children)
  {
    var h := Forest(f.units[u.uuid := u], f.roots, f.order + [u.uuid]);
    assert OrNull(u.parentId) == u.parentId;
    assert u.parentId.value !in h.units;
    assert AddFn(f, u) == Attach(h, u.uuid, u.parentId) == h;
    assert u.uuid !in h.roots;
    forall k | k in h.units
      ensures u.uuid !in h.units[k].children
    {
      if k != u.uuid {
        assert h.units[k] == f.units[k];
      }
    }
  }

  /** addUnit of a unit naming itself as parent makes it its own child: a cycle. */
  lemma AddSelfParentCycles(f: Forest, u: UnitRecord)
    requires Attached(u) && u.parentId.value == u.uuid
    ensures !Acyclic(AddFn(f, u).units)
  {
    var g := AddFn(f, u);
    assert u.uuid in g.units[u.uuid].children;
  }

  /**
   * Adding a fresh unit without children, whose parentId is absent or resolves, keeps the
   * forest well formed.
   */
  lemma AddPreservesWellformed(f: Forest, u: UnitRecord)
    requires Wellformed(f) && u.uuid !in f.units && u.children == []
    requires u.parentId.Some? ==> Attached(u) && u.parentId.value in f.units
    ensures Wellformed(AddFn(f, u))
  {
    AddIndexed(f, u);
    AddRootsExact(f, u);
    AddParentsListed(f, u);
    AddChildrenBack(f, u);
  }

  /** The shape of addUnit's result for a fresh unit whose parent is absent or resolves. */
  lemma AddShape(f: Forest, u: UnitRecord)
    requires u.uuid !in f.units
    requires u.parentId.Some? ==> Attached(u) && u.parentId.value in f.units
    ensures AddFn(f, u).order == f.order + [u.uuid]
    ensures Attached(u) ==>
      var p := u.parentId.value;
      && AddFn(f, u).roots == f.roots
      && AddFn(f, u).units == f.units[u.uuid := u][p := f.units[p].(children :=
        PushNew(f.units[p].children, u.uuid))]
    ensures !Attached(u) ==>
      AddFn(f, u).roots == PushNew(f.roots, u.uuid) && AddFn(f, u).units == f.units[u.uuid := u]
  {
    assert OrNull(u.parentId) == (if Attached(u) then u.parentId else None);
  }

  /**
   * addUnit keeps the Map's key order in step with its keys, whether the uuid is new (it is
   * appended) or already stored (it keeps its place and its record is replaced).
   */
  lemma AddIndexed(f: Forest, u: UnitRecord)
    requires Indexed(f)
    ensures Indexed(AddFn(f, u))
  {
    var order := if u.uuid in f.units then f.order else f.order + [u.uuid];
    var h := Forest(f.units[u.uuid := u], f.roots, order);
    if u.uuid !in f.units {
      PushNewKeepsNoDup(f.order, u.uuid);
    }
    assert Indexed(h);
    AttachKeepsIndexed(h, u.uuid, OrNull(u.parentId));
  }

  lemma AttachKeepsIndexed(f: Forest, id: Id, target: Option<Id>)
    requires Indexed(f)
    ensures Indexed(Attach(f, id, target))
  {
    var g := Attach(f, id, target);
    forall k | k in g.units
      ensures g.units[k].uuid == k
    {
      assert g.units[k].uuid == f.units[k].uuid;
    }
  }

  /** addUnits keeps the index, one addUnit at a time. */
  lemma {:induction false} AddAllIndexed(f: Forest, us: seq<UnitRecord>)
    requires Indexed(f)
    ensures Indexed(AddAllFn(f, us))
  {
    if us != [] {
      AddAllIndexed(f, us[..|us| - 1]);
      AddIndexed(AddAllFn(f, us[..|us| - 1]), us[|us| - 1]);
    }
  }

  /** updateUnit and moveUnit keep every key, the key order and each unit's uuid. */
  lemma UpdateIndexed(f: Forest, id: Id, ks: seq<PatchKey>)
    requires Indexed(f) && id in f.units
    ensures Indexed(UpdateFn(f, id, ks))
  {
    assert SameLinks(f, UpdateFn(f, id, ks));
  }

  /** Storing the updated record under its uuid is updateUnit, and keeps the index. */
  lemma UpdateStep(f: Forest, id: Id, ks: seq<PatchKey>, unit: UnitRecord)
    requires Indexed(f) && id in f.units && unit == Updated(f.units[id], ks)
    ensures Forest(f.units[id := unit], f.roots, f.order) == UpdateFn(f, id, ks)
    ensures Indexed(UpdateFn(f, id, ks))
  {
    UpdateIndexed(f, id, ks);
  }

  lemma MoveIndexed(f: Forest, id: Id, newParent: Option<Id>)
    requires Indexed(f) && id in f.units
    ensures Indexed(MoveFn(f, id, newParent))
  {
    var f1 := Unlink(f, id, f.units[id].parentId);
    assert Indexed(f1) by {
      forall k | k in f1.units
        ensures f1.units[k].uuid == k
      {
        assert f1.units[k].uuid == f.units[k].uuid;
      }
    }
    var f2 := Reparent(f1, id, OrNull(newParent));
    assert Indexed(f2) by {
      forall k | k in f2.units
        ensures f2.units[k].uuid == k
      {
        assert f2.units[k].uuid == f1.units[k].uuid;
      }
    }
    AttachKeepsIndexed(f2, id, OrNull(newParent));
  }

  /** removeUnit keeps the index: the deleted keys leave the key order too. */
  lemma RemoveIndexed(f: Forest, id: Id, rank: map<Id, nat>)
    requires Indexed(f) && RankedPart(f.units, rank) && (id in f.units ==> id in rank)
    ensures Indexed(RemoveRec(f, id, rank))
  {
    RemoveRecExact(f, id, rank);
    if id in f.units {
      var g := RemoveRec(f, id, rank);
      RemovedIndexed(f, g, f.units.Keys - g.units.Keys);
    }
  }

  lemma AddRootsExact(f: Forest, u: UnitRecord)
    requires RootsExact(f) && Indexed(f) && u.uuid !in f.units
    ensures RootsExact(AddFn(f, u))
  {
    if !Attached(u) {
      PushNewKeepsNoDup(f.roots, u.uuid);
    }
  }

  lemma AddParentsListed(f: Forest, u: UnitRecord)
    requires ParentsListed(f) && u.uuid !in f.units
    requires u.parentId.Some? ==> Attached(u) && u.parentId.value in f.units
    ensures ParentsListed(AddFn(f, u))
  {
    var g := AddFn(f, u);
    AddShape(f, u);
    forall k | k in g.units && Attached(g.units[k])
      ensures g.units[k].parentId.value in g.units
      ensures k in g.units[g.units[k].parentId.value].children
    {
      if k != u.uuid {
        assert g.units[k].parentId == f.units[k].parentId;
        var p := f.units[k].parentId.value;
        assert k in f.units[p].children;
        assert forall x | x in f.units[p].children :: x in g.units[p].children;
      }
    }
  }

  lemma AddChildrenBack(f: Forest, u: UnitRecord)
    requires ChildrenBack(f) && u.uuid !in f.units && u.children == []
    requires u.parentId.Some? ==> Attached(u) && u.parentId.value in f.units
    ensures ChildrenBack(AddFn(f, u))
  {
    var g := AddFn(f, u);
    forall k | k in g.units
      ensures NoDup(g.units[k].children)
      ensures forall c | c in g.units[k].children :: c in g.units && AttachedTo(g.units[c], k)
    {
      AddChildrenBackAt(f, u, k);
    }
  }

  lemma AddChildrenBackAt(f: Forest, u: UnitRecord, k: Id)
    requires ChildrenBack(f) && u.uuid !in f.units && u.children == []
    requires u.parentId.Some? ==> Attached(u) && u.parentId.value in f.units
    requires k in AddFn(f, u).units
    ensures NoDup(AddFn(f, u).units[k].children)
    ensures forall c | c in AddFn(f, u).units[k].children ::
      c in AddFn(f, u).units && AttachedTo(AddFn(f, u).units[c], k)
  {
    var g := AddFn(f, u);
    var base := f.units[u.uuid := u];
    assert OrNull(u.parentId) == u.parentId;
    if Attached(u) {
      var p := u.parentId.value;
      assert u.uuid !in f.units[p].children;
      assert g.units == base[p := base[p].(children := f.units[p].children + [u.uuid])];
      PushNewKeepsNoDup(f.units[p].children, u.uuid);
    } else {
      assert g.units == base;
    }
    forall c | c in g.units[k].children
      ensures c in g.units && AttachedTo(g.units[c], k)
    {
      if c != u.uuid {
        assert c in f.units[k].children;
        assert g.units[c].parentId == f.units[c].parentId;
      }
    }
  }

  /** Adding a fresh unit whose children are all absent keeps the links acyclic. */
  lemma AddPreservesAcyclic(f: Forest, u: UnitRecord, rank: map<Id, nat>)
    requires Ranked(f.units, rank) && u.uuid !in f.units
    requires forall c | c in u.children :: c !in f.units && c != u.uuid
    requires Attached(u) ==> u.parentId.value != u.uuid
    ensures Acyclic(AddFn(f, u).units)
  {
    AddLinks(f, u);
    RankedAfterAdd(f, AddFn(f, u), u.uuid, rank);
  }

  /** What addUnit does to the links when the new unit is fresh and not its own parent. */
  lemma AddLinks(f: Forest, u: UnitRecord)
    requires u.uuid !in f.units
    requires Attached(u) ==> u.parentId.value != u.uuid
    ensures var g := AddFn(f, u);
      && g.units.Keys == f.units.Keys + {u.uuid}
      && g.units[u.uuid].children == u.children
      && forall k, c | k in f.units && c in g.units[k].children ::
           c == u.uuid || c in f.units[k].children
  {
  }

  /** A unit added with only absent children, and linked at most under others, ranks lowest. */
  lemma RankedAfterAdd(f: Forest, g: Forest, id: Id, rank: map<Id, nat>)
    requires Ranked(f.units, rank) && id !in f.units
    requires g.units.Keys == f.units.Keys + {id}
    requires forall c | c in g.units[id].children :: c !in g.units
    requires forall k, c | k in f.units && c in g.units[k].children ::
      c == id || c in f.units[k].children
    ensures Acyclic(g.units)
  {
    var r := (map k | k in f.units :: rank[k] + 1)[id := 0];
    forall k, c | k in g.units && c in g.units[k].children && c in g.units
      ensures r[c] < r[k]
    {
      if c != id {
        assert k != id && c in f.units[k].children;
        assert r[c] == rank[c] + 1 && r[k] == rank[k] + 1;
      }
    }
    assert Ranked(g.units, r);
  }

  // ---------- updateUnit ----------

  /** `g` has the same units, roots and order as `f`, and every unit the same links. */
  ghost predicate SameLinks(f: Forest, g: Forest) {
    && g.units.Keys == f.units.Keys && g.roots == f.roots && g.order == f.order
    && forall k | k in f.units ::
         && g.units[k].uuid == f.units[k].uuid
         && g.units[k].parentId == f.units[k].parentId
         && g.units[k].children == f.units[k].children
  }

  lemma SameLinksPreserve(f: Forest, g: Forest, rank: map<Id, nat>)
    requires SameLinks(f, g)
    ensures Wellformed(f) ==> Wellformed(g)
    ensures Ranked(f.units, rank) ==> Ranked(g.units, rank)
  {
    if Wellformed(f) {
      SameLinksParents(f, g);
      SameLinksChildren(f, g);
    }
    if Ranked(f.units, rank) {
      SameLinksRanked(f, g, rank);
    }
  }

  lemma SameLinksParents(f: Forest, g: Forest)
    requires SameLinks(f, g) && ParentsListed(f)
    ensures ParentsListed(g)
  {
    forall k | k in g.units && Attached(g.units[k])
      ensures k in g.units[g.units[k].parentId.value].children
    {
      assert k in f.units[f.units[k].parentId.value].children;
    }
  }

  lemma SameLinksChildren(f: Forest, g: Forest)
    requires SameLinks(f, g) && ChildrenBack(f)
    ensures ChildrenBack(g)
  {
    forall k, c | k in g.units && c in g.units[k].children
      ensures c in g.units && AttachedTo(g.units[c], k)
    {
      assert c in f.units[k].children;
    }
  }

  lemma SameLinksRanked(f: Forest, g: Forest, rank: map<Id, nat>)
    requires SameLinks(f, g) && Ranked(f.units, rank)
    ensures Ranked(g.units, rank)
  {
    forall k, c | k in g.units && c in g.units[k].children && c in g.units
      ensures rank[c] < rank[k]
    {
      assert c in f.units[k].children;
    }
  }

  /** updateUnit never touches uuid, parentId or children, so both invariants are kept. */
  lemma UpdatePreserves(f: Forest, id: Id, ks: seq<PatchKey>, rank: map<Id, nat>)
    requires id in f.units
    ensures SameLinks(f, UpdateFn(f, id, ks))
    ensures Wellformed(f) ==> Wellformed(UpdateFn(f, id, ks))
    ensures Ranked(f.units, rank) ==> Ranked(UpdateFn(f, id, ks).units, rank)
  {
    SameLinksPreserve(f, UpdateFn(f, id, ks), rank);
  }

  // ---------- moveUnit ----------

  /** Each children list after a move of `id` to `target` on a well-formed forest. */
  function MovedKids(cs: seq<Id>, id: Id, target: Option<Id>, k: Id): seq<Id> {
    if target == Some(k) then Without(cs, id) + [id] else Without(cs, id)
  }

  /** `id` is listed at most where its own parentId says: under that parent, or in rootUnits. */
  ghost predicate ListedOnlyAtParent(f: Forest, id: Id)
    requires id in f.units
  {
    && (forall k | k in f.units && id in f.units[k].children :: AttachedTo(f.units[id], k))
    && (id in f.roots ==> !Attached(f.units[id]))
  }

  lemma WellformedListsOnce(f: Forest, id: Id)
    requires Wellformed(f) && id in f.units
    ensures ListedOnlyAtParent(f, id)
  {
  }

  /** Unlinking from the old location then removes `id` from every list. */
  lemma UnlinkEverywhere(f: Forest, id: Id)
    requires id in f.units && ListedOnlyAtParent(f, id)
    ensures var f1 := Unlink(f, id, f.units[id].parentId);
      && f1.roots == Without(f.roots, id)
      && forall k | k in f.units :: f1.units[k].children == Without(f.units[k].children, id)
  {
    var P := f.units[id].parentId;
    forall k | k in f.units && !(P == Some(k) && k != "")
      ensures id !in f.units[k].children
    {
    }
  }

  /**
   * `g` is `f` after moving `id` to `target` on a well-formed forest: `id` leaves every list
   * it was in, then goes to the end of the target's children, or of rootUnits when there is
   * no target; its parentId becomes the target, and nothing else changes.
   */
  ghost predicate MovedTo(f: Forest, g: Forest, id: Id, target: Option<Id>)
    requires id in f.units
  {
    && g.units.Keys == f.units.Keys && g.order == f.order
    && g.roots == (if target.None? then Without(f.roots, id) + [id] else Without(f.roots, id))
    && g.units[id] == f.units[id].(parentId := target,
         children := MovedKids(f.units[id].children, id, target, id))
    && forall k | k in f.units && k != id ::
         g.units[k] == f.units[k].(children := MovedKids(f.units[k].children, id, target, k))
  }

  /** moveUnit on a well-formed forest to a target that resolves, or to none. */
  lemma MoveClosedForm(f: Forest, id: Id, newParent: Option<Id>)
    requires Wellformed(f) && id in f.units
    requires OrNull(newParent).Some? ==> OrNull(newParent).value in f.units
    ensures MovedTo(f, MoveFn(f, id, newParent), id, OrNull(newParent))
  {
    WellformedListsOnce(f, id);
    MoveFromListedOnce(f, id, newParent);
  }

  /** Such a move keeps the forest well formed (cycles aside, see MoveAcyclicIff). */
  lemma MovePreservesWellformed(f: Forest, id: Id, newParent: Option<Id>)
    requires Wellformed(f) && id in f.units
    requires OrNull(newParent).Some? ==> OrNull(newParent).value in f.units
    ensures Wellformed(MoveFn(f, id, newParent))
  {
    var g := MoveFn(f, id, newParent);
    var target := OrNull(newParent);
    MoveClosedForm(f, id, newParent);
    MovedIndexed(f, g, id, target);
    MovedRootsExact(f, g, id, target);
    MovedParentsListed(f, g, id, target);
    MovedChildrenBack(f, g, id, target);
  }

  lemma MovedRootsExact(f: Forest, g: Forest, id: Id, target: Option<Id>)
    requires id in f.units && RootsExact(f) && MovedTo(f, g, id, target)
    requires target.Some? ==> target.value != ""
    ensures RootsExact(g)
  {
    WithoutKeepsNoDup(f.roots, id);
    if target.None? {
      PushNewKeepsNoDup(Without(f.roots, id), id);
    }
  }

  lemma MovedParentsListed(f: Forest, g: Forest, id: Id, target: Option<Id>)
    requires id in f.units && ParentsListed(f) && MovedTo(f, g, id, target)
    requires target.Some? ==> target.value != "" && target.value in f.units
    ensures ParentsListed(g)
  {
    forall k | k in g.units && Attached(g.units[k])
      ensures g.units[k].parentId.value in g.units
      ensures k in g.units[g.units[k].parentId.value].children
    {
      MovedParentsListedAt(f, g, id, target, k);
    }
  }

  lemma MovedParentsListedAt(f: Forest, g: Forest, id: Id, target: Option<Id>, k: Id)
    requires id in f.units && ParentsListed(f) && MovedTo(f, g, id, target)
    requires target.Some? ==> target.value != "" && target.value in f.units
    requires k in g.units && Attached(g.units[k])
    ensures g.units[k].parentId.value in g.units
    ensures k in g.units[g.units[k].parentId.value].children
  {
    if k == id {
      var p := target.value;
      assert g.units[p].children == MovedKids(f.units[p].children, id, target, p);
    } else {
      var p := f.units[k].parentId.value;
      assert g.units[k].parentId == f.units[k].parentId;
      assert k in f.units[p].children;
      assert k in Without(f.units[p].children, id);
      assert g.units[p].children == MovedKids(f.units[p].children, id, target, p);
    }
  }

  lemma MovedChildrenBack(f: Forest, g: Forest, id: Id, target: Option<Id>)
    requires id in f.units && ChildrenBack(f) && MovedTo(f, g, id, target)
    requires target.Some? ==> target.value != ""
    ensures ChildrenBack(g)
  {
    forall k | k in g.units {
      MovedChildrenBackAt(f, g, id, target, k);
    }
  }

  lemma MovedChildrenBackAt(f: Forest, g: Forest, id: Id, target: Option<Id>, k: Id)
    requires id in f.units && ChildrenBack(f) && MovedTo(f, g, id, target) && k in g.units
    requires target.Some? ==> target.value != ""
    ensures NoDup(g.units[k].children)
    ensures forall c | c in g.units[k].children :: c in g.units && AttachedTo(g.units[c], k)
  {
    var cs := f.units[k].children;
    var w := Without(cs, id);
    assert g.units[k].children == MovedKids(cs, id, target, k);
    WithoutKeepsNoDup(cs, id);
    if target == Some(k) {
      PushNewKeepsNoDup(w, id);
      assert w + [id] == PushNew(w, id);
    }
    forall c | c in g.units[k].children
      ensures c in g.units && AttachedTo(g.units[c], k)
    {
      if c == id {
        assert target == Some(k);
        assert g.units[id].parentId == target;
      } else {
        assert c in w;
        assert c in cs;
        assert AttachedTo(f.units[c], k);
        assert g.units[c].parentId == f.units[c].parentId;
      }
    }
  }


  lemma MovedIndexed(f: Forest, g: Forest, id: Id, target: Option<Id>)
    requires id in f.units && Indexed(f) && MovedTo(f, g, id, target)
    ensures Indexed(g)
  {
    forall k | k in g.units ensures g.units[k].uuid == k {
      assert g.units[k].uuid == f.units[k].uuid;
    }
  }

  lemma MoveFromListedOnce(f: Forest, id: Id, newParent: Option<Id>)
    requires id in f.units && ListedOnlyAtParent(f, id)
    requires OrNull(newParent).Some? ==> OrNull(newParent).value in f.units
    ensures var g := MoveFn(f, id, newParent); var target := OrNull(newParent);
      && g.roots == (if target.None? then Without(f.roots, id) + [id] else Without(f.roots, id))
      && g.units[id] == f.units[id].(parentId := target,
           children := MovedKids(f.units[id].children, id, target, id))
      && forall k | k in f.units && k != id ::
           g.units[k] == f.units[k].(children := MovedKids(f.units[k].children, id, target, k))
  {
    var target := OrNull(newParent);
    var g := MoveFn(f, id, newParent);
    MoveSteps(f, id, newParent);
    MoveKids(f, id, newParent);
    forall k | k in f.units && k != id
      ensures g.units[k] == f.units[k].(children := MovedKids(f.units[k].children, id, target, k))
    {
      assert g.units[k] == f.units[k].(children := g.units[k].children);
    }
  }

  /** The three steps of moveUnit, each on whole records. */
  lemma MoveSteps(f: Forest, id: Id, newParent: Option<Id>)
    requires id in f.units && ListedOnlyAtParent(f, id)
    requires OrNull(newParent).Some? ==> OrNull(newParent).value in f.units
    ensures var g := MoveFn(f, id, newParent); var target := OrNull(newParent);
      && g.roots == (if target.None? then Without(f.roots, id) + [id] else Without(f.roots, id))
      && g.units[id] == f.units[id].(parentId := target, children := g.units[id].children)
      && forall k | k in f.units && k != id ::
           g.units[k] == f.units[k].(children := g.units[k].children)
  {
    var target := OrNull(newParent);
    var f1 := Unlink(f, id, f.units[id].parentId);
    var f2 := Reparent(f1, id, target);
    UnlinkEverywhere(f, id);
    AttachUnlisted(f2, id, target);
    MoveKeepsFieldsAt(f, id, newParent, id);
    forall k | k in f.units && k != id {
      MoveKeepsFieldsAt(f, id, newParent, k);
    }
  }

  /** moveUnit changes one unit's parentId and children lists, and nothing else. */
  lemma MoveKeepsFieldsAt(f: Forest, id: Id, newParent: Option<Id>, k: Id)
    requires id in f.units && k in f.units
    ensures var g := MoveFn(f, id, newParent);
      g.units[k] == f.units[k].(children := g.units[k].children,
        parentId := if k == id then OrNull(newParent) else f.units[k].parentId)
  {
    var target := OrNull(newParent);
    var f1 := Unlink(f, id, f.units[id].parentId);
    var f2 := Reparent(f1, id, target);
    assert f1.units[k] == f.units[k].(children := f1.units[k].children);
    assert f2.units[k] == f1.units[k].(parentId := f2.units[k].parentId);
  }

  /** The children lists after moveUnit. */
  lemma MoveKids(f: Forest, id: Id, newParent: Option<Id>)
    requires id in f.units && ListedOnlyAtParent(f, id)
    requires OrNull(newParent).Some? ==> OrNull(newParent).value in f.units
    ensures var g := MoveFn(f, id, newParent); var target := OrNull(newParent);
      forall k | k in f.units :: g.units[k].children == MovedKids(f.units[k].children, id, target, k)
  {
    forall k | k in f.units {
      MoveKidsAt(f, id, newParent, k);
    }
  }

  lemma MoveKidsAt(f: Forest, id: Id, newParent: Option<Id>, k: Id)
    requires id in f.units && ListedOnlyAtParent(f, id) && k in f.units
    requires OrNull(newParent).Some? ==> OrNull(newParent).value in f.units
    ensures MoveFn(f, id, newParent).units[k].children ==
      MovedKids(f.units[k].children, id, OrNull(newParent), k)
  {
    var target := OrNull(newParent);
    var f1 := Unlink(f, id, f.units[id].parentId);
    var f2 := Reparent(f1, id, target);
    UnlinkEverywhere(f, id);
    AttachUnlisted(f2, id, target);
    var w := Without(f.units[k].children, id);
    assert f2.units[k].children == w;
    assert id !in w;
  }

  /** Attach of an id listed nowhere puts it at the end of exactly one list. */
  lemma AttachUnlisted(f: Forest, id: Id, target: Option<Id>)
    requires id !in f.roots && forall k | k in f.units :: id !in f.units[k].children
    requires target.Some? ==> target.value in f.units
    ensures var g := Attach(f, id, target);
      && g.roots == (if target.None? then f.roots + [id] else f.roots)
      && forall k | k in f.units ::
           g.units[k].children ==
             if target == Some(k) then f.units[k].children + [id] else f.units[k].children
  {
  }

  /**
   * moveUnit to a truthy id that is not in the Map sets parentId to it but attaches the
   * unit nowhere: it is then in neither rootUnits nor any children list.
   */
  lemma MoveToMissingParentOrphans(f: Forest, id: Id, q: Id)
    requires Wellformed(f) && id in f.units && q != "" && q !in f.units
    ensures var g := MoveFn(f, id, Some(q));
      && g.units[id].parentId == Some(q)
      && id !in g.roots
      && forall k | k in g.units :: id !in g.units[k].children
  {
    WellformedListsOnce(f, id);
    UnlinkEverywhere(f, id);
  }

  /** moveUnit changes the children lists only by dropping `id` and adding it under the target. */
  lemma MoveLinks(f: Forest, id: Id, newParent: Option<Id>)
    requires id in f.units
    ensures var g := MoveFn(f, id, newParent); var target := OrNull(newParent);
      && (forall x, y | x in f.units && y in f.units[x].children && y != id ::
            y in g.units[x].children)
      && (forall x, y | x in g.units && y in g.units[x].children ::
            y in f.units[x].children || (y == id && target == Some(x)))
      && (target.Some? && target.value in f.units ==> id in g.units[target.value].children)
  {
    var target := OrNull(newParent);
    var f1 := Unlink(f, id, f.units[id].parentId);
    var f2 := Reparent(f1, id, target);
    UnlinkLinks(f, id, f.units[id].parentId);
    assert forall x | x in f2.units :: f2.units[x].children == f1.units[x].children;
    AttachLinks(f2, id, target);
  }

  lemma MoveLinkKept(f: Forest, id: Id, newParent: Option<Id>, x: Id, y: Id)
    requires id in f.units && x in f.units && y in f.units[x].children && y != id
    ensures y in MoveFn(f, id, newParent).units[x].children
  {
    var f1 := Unlink(f, id, f.units[id].parentId);
    UnlinkLinks(f, id, f.units[id].parentId);
    var f2 := Reparent(f1, id, OrNull(newParent));
    assert y in f2.units[x].children;
    AttachLinks(f2, id, OrNull(newParent));
  }

  lemma MoveLinkAdded(f: Forest, id: Id, newParent: Option<Id>)
    requires id in f.units && OrNull(newParent).Some? && OrNull(newParent).value in f.units
    ensures id in MoveFn(f, id, newParent).units[OrNull(newParent).value].children
  {
  }

  lemma UnlinkLinks(f: Forest, id: Id, parent: Option<Id>)
    ensures var g := Unlink(f, id, parent);
      && (forall x, y | x in f.units && y in f.units[x].children && y != id ::
            y in g.units[x].children)
      && (forall x, y | x in g.units && y in g.units[x].children :: y in f.units[x].children)
  {
  }

  lemma AttachLinks(f: Forest, id: Id, target: Option<Id>)
    ensures var g := Attach(f, id, target);
      && (forall x, y | x in f.units && y in f.units[x].children :: y in g.units[x].children)
      && (forall x, y | x in g.units && y in g.units[x].children ::
            y in f.units[x].children || (y == id && target == Some(x)))
      && (target.Some? && target.value in f.units ==> id in g.units[target.value].children)
  {
  }

  /**
   * moveUnit performs no cycle check: moving a unit under itself or under one of its own
   * descendants (a unit removeUnit(id) would delete) leaves the children links cyclic.
   */
  lemma MoveIntoSubtreeCycles(f: Forest, id: Id, q: Id, rank: map<Id, nat>)
    requires Ranked(f.units, rank) && id in f.units && q != ""
    requires q in Subtree(f, id, rank)
    ensures !Acyclic(MoveFn(f, id, Some(q)).units)
  {
    forall r2 ensures !Ranked(MoveFn(f, id, Some(q)).units, r2) {
      MoveIntoSubtreeUnranked(f, id, q, rank, r2);
    }
  }

  /**
   * No ranking fits the moved state: either the set of units ranked at most `id` is closed,
   * and then it holds `q`, which now lists `id` as a child; or a child link leaves it.
   */
  lemma MoveIntoSubtreeUnranked(f: Forest, id: Id, q: Id, rank: map<Id, nat>, r2: map<Id, nat>)
    requires Ranked(f.units, rank) && id in f.units && q != ""
    requires q in Subtree(f, id, rank)
    ensures !Ranked(MoveFn(f, id, Some(q)).units, r2)
  {
    var g := MoveFn(f, id, Some(q));
    if forall k | k in g.units :: k in r2 {
      var S := set x | x in f.units && r2[x] <= r2[id];
      if Closed(f.units, S) {
        SubtreeLeast(f, id, rank);
        assert q in S;
        MoveLinkAdded(f, id, Some(q));
        assert id in g.units[q].children && r2[q] <= r2[id];
      } else {
        LinkLeaving(f, id, Some(q), r2, S);
      }
    }
  }

  /** A child link that leaves the set of units ranked at most `id` is a bad link after the move. */
  lemma LinkLeaving(f: Forest, id: Id, newParent: Option<Id>, r2: map<Id, nat>, S: set<Id>)
    requires id in f.units && forall k | k in f.units :: k in r2
    requires S == set x | x in f.units && r2[x] <= r2[id]
    requires !Closed(f.units, S)
    ensures !Ranked(MoveFn(f, id, newParent).units, r2)
  {
    var x, y :| x in S && x in f.units && y in f.units[x].children && y in f.units && y !in S;
    MoveLinkKept(f, id, newParent, x, y);
    assert r2[x] < r2[y];
  }

  /**
   * Conversely, moving to any other target (none, a missing id, or a unit outside the
   * moved subtree) keeps the links acyclic.
   */
  lemma MoveOutsideSubtreeAcyclic(f: Forest, id: Id, newParent: Option<Id>, rank: map<Id, nat>)
    requires Ranked(f.units, rank) && id in f.units
    requires OrNull(newParent).Some? ==> OrNull(newParent).value !in Subtree(f, id, rank)
    ensures Acyclic(MoveFn(f, id, newParent).units)
  {
    var g := MoveFn(f, id, newParent);
    var D := Subtree(f, id, rank);
    SubtreeLeast(f, id, rank);
    MoveLinks(f, id, newParent);
    var r2 := map x | x in f.units :: if x in D then rank[x] else rank[x] + rank[id] + 1;
    forall x, y | x in g.units && y in g.units[x].children && y in g.units
      ensures r2[y] < r2[x]
    {
      if y in f.units[x].children {
        if x in D {
          assert y in D;
        }
      }
    }
    assert Ranked(g.units, r2);
  }

  /**
   * The two lemmas above together: the move keeps the links acyclic exactly when the target
   * is outside the subtree.
   */
  lemma MoveAcyclicIff(f: Forest, id: Id, newParent: Option<Id>, rank: map<Id, nat>)
    requires Ranked(f.units, rank) && id in f.units
    ensures Acyclic(MoveFn(f, id, newParent).units) <==>
      !(OrNull(newParent).Some? && OrNull(newParent).value in Subtree(f, id, rank))
  {
    var target := OrNull(newParent);
    if target.Some? && target.value in Subtree(f, id, rank) {
      assert newParent == Some(target.value);
      MoveIntoSubtreeCycles(f, id, target.value, rank);
    } else {
      MoveOutsideSubtreeAcyclic(f, id, newParent, rank);
    }
  }

  // ---------- getTree ----------

  lemma {:induction false} PresentIdsAll(units: map<Id, UnitRecord>, ids: seq<Id>)
    requires forall x | x in ids :: x in units
    ensures PresentIds(units, ids) == ids
  {
    if ids != [] {
      PresentIdsAll(units, ids[1..]);
    }
  }

  /** On a well-formed forest getTree has one node per root, in rootUnits order. */
  lemma TreeFollowsRoots(f: Forest, rank: map<Id, nat>)
    requires Wellformed(f) && RankedPart(f.units, rank)
    requires forall r | r in f.roots :: r in rank
    ensures UuidsOf(BuildRoots(f.units, f.roots, rank)) == f.roots
  {
    PresentIdsAll(f.units, f.roots);
  }

  /** ... and each node's children follow the unit's children list exactly. */
  lemma TreeFollowsChildren(f: Forest, rank: map<Id, nat>, id: Id)
    requires Indexed(f) && ChildrenBack(f) && RankedPart(f.units, rank)
    requires id in f.units && id in rank
    ensures UuidsOf(BuildNode(f.units, id, rank).value.children) == f.units[id].children
  {
    var cs := f.units[id].children;
    ChildrenPresent(f, id);
    PresentIdsAll(f.units, cs);
    assert KeyedByUuid(f.units);
  }

  lemma ChildrenPresent(f: Forest, id: Id)
    requires ChildrenBack(f) && id in f.units
    ensures forall x | x in f.units[id].children :: x in f.units
  {
  }

  // ---------- getStats ----------

  /** Each key is counted as often as it occurs, and only occurring keys are counted. */
  lemma {:induction false} TallyCounts(keys: seq<string>)
    ensures forall x :: x in Tally(keys) <==> x in keys
    ensures forall x | x in Tally(keys) :: Tally(keys)[x] == multiset(keys)[x]
  {
    if keys != [] {
      var init := keys[..|keys| - 1];
      TallyCounts(init);
      assert keys == init + [keys[|keys| - 1]];
    }
  }

  /** The sum of a map's values. */
  ghost function MapSum(m: map<string, nat>): nat
    decreases |m|
  {
    if m == map[] then 0
    else
      var k :| k in m;
      assert |m - {k}| < |m| by { assert m.Keys - {k} < m.Keys; }
      m[k] + MapSum(m - {k})
  }

  /** The sum does not depend on which key is taken first. */
  lemma {:induction false} MapSumRemove(m: map<string, nat>, k: string)
    requires k in m
    ensures MapSum(m) == m[k] + MapSum(m - {k})
    decreases |m|
  {
    var j :| j in m && MapSum(m) == m[j] + MapSum(m - {j});
    if j != k {
      assert |m - {j}| < |m| by { assert m.Keys - {j} < m.Keys; }
      assert |m - {k}| < |m| by { assert m.Keys - {k} < m.Keys; }
      MapSumRemove(m - {j}, k);
      MapSumRemove(m - {k}, j);
      assert m - {j} - {k} == m - {k} - {j};
    }
  }

  /** The byLevel (or byBranch) counts add up to the number of units counted. */
  lemma {:induction false} TallySum(keys: seq<string>)
    ensures MapSum(Tally(keys)) == |keys|
  {
    if keys != [] {
      var init := keys[..|keys| - 1];
      var k := keys[|keys| - 1];
      var m := Tally(init);
      TallySum(init);
      var m2 := Tally(keys);
      MapSumRemove(m2, k);
      if k in m {
        MapSumRemove(m, k);
        assert m2 - {k} == m - {k};
      } else {
        assert m2 - {k} == m;
      }
    }
  }

  /** getStats' total is the number of units in the Map. */
  lemma StatsTotal(f: Forest)
    requires Indexed(f)
    ensures |ValuesOf(f.units, f.order)| == |f.units|
  {
    NoDupCard(f.order);
    assert (set x | x in f.order) == f.units.Keys;
  }
}

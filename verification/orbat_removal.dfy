/**
 * What _removeUnitRecursive deletes (backend/services/ORBATService.js:82-103), in closed form.
 *
 * The removed set is the least set that contains the unit and every present child of each
 * of its members; each survivor loses exactly the removed units that named it as parent,
 * and the root list loses exactly the removed parentless units.
 */
module OrbatRemoval {
  import opened Wrappers
  import opened Seqs
  import opened UnitData
  import opened OrbatForest

  // ---------- the filters compose ----------

  lemma {:induction false} DropMembers(cs: seq<Id>, D: set<Id>, units: map<Id, UnitRecord>,
      k: Id)
    ensures forall x :: x in Drop(cs, D, units, k) <==>
      x in cs && !(x in D && x in units && AttachedTo(units[x], k))
  {
    if cs != [] { DropMembers(cs[1..], D, units, k); }
  }

  lemma {:induction false} DropNothing(cs: seq<Id>, units: map<Id, UnitRecord>, k: Id)
    ensures Drop(cs, {}, units, k) == cs
  {
    if cs != [] { DropNothing(cs[1..], units, k); }
  }

  lemma {:induction false} DropRootsNothing(rs: seq<Id>, units: map<Id, UnitRecord>)
    ensures DropRoots(rs, {}, units) == rs
  {
    if rs != [] { DropRootsNothing(rs[1..], units); }
  }

  lemma {:induction false} KeepAll(ks: seq<Id>)
    ensures Keep(ks, {}) == ks
  {
    if ks != [] { KeepAll(ks[1..]); }
  }

  lemma {:induction false} DropRootsMembers(rs: seq<Id>, D: set<Id>, units: map<Id, UnitRecord>)
    ensures forall x :: x in DropRoots(rs, D, units) <==>
      x in rs && !(x in D && x in units && !Attached(units[x]))
  {
    if rs != [] { DropRootsMembers(rs[1..], D, units); }
  }

  lemma {:induction false} KeepMembers(ks: seq<Id>, D: set<Id>)
    ensures forall x :: x in Keep(ks, D) <==> x in ks && x !in D
  {
    if ks != [] { KeepMembers(ks[1..], D); }
  }

  /** Dropping `D1` and then `D2` (read in a state that kept D2's parent links) drops both. */
  lemma {:induction false} DropTwice(cs: seq<Id>, D1: set<Id>, D2: set<Id>,
      u: map<Id, UnitRecord>, v: map<Id, UnitRecord>, k: Id)
    requires forall x | x in D2 :: x in u && x in v && v[x].parentId == u[x].parentId
    requires D1 !! D2
    ensures Drop(Drop(cs, D1, u, k), D2, v, k) == Drop(cs, D1 + D2, u, k)
  {
    if cs != [] {
      DropTwice(cs[1..], D1, D2, u, v, k);
    }
  }

  lemma {:induction false} DropRootsTwice(rs: seq<Id>, D1: set<Id>, D2: set<Id>,
      u: map<Id, UnitRecord>, v: map<Id, UnitRecord>)
    requires forall x | x in D2 :: x in u && x in v && v[x].parentId == u[x].parentId
    requires D1 !! D2
    ensures DropRoots(DropRoots(rs, D1, u), D2, v) == DropRoots(rs, D1 + D2, u)
  {
    if rs != [] {
      DropRootsTwice(rs[1..], D1, D2, u, v);
    }
  }

  lemma {:induction false} KeepTwice(ks: seq<Id>, D1: set<Id>, D2: set<Id>)
    ensures Keep(Keep(ks, D1), D2) == Keep(ks, D1 + D2)
  {
    if ks != [] { KeepTwice(ks[1..], D1, D2); }
  }

  lemma {:induction false} DropOne(cs: seq<Id>, id: Id, u: map<Id, UnitRecord>, k: Id)
    ensures Drop(cs, {id}, u, k) ==
      if id in u && AttachedTo(u[id], k) then Without(cs, id) else cs
  {
    if cs != [] { DropOne(cs[1..], id, u, k); }
  }

  lemma {:induction false} DropRootsOne(rs: seq<Id>, id: Id, u: map<Id, UnitRecord>)
    ensures DropRoots(rs, {id}, u) == if id in u && !Attached(u[id]) then Without(rs, id) else rs
  {
    if rs != [] { DropRootsOne(rs[1..], id, u); }
  }

  lemma {:induction false} KeepOne(ks: seq<Id>, id: Id)
    ensures Keep(ks, {id}) == Without(ks, id)
  {
    if ks != [] { KeepOne(ks[1..], id); }
  }

  // ---------- RemovedExactly composes ----------

  lemma RemovedNothing(f: Forest)
    ensures RemovedExactly(f, f, {})
  {
    forall k | k in f.units
      ensures f.units[k] == f.units[k].(children := Drop(f.units[k].children, {}, f.units, k))
    {
      DropNothing(f.units[k].children, f.units, k);
    }
    DropRootsNothing(f.roots, f.units);
    KeepAll(f.order);
  }

  lemma RemovedTrans(f: Forest, g: Forest, h: Forest, D1: set<Id>, D2: set<Id>)
    requires RemovedExactly(f, g, D1) && RemovedExactly(g, h, D2)
    ensures RemovedExactly(f, h, D1 + D2)
  {
    forall x | x in D2
      ensures x in f.units && x in g.units && g.units[x].parentId == f.units[x].parentId
    {
    }
    forall k | k in h.units
      ensures h.units[k] ==
        f.units[k].(children := Drop(f.units[k].children, D1 + D2, f.units, k))
    {
      DropTwice(f.units[k].children, D1, D2, f.units, g.units, k);
    }
    DropRootsTwice(f.roots, D1, D2, f.units, g.units);
    KeepTwice(f.order, D1, D2);
  }

  /** The last steps of _removeUnitRecursive remove exactly the unit itself. */
  lemma UnlinkDeleteRemovesOne(f: Forest, id: Id, parent: Option<Id>)
    requires id in f.units && f.units[id].parentId == parent
    ensures var g := Unlink(f, id, parent);
      RemovedExactly(f, g.(units := g.units - {id}, order := Without(g.order, id)), {id})
  {
    var g := Unlink(f, id, parent);
    var h := g.(units := g.units - {id}, order := Without(g.order, id));
    UnlinkDeleteSurvivors(f, id, parent);
    assert h.units.Keys == f.units.Keys - {id};
    DropRootsOne(f.roots, id, f.units);
    assert h.roots == DropRoots(f.roots, {id}, f.units);
    KeepOne(f.order, id);
    assert h.order == Keep(f.order, {id});
  }

  /**
   * Unlink: the named parent, when truthy and present, loses every occurrence of `id`;
   * without a truthy parent the root list loses it instead.
   */
  lemma UnlinkEffect(f: Forest, id: Id, parent: Option<Id>)
    ensures var g := Unlink(f, id, parent);
      && (forall k | k in f.units ::
            g.units[k] == if parent == Some(k) && k != "" then
              f.units[k].(children := Without(f.units[k].children, id))
            else f.units[k])
      && g.roots == if parent.Some? && parent.value != "" then f.roots else Without(f.roots, id)
  {
  }

  lemma UnlinkDeleteSurvivors(f: Forest, id: Id, parent: Option<Id>)
    requires id in f.units && f.units[id].parentId == parent
    ensures var g := Unlink(f, id, parent);
      var h := g.(units := g.units - {id}, order := Without(g.order, id));
      forall k | k in h.units ::
        h.units[k] == f.units[k].(children := Drop(f.units[k].children, {id}, f.units, k))
  {
    var g := Unlink(f, id, parent);
    var h := g.(units := g.units - {id}, order := Without(g.order, id));
    forall k | k in h.units
      ensures h.units[k] == f.units[k].(children := Drop(f.units[k].children, {id}, f.units, k))
    {
      DropOne(f.units[k].children, id, f.units, k);
    }
  }

  // ---------- closure ----------

  /** Removal only deletes links, so a closed set stays closed. */
  lemma ClosedAfterRemoval(f: Forest, g: Forest, D: set<Id>, S: set<Id>)
    requires RemovedExactly(f, g, D) && Closed(f.units, S)
    ensures Closed(g.units, S)
  {
    forall k | k in g.units {
      DropMembers(f.units[k].children, D, f.units, k);
    }
  }

  /** A set closed before a removal, followed by one closed after it, is closed overall. */
  lemma ClosedUnion(f: Forest, g: Forest, D1: set<Id>, D2: set<Id>)
    requires RemovedExactly(f, g, D1) && Closed(f.units, D1)
    requires D2 <= g.units.Keys && Closed(g.units, D2)
    ensures Closed(f.units, D1 + D2)
  {
    forall x, y | x in D1 + D2 && x in f.units && y in f.units[x].children && y in f.units
      ensures y in D1 + D2
    {
      if x in D2 && y !in D1 {
        DropMembers(f.units[x].children, D1, f.units, x);
        assert y in g.units[x].children;
      }
    }
  }

  // ---------- the closed form ----------

  /** The members of a list, as a set. */
  ghost function Elems(s: seq<Id>): set<Id> {
    set c | c in s
  }

  /** The present members of `seeds`. */
  ghost function Present(f: Forest, seeds: set<Id>): set<Id> {
    seeds * f.units.Keys
  }

  /**
   * `g` is `f` after removing the least closed set `D` that contains the present `seeds`,
   * with the links RemovedExactly describes; every removed unit is ranked below `bound`.
   */
  ghost predicate RemovalOf(f: Forest, g: Forest, seeds: set<Id>, rank: map<Id, nat>,
      bound: nat)
    requires RankedPart(f.units, rank)
  {
    var D := f.units.Keys - g.units.Keys;
    && RemovedExactly(f, g, D)
    && Present(f, seeds) <= D
    && Closed(f.units, D)
    && (forall S: set<Id> | Closed(f.units, S) && Present(f, seeds) <= S :: D <= S)
    && (forall x | x in D :: x in rank && rank[x] < bound)
  }

  lemma RemovalOfNothing(f: Forest, seeds: set<Id>, rank: map<Id, nat>, bound: nat)
    requires RankedPart(f.units, rank) && Present(f, seeds) == {}
    ensures RemovalOf(f, f, seeds, rank, bound)
  {
    assert f.units.Keys - f.units.Keys == {};
    RemovedNothing(f);
  }

  lemma RemovalOfCompose(f: Forest, f1: Forest, g: Forest, A: set<Id>, B: set<Id>,
      rank: map<Id, nat>, bound: nat)
    requires RankedPart(f.units, rank) && RankedPart(f1.units, rank)
    requires RemovalOf(f, f1, A, rank, bound) && RemovalOf(f1, g, B, rank, bound)
    ensures RemovalOf(f, g, A + B, rank, bound)
  {
    var D1 := f.units.Keys - f1.units.Keys;
    var D2 := f1.units.Keys - g.units.Keys;
    RemovedTrans(f, f1, g, D1, D2);
    assert f.units.Keys - g.units.Keys == D1 + D2;
    ClosedUnion(f, f1, D1, D2);
    forall S: set<Id> | Closed(f.units, S) && Present(f, A + B) <= S
      ensures D1 + D2 <= S
    {
      ClosedAfterRemoval(f, f1, D1, S);
    }
  }

  /**
   * _removeUnitRecursive(id), when no cycle is reachable from `id`, removes exactly the least
   * closed set that contains `id`; an absent id changes nothing.
   */
  lemma {:induction false} RemoveRecExact(f: Forest, id: Id, rank: map<Id, nat>)
    requires RankedPart(f.units, rank) && (id in f.units ==> id in rank)
    ensures id !in f.units ==> RemoveRec(f, id, rank) == f
    ensures id in f.units ==> RemovalOf(f, RemoveRec(f, id, rank), {id}, rank, rank[id] + 1)
    decreases if id in f.units then rank[id] else 0, 1
  {
    if id in f.units {
      var u := f.units[id];
      RemoveChildrenExact(f, u.children, 0, rank, rank[id]);
      assert u.children[0..] == u.children;
      RemovalOfFinish(f, id, rank, RemoveChildren(f, u.children, 0, rank, rank[id]));
    }
  }

  /** The unit's own unlink and delete, after its children have been removed. */
  lemma RemovalOfFinish(f: Forest, id: Id, rank: map<Id, nat>, f1: Forest)
    requires RankedPart(f.units, rank) && RankedPart(f1.units, rank)
    requires id in f.units && id in rank
    requires RemovalOf(f, f1, Elems(f.units[id].children), rank, rank[id])
    ensures var u := f.units[id];
      var f2 := Unlink(f1, id, u.parentId);
      RemovalOf(f, f2.(units := f2.units - {id}, order := Without(f2.order, id)), {id}, rank,
        rank[id] + 1)
  {
    var u := f.units[id];
    var f2 := Unlink(f1, id, u.parentId);
    var g := f2.(units := f2.units - {id}, order := Without(f2.order, id));
    var D1 := f.units.Keys - f1.units.Keys;
    FinishRemovesExactly(f, id, rank, f1);
    var D := f.units.Keys - g.units.Keys;
    assert D == D1 + {id};
    FinishClosed(f, id, D1);
    forall S: set<Id> | Closed(f.units, S) && Present(f, {id}) <= S
      ensures D <= S
    {
      assert Present(f, Elems(u.children)) <= S;
    }
  }

  lemma FinishRemovesExactly(f: Forest, id: Id, rank: map<Id, nat>, f1: Forest)
    requires RankedPart(f.units, rank) && RankedPart(f1.units, rank)
    requires id in f.units && id in rank
    requires RemovalOf(f, f1, Elems(f.units[id].children), rank, rank[id])
    ensures var f2 := Unlink(f1, id, f.units[id].parentId);
      var g := f2.(units := f2.units - {id}, order := Without(f2.order, id));
      RemovedExactly(f, g, (f.units.Keys - f1.units.Keys) + {id})
  {
    var u := f.units[id];
    var f2 := Unlink(f1, id, u.parentId);
    var g := f2.(units := f2.units - {id}, order := Without(f2.order, id));
    assert id in f1.units;
    UnlinkDeleteRemovesOne(f1, id, u.parentId);
    RemovedTrans(f, f1, g, f.units.Keys - f1.units.Keys, {id});
  }

  lemma FinishClosed(f: Forest, id: Id, D1: set<Id>)
    requires id in f.units && Closed(f.units, D1)
    requires Present(f, Elems(f.units[id].children)) <= D1
    ensures Closed(f.units, D1 + {id})
  {
    forall x, y | x in D1 + {id} && x in f.units && y in f.units[x].children && y in f.units
      ensures y in D1 + {id}
    {
      if x == id {
        assert y in Present(f, Elems(f.units[id].children));
      }
    }
  }

  lemma {:induction false} RemoveChildrenExact(f: Forest, cs: seq<Id>, i: nat,
      rank: map<Id, nat>, bound: nat)
    requires RankedPart(f.units, rank)
    requires i <= |cs|
    requires forall c | c in cs && c in f.units :: c in rank && rank[c] < bound
    ensures RemovalOf(f, RemoveChildren(f, cs, i, rank, bound), Elems(cs[i..]), rank,
      bound)
    decreases bound, 0, |cs| - i
  {
    var g := RemoveChildren(f, cs, i, rank, bound);
    if i == |cs| {
      RemovalOfNothing(f, Elems(cs[i..]), rank, bound);
    } else {
      var f1 := if cs[i] in f.units then RemoveRec(f, cs[i], rank) else f;
      RemoveOneChild(f, cs[i], rank, bound);
      assert g == RemoveChildren(f1, cs, i + 1, rank, bound);
      RemoveChildrenExact(f1, cs, i + 1, rank, bound);
      RemovalOfCompose(f, f1, g, {cs[i]}, Elems(cs[i + 1..]), rank, bound);
      assert cs[i..] == [cs[i]] + cs[i + 1..];
      assert Elems(cs[i..]) == {cs[i]} + Elems(cs[i + 1..]);
    }
  }

  /** One turn of the children loop removes exactly that child's subtree. */
  lemma RemoveOneChild(f: Forest, c: Id, rank: map<Id, nat>, bound: nat)
    requires RankedPart(f.units, rank)
    requires c in f.units ==> c in rank && rank[c] < bound
    ensures RemovalOf(f, if c in f.units then RemoveRec(f, c, rank) else f, {c}, rank, bound)
    decreases bound, 0, 0
  {
    if c in f.units {
      RemoveRecExact(f, c, rank);
      RemovalOfWeaken(f, RemoveRec(f, c, rank), {c}, rank, rank[c] + 1, bound);
    } else {
      RemovalOfNothing(f, {c}, rank, bound);
    }
  }

  lemma RemovalOfWeaken(f: Forest, g: Forest, seeds: set<Id>, rank: map<Id, nat>,
      b1: nat, b2: nat)
    requires RankedPart(f.units, rank) && b1 <= b2 && RemovalOf(f, g, seeds, rank, b1)
    ensures RemovalOf(f, g, seeds, rank, b2)
  {
  }
}

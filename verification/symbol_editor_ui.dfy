/**
 * The organisation-tree helpers of ui/managers/SymbolEditorUI.js and its letter-format
 * code builder. The organisation is a nested forest of plain objects: every node carries
 * its own `children` array, and the helpers walk it recursively.
 */
module OrgEditor {
  import opened Wrappers
  import opened UnitData
  import SymbolEditing
  import Seqs

  /** A node of `organization.units`. A missing `children` array is the empty sequence. */
  datatype OrgUnit = OrgUnit(id: string, sidc: string, name: string,
    designation: Option<string>, higherFormation: Option<string>, level: Option<string>,
    children: seq<OrgUnit>)

  /** The nodes of a forest in pre-order: a node, its descendants, then its later siblings. */
  function Flatten(ts: seq<OrgUnit>): (r: seq<OrgUnit>)
    decreases ts
    ensures |r| >= |ts|
    ensures forall t | t in ts :: t in r
  {
    if ts == [] then [] else [ts[0]] + Flatten(ts[0].children) + Flatten(ts[1..])
  }

  /** Pre-order of two forests side by side. */
  lemma {:induction false} FlattenAppend(a: seq<OrgUnit>, b: seq<OrgUnit>)
    ensures Flatten(a + b) == Flatten(a) + Flatten(b)
    decreases |a|
  {
    if a == [] {
      assert a + b == b;
    } else {
      assert (a + b)[0] == a[0] && (a + b)[1..] == a[1..] + b;
      FlattenAppend(a[1..], b);
    }
  }

  /** The number of nodes, roots and all descendants. */
  function Count(ts: seq<OrgUnit>): (n: nat)
    ensures n >= |ts|
    ensures n == 0 <==> ts == []
  {
    |Flatten(ts)|
  }

  /**
   * _countAllUnits: a loop over the level that counts each node and adds the recursive
   * count of a non-empty `children` array.
   */
  method CountAllUnits(units: seq<OrgUnit>) returns (count: nat)
    decreases units
    ensures count == Count(units)
  {
    count := 0;
    var i := 0;
    while i < |units|
      invariant 0 <= i <= |units|
      invariant count == Count(units[..i])
    {
      var unit := units[i];
      count := count + 1;
      if |unit.children| > 0 {
        var below := CountAllUnits(unit.children);
        count := count + below;
      }
      assert units[..i + 1] == units[..i] + [unit];
      FlattenAppend(units[..i], [unit]);
      assert Flatten([unit]) == [unit] + Flatten(unit.children) + Flatten([]);
      i := i + 1;
    }
    assert units[..i] == units;
  }

  /** The first node of a flat sequence with the id. */
  function FirstWithId(flat: seq<OrgUnit>, id: string): (r: Option<OrgUnit>)
    ensures r.None? <==> forall n | n in flat :: n.id != id
    ensures r.Some? ==> r.value in flat && r.value.id == id
  {
    if flat == [] then None
    else if flat[0].id == id then Some(flat[0])
    else FirstWithId(flat[1..], id)
  }

  lemma {:induction false} FirstWithIdAppend(a: seq<OrgUnit>, b: seq<OrgUnit>, id: string)
    ensures FirstWithId(a + b, id) ==
      if FirstWithId(a, id).Some? then FirstWithId(a, id) else FirstWithId(b, id)
  {
    if a == [] {
      assert a + b == b;
    } else {
      assert (a + b)[0] == a[0] && (a + b)[1..] == a[1..] + b;
      FirstWithIdAppend(a[1..], b, id);
    }
  }

  /**
   * _findUnit: a node's own id is checked, then its children, then its later siblings;
   * `null` is `None`.
   */
  function FindUnit(units: seq<OrgUnit>, id: string): (r: Option<OrgUnit>)
    decreases units
    ensures r.Some? ==> r.value.id == id
  {
    if units == [] then None
    else if units[0].id == id then Some(units[0])
    else match FindUnit(units[0].children, id)
      case Some(found) => Some(found)
      case None => FindUnit(units[1..], id)
  }

  /** _findUnit returns the first node with the id in pre-order, and null when there is none. */
  lemma {:induction false} FindIsFirstInPreorder(units: seq<OrgUnit>, id: string)
    decreases units
    ensures FindUnit(units, id) == FirstWithId(Flatten(units), id)
  {
    if units != [] {
      var head, below, rest := units[0], Flatten(units[0].children), Flatten(units[1..]);
      assert Flatten(units) == [head] + (below + rest);
      if head.id != id {
        FindIsFirstInPreorder(head.children, id);
        FindIsFirstInPreorder(units[1..], id);
        FirstWithIdAppend(below, rest, id);
        assert ([head] + (below + rest))[1..] == below + rest;
      }
    }
  }

  /** Some node of the forest has the id. */
  ghost predicate Has(units: seq<OrgUnit>, id: string) {
    exists n | n in Flatten(units) :: n.id == id
  }

  lemma FindFindsIff(units: seq<OrgUnit>, id: string)
    ensures FindUnit(units, id).Some? <==> Has(units, id)
  {
    FindIsFirstInPreorder(units, id);
  }

  /** `units.findIndex(u => u.id === id)`, with -1 as `None`. */
  function IndexOfId(units: seq<OrgUnit>, id: string): (r: Option<nat>)
    ensures r.Some? ==>
      r.value < |units| && units[r.value].id == id &&
      forall j | 0 <= j < r.value :: units[j].id != id
    ensures r.None? ==> forall j | 0 <= j < |units| :: units[j].id != id
  {
    if units == [] then None
    else if units[0].id == id then Some(0)
    else match IndexOfId(units[1..], id)
      case Some(k) => Some(k + 1)
      case None => None
  }

  /** What _removeUnitRecursive leaves behind, and the node it took out (`None` for false). */
  datatype Removal = Removal(units: seq<OrgUnit>, gone: Option<OrgUnit>)

  /**
   * _removeUnitRecursive: the current level is searched first and a match spliced out;
   * otherwise each node's children are tried in turn, stopping at the first success.
   */
  function RemoveUnit(units: seq<OrgUnit>, id: string): (r: Removal)
    decreases units, |units| + 1
    ensures r.gone.None? ==> r.units == units
    ensures |r.units| == if IndexOfId(units, id).Some? then |units| - 1 else |units|
  {
    match IndexOfId(units, id)
    case Some(k) => Removal(units[..k] + units[k + 1..], Some(units[k]))
    case None => RemoveBelow(units, id, 0)
  }

  /** The descent of _removeUnitRecursive: the children of node `i`, then of each later node. */
  function RemoveBelow(units: seq<OrgUnit>, id: string, i: nat): (r: Removal)
    requires i <= |units|
    decreases units, |units| - i
    ensures r.gone.None? ==> r.units == units
    ensures |r.units| == |units|
  {
    if i == |units| then Removal(units, None)
    else
      var r := RemoveUnit(units[i].children, id);
      if r.gone.Some? then Removal(units[i := units[i].(children := r.units)], r.gone)
      else RemoveBelow(units, id, i + 1)
  }

  /** Pre-order membership, level by level. */
  lemma {:induction false} InFlatten(units: seq<OrgUnit>, n: OrgUnit)
    ensures n in Flatten(units) <==>
      exists j | 0 <= j < |units| :: n == units[j] || n in Flatten(units[j].children)
  {
    if units != [] {
      InFlatten(units[1..], n);
      assert forall j | 1 <= j < |units| :: units[j] == units[1..][j - 1];
      if n in Flatten(units[1..]) {
        var j :| 0 <= j < |units[1..]| &&
          (n == units[1..][j] || n in Flatten(units[1..][j].children));
        assert n == units[j + 1] || n in Flatten(units[j + 1].children);
      }
      if exists j | 0 <= j < |units| :: n == units[j] || n in Flatten(units[j].children) {
        var j :| 0 <= j < |units| && (n == units[j] || n in Flatten(units[j].children));
        if j > 0 {
          assert units[j] == units[1..][j - 1];
        }
      }
    }
  }

  /** Pre-order over a forest split around position `i`. */
  lemma FlattenSplit(units: seq<OrgUnit>, i: nat)
    requires i < |units|
    ensures Flatten(units) ==
      Flatten(units[..i]) + Flatten([units[i]]) + Flatten(units[i + 1..])
    ensures Flatten([units[i]]) == [units[i]] + Flatten(units[i].children)
  {
    var x := units[i];
    FlattenOne(x);
    Seqs.SplitAt(units, i);
    FlattenAppend(units[..i], [x] + units[i + 1..]);
    FlattenAppend([x], units[i + 1..]);
    Seqs.AppendAssoc(Flatten(units[..i]), Flatten([x]), Flatten(units[i + 1..]));
  }

  /** The pre-order of one node: the node, then its descendants. */
  lemma FlattenOne(x: OrgUnit)
    ensures Flatten([x]) == [x] + Flatten(x.children)
  {
    assert [x][1..] == [];
    assert Flatten([x]) == [x] + Flatten(x.children) + Flatten([]);
  }

  /** Counting over a forest split around position `i`. */
  lemma CountSplit(units: seq<OrgUnit>, i: nat)
    requires i < |units|
    ensures Count(units) ==
      Count(units[..i]) + 1 + Count(units[i].children) + Count(units[i + 1..])
  {
    FlattenSplit(units, i);
  }

  /** A node without its `children` array: the fields the node itself carries. */
  function Own(n: OrgUnit): OrgUnit {
    n.(children := [])
  }

  /** A sequence of nodes, each reduced to its own fields. */
  function Owns(ns: seq<OrgUnit>): seq<OrgUnit> {
    seq(|ns|, i requires 0 <= i < |ns| => Own(ns[i]))
  }

  lemma OwnsAppend(a: seq<OrgUnit>, b: seq<OrgUnit>)
    ensures Owns(a + b) == Owns(a) + Owns(b)
  {
    assert forall i | 0 <= i < |a + b| :: Owns(a + b)[i] == (Owns(a) + Owns(b))[i];
  }

  /** `before` is `after` with `mid` inserted at position `p`. */
  ghost predicate SplicedAt<T>(before: seq<T>, after: seq<T>, mid: seq<T>, p: int) {
    0 <= p <= |after| && before == after[..p] + mid + after[p..]
  }

  lemma SplicedFrame<T>(a: seq<T>, b: seq<T>, before: seq<T>, after: seq<T>, mid: seq<T>,
      p: int)
    requires SplicedAt(before, after, mid, p)
    ensures SplicedAt(a + before + b, a + after + b, mid, |a| + p)
  {
    var x := a + after + b;
    assert x[..|a| + p] == a + after[..p];
    assert x[|a| + p..] == after[p..] + b;
  }

  /**
   * In pre-order, the removal cuts out one contiguous run, the removed node followed by its
   * descendants, and leaves every other node's own fields in their order.
   */
  lemma {:induction false} RemoveUnitSplices(units: seq<OrgUnit>, id: string)
    decreases units, |units| + 1
    ensures var r := RemoveUnit(units, id);
      r.gone.Some? ==> exists p :: SplicedAt(Owns(Flatten(units)), Owns(Flatten(r.units)),
        Owns(Flatten([r.gone.value])), p)
  {
    match IndexOfId(units, id)
    case Some(k) =>
      var A, G, B := Flatten(units[..k]), Flatten([units[k]]), Flatten(units[k + 1..]);
      FlattenSplit(units, k);
      FlattenAppend(units[..k], units[k + 1..]);
      OwnsAppend(A + G, B);
      OwnsAppend(A, G);
      OwnsAppend(A, B);
      assert SplicedAt(Owns(G), [], Owns(G), 0);
      SplicedFrame(Owns(A), Owns(B), Owns(G), [], Owns(G), 0);
      assert Owns(A) + [] + Owns(B) == Owns(Flatten(RemoveUnit(units, id).units));
      assert SplicedAt(Owns(Flatten(units)), Owns(Flatten(RemoveUnit(units, id).units)),
        Owns(G), |Owns(A)|);
    case None =>
      RemoveBelowSplices(units, id, 0);
  }

  lemma {:induction false} RemoveBelowSplices(units: seq<OrgUnit>, id: string, i: nat)
    requires i <= |units|
    decreases units, |units| - i
    ensures var r := RemoveBelow(units, id, i);
      r.gone.Some? ==> exists p :: SplicedAt(Owns(Flatten(units)), Owns(Flatten(r.units)),
        Owns(Flatten([r.gone.value])), p)
  {
    if i < |units| {
      var c := RemoveUnit(units[i].children, id);
      if c.gone.Some? {
        RemoveUnitSplices(units[i].children, id);
        var M := Owns(Flatten([c.gone.value]));
        var p' :| SplicedAt(Owns(Flatten(units[i].children)), Owns(Flatten(c.units)), M, p');
        var v := units[i := units[i].(children := c.units)];
        FlattenSplit(units, i);
        FlattenSplit(v, i);
        assert v[..i] == units[..i] && v[i + 1..] == units[i + 1..];
        var A, B := Flatten(units[..i]), Flatten(units[i + 1..]);
        OwnsAppend([units[i]], Flatten(units[i].children));
        OwnsAppend([v[i]], Flatten(c.units));
        assert Owns([v[i]]) == Owns([units[i]]);
        SplicedFrame(Owns([units[i]]), [], Owns(Flatten(units[i].children)),
          Owns(Flatten(c.units)), M, p');
        assert Owns([units[i]]) + Owns(Flatten(units[i].children)) + []
          == Owns(Flatten([units[i]]));
        assert Owns([v[i]]) + Owns(Flatten(c.units)) + [] == Owns(Flatten([v[i]]));
        OwnsAppend(A + Flatten([units[i]]), B);
        OwnsAppend(A, Flatten([units[i]]));
        OwnsAppend(A + Flatten([v[i]]), B);
        OwnsAppend(A, Flatten([v[i]]));
        SplicedFrame(Owns(A), Owns(B), Owns(Flatten([units[i]])), Owns(Flatten([v[i]])), M,
          |Owns([units[i]])| + p');
      } else {
        assert RemoveBelow(units, id, i) == RemoveBelow(units, id, i + 1);
        RemoveBelowSplices(units, id, i + 1);
      }
    }
  }

  /** A node replaced by one with other children changes the count by the difference. */
  lemma CountReplace(units: seq<OrgUnit>, i: nat, cs: seq<OrgUnit>)
    requires i < |units|
    ensures Count(units[i := units[i].(children := cs)]) + Count(units[i].children) ==
      Count(units) + Count(cs)
  {
    var v := units[i := units[i].(children := cs)];
    CountSplit(units, i);
    CountSplit(v, i);
    assert v[..i] == units[..i] && v[i + 1..] == units[i + 1..];
  }

  /**
   * _removeUnitRecursive returns true exactly when some node has the id; then that node
   * and its whole subtree are gone, and otherwise nothing changes.
   */
  lemma {:induction false} RemoveUnitSpec(units: seq<OrgUnit>, id: string)
    decreases units, |units| + 1
    ensures var r := RemoveUnit(units, id);
      (r.gone.Some? <==> Has(units, id)) &&
      (r.gone.None? ==> r.units == units) &&
      (r.gone.Some? ==>
        r.gone.value.id == id && r.gone.value in Flatten(units) &&
        Count(r.units) + 1 + Count(r.gone.value.children) == Count(units))
    // a match on the level: the first one is spliced out
    ensures forall k | IndexOfId(units, id) == Some(k) ::
      RemoveUnit(units, id) == Removal(units[..k] + units[k + 1..], Some(units[k]))
    // none on the level: the first node whose subtree has the id is the one edited
    ensures IndexOfId(units, id).None? && Has(units, id) ==> EditsFirstBelow(units, id, 0)
  {
    match IndexOfId(units, id)
    case Some(k) =>
      CountSplit(units, k);
      FlattenAppend(units[..k], units[k + 1..]);
      InFlatten(units, units[k]);
    case None =>
      RemoveBelowSpec(units, id, 0);
      RemoveBelowFirst(units, id, 0);
  }

  lemma {:induction false} RemoveBelowSpec(units: seq<OrgUnit>, id: string, i: nat)
    requires i <= |units|
    requires forall j | 0 <= j < |units| :: units[j].id != id
    decreases units, |units| - i
    ensures var r := RemoveBelow(units, id, i);
      (r.gone.Some? <==> exists j | i <= j < |units| :: Has(units[j].children, id)) &&
      (r.gone.None? ==> r.units == units) &&
      (r.gone.Some? ==>
        r.gone.value.id == id && r.gone.value in Flatten(units) &&
        Count(r.units) + 1 + Count(r.gone.value.children) == Count(units))
    ensures i == 0 ==> (RemoveBelow(units, id, i).gone.Some? <==> Has(units, id))
  {
    if i < |units| {
      RemoveUnitSpec(units[i].children, id);
      var r := RemoveUnit(units[i].children, id);
      if r.gone.Some? {
        CountReplace(units, i, r.units);
        InFlatten(units, r.gone.value);
      } else {
        RemoveBelowSpec(units, id, i + 1);
      }
    }
    if i == 0 {
      HasByLevel(units, id);
    }
  }

  /**
   * The removal from `units`, looking below positions `i` on, edited the first node `j`
   * whose subtree has the id: its children are what the removal from them leaves.
   */
  ghost predicate EditsFirstBelow(units: seq<OrgUnit>, id: string, i: nat)
    requires i <= |units|
  {
    exists j | i <= j < |units| ::
      && Has(units[j].children, id)
      && (forall l | i <= l < j :: !Has(units[l].children, id))
      && var c := RemoveUnit(units[j].children, id);
         RemoveBelow(units, id, i) == Removal(units[j := units[j].(children := c.units)], c.gone)
  }

  lemma {:induction false} RemoveBelowFirst(units: seq<OrgUnit>, id: string, i: nat)
    requires i <= |units|
    decreases units, |units| - i
    ensures RemoveBelow(units, id, i).gone.Some? ==> EditsFirstBelow(units, id, i)
  {
    if i < |units| {
      RemoveUnitSpec(units[i].children, id);
      var c := RemoveUnit(units[i].children, id);
      if c.gone.None? {
        assert RemoveBelow(units, id, i) == RemoveBelow(units, id, i + 1);
        RemoveBelowFirst(units, id, i + 1);
        if RemoveBelow(units, id, i).gone.Some? {
          var j :| i + 1 <= j < |units| && Has(units[j].children, id)
            && (forall l | i + 1 <= l < j :: !Has(units[l].children, id))
            && var c' := RemoveUnit(units[j].children, id);
               RemoveBelow(units, id, i + 1) ==
                 Removal(units[j := units[j].(children := c'.units)], c'.gone);
          assert !Has(units[i].children, id);
        }
      }
    }
  }

  /** With no match on the level itself, a match lies in some node's subtree. */
  lemma HasByLevel(units: seq<OrgUnit>, id: string)
    requires forall j | 0 <= j < |units| :: units[j].id != id
    ensures Has(units, id) <==> exists j | 0 <= j < |units| :: Has(units[j].children, id)
  {
    if Has(units, id) {
      var n :| n in Flatten(units) && n.id == id;
      InFlatten(units, n);
    }
    if exists j | 0 <= j < |units| :: Has(units[j].children, id) {
      var j :| 0 <= j < |units| && Has(units[j].children, id);
      var n :| n in Flatten(units[j].children) && n.id == id;
      InFlatten(units, n);
    }
  }

  /**
   * The level is checked before descending: a match among the roots is removed even when
   * a node with the same id comes earlier in pre-order, inside a previous root.
   */
  lemma RemoveChecksLevelFirst()
    ensures var inner := OrgUnit("x", "", "inner", None, None, None, []);
      var outer := OrgUnit("x", "", "outer", None, None, None, []);
      var units := [OrgUnit("a", "", "a", None, None, None, [inner]), outer];
      FindUnit(units, "x") == Some(inner) && RemoveUnit(units, "x").gone == Some(outer)
  {
    var inner := OrgUnit("x", "", "inner", None, None, None, []);
    var outer := OrgUnit("x", "", "outer", None, None, None, []);
    var units := [OrgUnit("a", "", "a", None, None, None, [inner]), outer];
    assert units[0].id != "x" && units[1..] == [outer];
    assert FindUnit(units[0].children, "x") == Some(inner);
    assert IndexOfId(units[1..], "x") == Some(0);
    assert IndexOfId(units, "x") == Some(1);
  }

  /** The fields _addSymbolUnitToTree reads from its symbol data. */
  datatype SymbolData = SymbolData(sidc: string, designation: Option<string>,
    name: Option<string>, higherFormation: Option<string>, level: Option<string>)

  /** The unit _addSymbolUnitToTree creates; the time-based id is a parameter. */
  function NewOrgUnit(data: SymbolData, id: string): (u: OrgUnit)
    ensures u.id == id && u.sidc == data.sidc && u.children == []
    ensures data.designation.Some? && data.designation.value != "" ==>
      u.name == data.designation.value
    ensures (data.designation.None? || data.designation.value == "") ==>
      u.name == OrString(data.name, "新建單位")
  {
    OrgUnit(id, data.sidc, OrString(data.designation, OrString(data.name, "新建單位")),
      data.designation, data.higherFormation, data.level, [])
  }

  /** `parent.children.push(unit)` on the node _findUnit returns. */
  function AppendUnder(units: seq<OrgUnit>, parentId: string, u: OrgUnit): (r: seq<OrgUnit>)
    requires FindUnit(units, parentId).Some?
    decreases units
    ensures |r| == |units|
  {
    if units[0].id == parentId then
      [units[0].(children := units[0].children + [u])] + units[1..]
    else if FindUnit(units[0].children, parentId).Some? then
      [units[0].(children := AppendUnder(units[0].children, parentId, u))] + units[1..]
    else [units[0]] + AppendUnder(units[1..], parentId, u)
  }

  /** After the push, the parent _findUnit finds has the new unit as its last child. */
  lemma {:induction false} AppendUnderFound(units: seq<OrgUnit>, parentId: string, u: OrgUnit)
    requires FindUnit(units, parentId).Some?
    decreases units
    ensures var p := FindUnit(units, parentId).value;
      FindUnit(AppendUnder(units, parentId, u), parentId) == Some(p.(children := p.children + [u]))
  {
    var r := AppendUnder(units, parentId, u);
    if units[0].id != parentId {
      if FindUnit(units[0].children, parentId).Some? {
        AppendUnderFound(units[0].children, parentId, u);
      } else {
        AppendUnderFound(units[1..], parentId, u);
        assert r[1..] == AppendUnder(units[1..], parentId, u);
      }
    }
  }

  /**
   * `flat2` is the pre-order `flat` with the nodes `mid` inserted right after the subtree of
   * the node at `q`, the first with id `pid`; every node keeps its own fields and its place.
   */
  ghost predicate InsertedAt(flat: seq<OrgUnit>, flat2: seq<OrgUnit>, pid: string,
      mid: seq<OrgUnit>, q: int)
  {
    && 0 <= q < |flat|
    && flat[q].id == pid
    && (forall j | 0 <= j < q :: flat[j].id != pid)
    && SplicedAt(Owns(flat2), Owns(flat), Owns(mid), q + |Flatten([flat[q]])|)
  }

  ghost predicate InsertedAfterSubtree(flat: seq<OrgUnit>, flat2: seq<OrgUnit>, pid: string,
      mid: seq<OrgUnit>)
  {
    exists q :: InsertedAt(flat, flat2, pid, mid, q)
  }

  /** In pre-order, the push inserts the new unit after all of the parent's descendants. */
  lemma {:induction false} AppendUnderSplices(units: seq<OrgUnit>, parentId: string, u: OrgUnit)
    requires FindUnit(units, parentId).Some?
    decreases units
    ensures InsertedAfterSubtree(Flatten(units), Flatten(AppendUnder(units, parentId, u)),
      parentId, Flatten([u]))
  {
    var x, rest := units[0], units[1..];
    if x.id == parentId {
      AppendAtHead(units, parentId, u);
    } else if FindUnit(x.children, parentId).Some? {
      AppendUnderSplices(x.children, parentId, u);
      var q' :| InsertedAt(Flatten(x.children), Flatten(AppendUnder(x.children, parentId, u)),
        parentId, Flatten([u]), q');
      AppendInFirst(units, parentId, u, q');
    } else {
      AppendUnderSplices(rest, parentId, u);
      var q' :| InsertedAt(Flatten(rest), Flatten(AppendUnder(rest, parentId, u)), parentId,
        Flatten([u]), q');
      AppendAfterFirst(units, parentId, u, q');
    }
  }

  /** The parent is the first root: the new unit follows the root's descendants. */
  lemma AppendAtHead(units: seq<OrgUnit>, parentId: string, u: OrgUnit)
    requires |units| > 0 && units[0].id == parentId
    ensures InsertedAt(Flatten(units), Flatten(AppendUnder(units, parentId, u)), parentId,
      Flatten([u]), 0)
  {
    var x, rest := units[0], units[1..];
    var r := AppendUnder(units, parentId, u);
    var x' := r[0];
    var Fc, U, F1 := Flatten(x.children), Flatten([u]), Flatten(rest);
    assert r[1..] == rest;
    FlattenAppend(x.children, [u]);
    Seqs.AppendAssoc([x'], Fc, U);
    assert Flatten(r) == [x'] + Fc + U + F1;
    FlattenOne(x);
    SpliceAfterHead(x, x', Fc, U, F1);
  }

  /** Inserting `mid` between a node's subtree and the rest, with the node's own fields kept. */
  lemma SpliceAfterHead(x: OrgUnit, x': OrgUnit, fc: seq<OrgUnit>, mid: seq<OrgUnit>,
      rest: seq<OrgUnit>)
    requires Own(x') == Own(x)
    ensures SplicedAt(Owns([x'] + fc + mid + rest), Owns([x] + fc + rest), Owns(mid),
      |[x] + fc|)
  {
    var M := Owns(mid);
    OwnsAppend([x'] + fc + mid, rest);
    OwnsAppend([x'] + fc, mid);
    OwnsAppend([x] + fc, rest);
    assert Owns([x'] + fc) == Owns([x] + fc) by {
      OwnsAppend([x'], fc);
      OwnsAppend([x], fc);
    }
    assert SplicedAt(M, [], M, 0);
    SplicedFrame(Owns([x] + fc), Owns(rest), M, [], M, 0);
  }

  /** The parent lies below the first root: the insertion shifts by that root. */
  lemma AppendInFirst(units: seq<OrgUnit>, parentId: string, u: OrgUnit, q': int)
    requires |units| > 0 && units[0].id != parentId
    requires FindUnit(units[0].children, parentId).Some?
    requires InsertedAt(Flatten(units[0].children),
      Flatten(AppendUnder(units[0].children, parentId, u)), parentId, Flatten([u]), q')
    ensures InsertedAt(Flatten(units), Flatten(AppendUnder(units, parentId, u)), parentId,
      Flatten([u]), 1 + q')
  {
    var x, rest := units[0], units[1..];
    var r := AppendUnder(units, parentId, u);
    assert r[1..] == rest;
    assert Owns([r[0]]) == Owns([x]);
    var C, C2 := Flatten(x.children), Flatten(AppendUnder(x.children, parentId, u));
    assert Flatten(r) == [r[0]] + C2 + Flatten(rest);
    InsertedShift([x], [r[0]], C, C2, Flatten(rest), parentId, Flatten([u]), q');
  }

  /** The parent comes after the first root's subtree: the insertion shifts by all of it. */
  lemma AppendAfterFirst(units: seq<OrgUnit>, parentId: string, u: OrgUnit, q': int)
    requires |units| > 0 && units[0].id != parentId
    requires FindUnit(units[0].children, parentId).None?
    requires FindUnit(units[1..], parentId).Some?
    requires InsertedAt(Flatten(units[1..]), Flatten(AppendUnder(units[1..], parentId, u)),
      parentId, Flatten([u]), q')
    ensures InsertedAt(Flatten(units), Flatten(AppendUnder(units, parentId, u)), parentId,
      Flatten([u]), |Flatten([units[0]])| + q')
  {
    var x, rest := units[0], units[1..];
    var r := AppendUnder(units, parentId, u);
    assert r[0] == x && r[1..] == AppendUnder(rest, parentId, u);
    var X := Flatten([x]);
    NotInSubtree(x, parentId);
    var F1, F2 := Flatten(rest), Flatten(AppendUnder(rest, parentId, u));
    FlattenHead(units);
    FlattenHead(r);
    InsertedAfterPrefix(Flatten(units), Flatten(r), X, F1, F2, parentId, Flatten([u]), q');
  }

  /** The pre-order of a forest: that of its first tree, then that of the others. */
  lemma FlattenHead(units: seq<OrgUnit>)
    requires |units| > 0
    ensures Flatten(units) == Flatten([units[0]]) + Flatten(units[1..]) + []
  {
    FlattenOne(units[0]);
  }

  /** A tree whose root and descendants lack the id has no node with it in pre-order. */
  lemma NotInSubtree(x: OrgUnit, id: string)
    requires x.id != id && FindUnit(x.children, id).None?
    ensures forall j | 0 <= j < |Flatten([x])| :: Flatten([x])[j].id != id
  {
    assert [x][1..] == [];
    FindIsFirstInPreorder([x], id);
    var X := Flatten([x]);
    assert forall j | 0 <= j < |X| :: X[j] in X;
  }

  /** The insertion survives a prefix without the id. */
  lemma InsertedAfterPrefix(flat: seq<OrgUnit>, flat2: seq<OrgUnit>, pre: seq<OrgUnit>,
      fl: seq<OrgUnit>, fl2: seq<OrgUnit>, pid: string, mid: seq<OrgUnit>, q': int)
    requires flat == pre + fl + [] && flat2 == pre + fl2 + []
    requires forall j | 0 <= j < |pre| :: pre[j].id != pid
    requires InsertedAt(fl, fl2, pid, mid, q')
    ensures InsertedAt(flat, flat2, pid, mid, |pre| + q')
  {
    InsertedShift(pre, pre, fl, fl2, [], pid, mid, q');
  }

  /** The insertion survives a common suffix and prefixes without the id and with equal fields. */
  lemma InsertedShift(pre: seq<OrgUnit>, pre2: seq<OrgUnit>, fl: seq<OrgUnit>,
      fl2: seq<OrgUnit>, post: seq<OrgUnit>, pid: string, mid: seq<OrgUnit>, q': int)
    requires Owns(pre) == Owns(pre2) && forall j | 0 <= j < |pre| :: pre[j].id != pid
    requires InsertedAt(fl, fl2, pid, mid, q')
    ensures InsertedAt(pre + fl + post, pre2 + fl2 + post, pid, mid, |pre| + q')
  {
    var big, big2 := pre + fl + post, pre2 + fl2 + post;
    var q := |pre| + q';
    ShiftFirst(pre, fl, post, pid, q');
    var size := |Flatten([fl[q']])|;
    ShiftSplice(pre, pre2, fl, fl2, post, mid, q' + size);
    assert [big[q]] == [fl[q']];
    assert InsertedAt(big, big2, pid, mid, q);
  }

  lemma ShiftFirst(pre: seq<OrgUnit>, fl: seq<OrgUnit>, post: seq<OrgUnit>, pid: string,
      q': int)
    requires forall j | 0 <= j < |pre| :: pre[j].id != pid
    requires 0 <= q' < |fl| && forall j | 0 <= j < q' :: fl[j].id != pid
    ensures (pre + fl + post)[|pre| + q'] == fl[q']
    ensures forall j | 0 <= j < |pre| + q' :: (pre + fl + post)[j].id != pid
  {
    var big := pre + fl + post;
    forall j | 0 <= j < |pre| + q'
      ensures big[j].id != pid
    {
      if j < |pre| {
        assert big[j] == pre[j];
      } else {
        assert big[j] == fl[j - |pre|];
      }
    }
  }

  lemma ShiftSplice(pre: seq<OrgUnit>, pre2: seq<OrgUnit>, fl: seq<OrgUnit>,
      fl2: seq<OrgUnit>, post: seq<OrgUnit>, mid: seq<OrgUnit>, p: int)
    requires Owns(pre) == Owns(pre2)
    requires SplicedAt(Owns(fl2), Owns(fl), Owns(mid), p)
    ensures SplicedAt(Owns(pre2 + fl2 + post), Owns(pre + fl + post), Owns(mid), |pre| + p)
  {
    var A, P := Owns(pre), Owns(post);
    assert Owns(pre + fl + post) == A + Owns(fl) + P by {
      OwnsAppend(pre + fl, post);
      OwnsAppend(pre, fl);
    }
    assert Owns(pre2 + fl2 + post) == A + Owns(fl2) + P by {
      OwnsAppend(pre2 + fl2, post);
      OwnsAppend(pre2, fl2);
    }
    SplicedFrame(A, P, Owns(fl2), Owns(fl), Owns(mid), p);
    SplicedEq(Owns(pre2 + fl2 + post), Owns(pre + fl + post), A + Owns(fl2) + P,
      A + Owns(fl) + P, Owns(mid), |A| + p, |pre| + p);
  }

  lemma SplicedEq<T>(x: seq<T>, y: seq<T>, x': seq<T>, y': seq<T>, mid: seq<T>, p: int,
      p': int)
    requires SplicedAt(x', y', mid, p) && x == x' && y == y' && p == p'
    ensures SplicedAt(x, y, mid, p')
  {
  }

  /** The push adds exactly the new unit's nodes. */
  lemma {:induction false} AppendUnderCount(units: seq<OrgUnit>, parentId: string, u: OrgUnit)
    requires FindUnit(units, parentId).Some?
    decreases units
    ensures Count(AppendUnder(units, parentId, u)) == Count(units) + Count([u])
  {
    var r := AppendUnder(units, parentId, u);
    assert units == [units[0]] + units[1..];
    CountSplit(units, 0);
    CountSplit(r, 0);
    assert r[1..] == (if units[0].id == parentId || FindUnit(units[0].children, parentId).Some?
      then units[1..] else AppendUnder(units[1..], parentId, u));
    if units[0].id == parentId {
      FlattenAppend(units[0].children, [u]);
    } else if FindUnit(units[0].children, parentId).Some? {
      AppendUnderCount(units[0].children, parentId, u);
    } else {
      AppendUnderCount(units[1..], parentId, u);
    }
    assert units[..0] == [] && r[..0] == [];
  }

  /** _addSymbolUnitToTree's effect on `organization.units`; `refused` is the toast path. */
  datatype Addition = Addition(units: seq<OrgUnit>, refused: bool)

  function AddToTree(units: seq<OrgUnit>, u: OrgUnit, parentId: Option<string>): (r: Addition)
    ensures r.refused <==> OrNull(parentId).None? && |units| > 0
    ensures r.refused ==> r.units == units
    ensures OrNull(parentId).None? && units == [] ==> r.units == [u]
    ensures OrNull(parentId).Some? && FindUnit(units, parentId.value).None? ==> r.units == units + [u]
  {
    if OrNull(parentId).Some? then
      if FindUnit(units, parentId.value).Some? then
        Addition(AppendUnder(units, parentId.value, u), false)
      else Addition(units + [u], false)
    else if |units| > 0 then Addition(units, true)
    else Addition(units + [u], false)
  }

  /** Every accepted addition adds exactly the new unit's nodes. */
  lemma AddToTreeCount(units: seq<OrgUnit>, u: OrgUnit, parentId: Option<string>)
    ensures var r := AddToTree(units, u, parentId);
      !r.refused ==> Count(r.units) == Count(units) + Count([u])
  {
    if OrNull(parentId).Some? && FindUnit(units, parentId.value).Some? {
      AppendUnderCount(units, parentId.value, u);
    } else {
      FlattenAppend(units, [u]);
    }
  }

  /** Through the parentless path the root list never grows past one unit. */
  lemma ParentlessAtMostOneRoot(units: seq<OrgUnit>, u: OrgUnit)
    requires |units| <= 1
    ensures |AddToTree(units, u, None).units| <= 1
  {
  }

  /** `currentValues`; identity, level and branchType appear only once loadFromSIDC runs. */
  datatype CurrentValues = CurrentValues(affiliation: string, dimension: string,
    functionId: string, echelon: string, designation: string, higherFormation: string,
    status: string, identity: Option<string>, level: Option<string>,
    branchType: Option<string>)

  const DefaultValues := CurrentValues("F", "G", "UCI----", "F", "", "", "", None, None, None)

  /** _generateSIDC: 'S', affiliation, dimension, 'A' for status '1' else 'P', function id, echelon. */
  function GenerateSidc(v: CurrentValues): (sidc: string)
    ensures |sidc| == 2 + |v.affiliation| + |v.dimension| + |v.functionId| + |v.echelon|
    ensures sidc[0] == 'S'
    ensures sidc[1 + |v.affiliation| + |v.dimension|] == if v.status == "1" then 'A' else 'P'
  {
    var stat := if v.status == "1" then "A" else "P";
    var head := "S" + v.affiliation + v.dimension;
    assert (head + stat)[|head|] == stat[0];
    head + stat + v.functionId + v.echelon
  }

  /** Where the letters sit for one-letter affiliation, dimension and echelon. */
  lemma GenerateSidcLayout(v: CurrentValues)
    requires |v.affiliation| == 1 && |v.dimension| == 1 && |v.echelon| == 1
    ensures var sidc := GenerateSidc(v);
      sidc[1] == v.affiliation[0] && sidc[2] == v.dimension[0] &&
      sidc[4..4 + |v.functionId|] == v.functionId && sidc[|sidc| - 1] == v.echelon[0]
  {
    var stat := if v.status == "1" then "A" else "P";
    var sidc := "S" + v.affiliation + v.dimension + stat + v.functionId + v.echelon;
    assert GenerateSidc(v) == sidc;
    assert sidc[4..4 + |v.functionId|] == v.functionId;
  }

  /** The panel's defaults give a 12-character code, which loadFromSIDC would ignore. */
  lemma DefaultCodeIsTwelve()
    ensures GenerateSidc(DefaultValues) == "SFGPUCI----F"
  {
  }

  /** `Table.find(opt => opt.sidc === c)`'s value, or `None`. */
  function ValueByCode(table: seq<SymbolEditing.Choice>, c: char): (r: Option<string>)
    ensures r.Some? <==> exists j | 0 <= j < |table| :: table[j].code == [c]
  {
    match SymbolEditing.FirstByCode(table, [c])
    case Some(i) => Some(table[i].value)
    case None => None
  }

  /**
   * loadFromSIDC as written: only a 15-character code is read, and it sets `identity`,
   * the dimension WORD, `level` and `branchType`, none of which _generateSIDC reads
   * except `dimension`.
   */
  function LoadFromSidc(v: CurrentValues, sidc: string): (r: CurrentValues)
    ensures |sidc| != 15 ==> r == v
    ensures r.affiliation == v.affiliation && r.functionId == v.functionId
    ensures r.echelon == v.echelon && r.status == v.status
    ensures |sidc| == 15 ==>
      r.dimension == ValueByCode(SymbolEditing.DimensionOptions, sidc[2]).GetOr(v.dimension)
  {
    if |sidc| != 15 then v
    else
      var identity := ValueByCode(SymbolEditing.IdentityOptions, sidc[1]);
      var dimension := ValueByCode(SymbolEditing.DimensionOptions, sidc[2]);
      var level := ValueByCode(SymbolEditing.LevelOptions, sidc[13]);
      v.(identity := if identity.Some? then identity else v.identity,
         dimension := if dimension.Some? then dimension.value else v.dimension,
         level := if level.Some? then level else v.level,
         branchType := Some(sidc[4..10]))
  }

  lemma AirLetter()
    ensures ValueByCode(SymbolEditing.DimensionOptions, 'A') == Some("air")
  {
    assert SymbolEditing.DimensionOptions[0].code != "A";
    assert SymbolEditing.FirstByCode(SymbolEditing.DimensionOptions, "A") == Some(1);
  }

  /**
   * Any 15-character hostile air code (such as "SHAPUCI-------D") loaded into the defaults
   * comes back friendly, with the word "air" in the dimension slot.
   */
  lemma LoadThenGenerateCounterexample(sidc: string)
    requires |sidc| == 15 && sidc[1] == 'H' && sidc[2] == 'A'
    ensures GenerateSidc(LoadFromSidc(DefaultValues, sidc)) == "SFairPUCI----F"
    ensures GenerateSidc(LoadFromSidc(DefaultValues, sidc))[1] != sidc[1]
  {
    AirLetter();
    var loaded := LoadFromSidc(DefaultValues, sidc);
    assert loaded.dimension == "air" && loaded.affiliation == "F" && loaded.echelon == "F";
    assert GenerateSidc(loaded) == "S" + "F" + "air" + "P" + "UCI----" + "F";
  }

  /** Whether a letter is one of the table's codes. */
  predicate IsCode(table: seq<SymbolEditing.Choice>, c: char) {
    exists j | 0 <= j < |table| :: table[j].code == [c]
  }

  /**
   * loadFromSIDC writing the fields _generateSIDC reads: the affiliation, dimension and
   * echelon letters when the tables know them, and the function id.
   */
  function LoadFromSidcCorrected(v: CurrentValues, sidc: string): (r: CurrentValues)
    ensures |sidc| != 15 ==> r == v
  {
    if |sidc| != 15 then v
    else
      v.(affiliation := if IsCode(SymbolEditing.IdentityOptions, sidc[1]) then [sidc[1]]
                        else v.affiliation,
         dimension := if IsCode(SymbolEditing.DimensionOptions, sidc[2]) then [sidc[2]]
                      else v.dimension,
         echelon := if IsCode(SymbolEditing.LevelOptions, sidc[13]) then [sidc[13]]
                    else v.echelon,
         functionId := sidc[4..10])
  }

  /** After the corrected load, _generateSIDC writes back the letters it read. */
  lemma LoadCorrectedThenGenerate(v: CurrentValues, sidc: string)
    requires |sidc| == 15
    requires |v.affiliation| == 1 && |v.dimension| == 1 && |v.echelon| == 1
    requires IsCode(SymbolEditing.IdentityOptions, sidc[1])
    requires IsCode(SymbolEditing.DimensionOptions, sidc[2])
    requires IsCode(SymbolEditing.LevelOptions, sidc[13])
    ensures var g := GenerateSidc(LoadFromSidcCorrected(v, sidc));
      g[1] == sidc[1] && g[2] == sidc[2] && g[4..10] == sidc[4..10] && g[|g| - 1] == sidc[13]
  {
    GenerateSidcLayout(LoadFromSidcCorrected(v, sidc));
  }

  /**
   * The parts of SymbolEditorUI modelled here: the organisation forest and the current
   * panel values.
   */
  class OrganizationPanel {
    var units: seq<OrgUnit>
    var values: CurrentValues
    var toasts: nat

    constructor ()
      ensures units == [] && values == DefaultValues && toasts == 0
    {
      units := [];
      values := DefaultValues;
      toasts := 0;
    }

    /** _addSymbolUnitToTree; `newId` stands for `'unit-' + Date.now()`. */
    method AddSymbolUnitToTree(data: SymbolData, newId: string, parentId: Option<string>)
      modifies this
      ensures var r := AddToTree(old(units), NewOrgUnit(data, newId), parentId);
        units == r.units && toasts == old(toasts) + (if r.refused then 1 else 0)
      ensures values == old(values)
    {
      var unit := NewOrgUnit(data, newId);
      var r := AddToTree(units, unit, parentId);
      if r.refused {
        toasts := toasts + 1;
      }
      units := r.units;
    }

    method RemoveUnitRecursive(id: string) returns (removed: bool)
      modifies this
      ensures units == RemoveUnit(old(units), id).units
      ensures removed == RemoveUnit(old(units), id).gone.Some?
      ensures removed <==> Has(old(units), id)
      ensures values == old(values) && toasts == old(toasts)
    {
      RemoveUnitSpec(units, id);
      var r := RemoveUnit(units, id);
      units := r.units;
      removed := r.gone.Some?;
    }

    method LoadCode(sidc: string)
      modifies this
      ensures values == LoadFromSidc(old(values), sidc)
      ensures units == old(units) && toasts == old(toasts)
    {
      values := LoadFromSidc(values, sidc);
    }
  }
}

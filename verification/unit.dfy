/**
 * The unit record of backend/data/Unit.js: constructor defaults, the derived fields
 * `fillRate` and `supply.overall`, the merge-style update and the JSON round trip.
 *
 * The pure functions on `UnitRecord` are the specification; `class Unit` is the object the
 * source mutates in place, and each of its members is proved against those functions.
 */
module UnitData {
  import opened Wrappers

  type Id = string

  datatype Vec3 = Vec3(x: real, y: real, z: real)

  datatype Supply = Supply(fuel: int, ammunition: int, provisions: int, overall: int)
  datatype Combat = Combat(posture: string, inContact: bool, effectiveness: int, suppression: int)
  datatype Movement = Movement(state: string, path: seq<Vec3>, currentSpeed: int, maxSpeed: int)
  datatype Transform = Transform(position: Vec3, rotation: Vec3)

  /** A unit's fields (timestamps and the free-form `metadata` bag are left out). */
  datatype UnitRecord = UnitRecord(
    uuid: Id,
    name: string,
    callsign: Option<string>,
    parentId: Option<Id>,
    children: seq<Id>,
    sidc: string,
    symbolSize: int,
    symbolColor: Option<string>,
    level: string,
    branch: string,
    commander: string,
    strength: int,
    authorizedStrength: int,
    fillRate: int,
    supply: Supply,
    combat: Combat,
    movement: Movement,
    transform: Transform)

  /** The keys the constructor reads from its `data` argument; `None` is a missing key. */
  datatype UnitInput = UnitInput(
    uuid: Option<Id>,
    name: Option<string>,
    callsign: Option<string>,
    parentId: Option<Id>,
    children: Option<seq<Id>>,
    sidc: Option<string>,
    symbolSize: Option<int>,
    symbolColor: Option<string>,
    level: Option<string>,
    branch: Option<string>,
    commander: Option<string>,
    strength: Option<int>,
    authorizedStrength: Option<int>,
    fuel: Option<int>,
    ammunition: Option<int>,
    provisions: Option<int>,
    posture: Option<string>,
    inContact: Option<bool>,
    effectiveness: Option<int>,
    suppression: Option<int>,
    movementState: Option<string>,
    path: Option<seq<Vec3>>,
    maxSpeed: Option<int>,
    x: Option<real>,
    y: Option<real>,
    z: Option<real>,
    heading: Option<real>)

  datatype SupplyKind = Fuel | Ammunition | Provisions

  /**
   * One own key of the `updates` object passed to `update`; Object.assign copies them in
   * order. Hierarchy keys (`uuid`, `parentId`, `children`) and the nested objects are not
   * among them (see README).
   */
  datatype PatchKey =
    | SetName(name: string)
    | SetCallsign(callsign: Option<string>)
    | SetSidc(sidc: string)
    | SetSymbolSize(size: int)
    | SetSymbolColor(color: Option<string>)
    | SetLevel(level: string)
    | SetBranch(branch: string)
    | SetCommander(commander: string)
    | SetStrength(strength: int)
    | SetAuthorizedStrength(authorized: int)
      // `fuel`, `ammunition`, `provisions`: Object.assign puts them on the object's top
      // level, where nothing reads them; update then merges them into `supply`
    | SetSupply(kind: SupplyKind, amount: int)

  const DefaultName := "未命名單位"
  const DefaultSidc := "10031000151211000020"
  const LevelCompany := "company"   // UnitLevel.COMPANY
  const BranchArmy := "army"        // ServiceBranch.ARMY
  const PostureGuard := "guard"     // CombatPosture.GUARD
  const Stationary := "stationary"  // MovementState.STATIONARY

  // ---------- JavaScript defaulting ----------

  /** `v || d` for a string: a missing or empty string falls back. */
  function OrString(v: Option<string>, d: string): string {
    if v.Some? && v.value != "" then v.value else d
  }

  /** `v || d` for a number: a missing value or 0 falls back. */
  function OrNumber(v: Option<int>, d: int): int {
    if v.Some? && v.value != 0 then v.value else d
  }

  /** `v || null` for a string: a missing or empty string becomes null. */
  function OrNull(v: Option<string>): (r: Option<string>)
    ensures r.Some? ==> r.value != ""
  {
    if v.Some? && v.value != "" then v else None
  }

  /** `v !== undefined ? v : d`: only a missing key falls back, 0 is kept. */
  function IfDefined<T>(v: Option<T>, d: T): T {
    v.GetOr(d)
  }

  // ---------- derived fields ----------

  /** Mathematical floor of n / d. */
  function FloorDiv(n: int, d: int): (q: int)
    requires d != 0
    ensures d > 0 ==> d * q <= n < d * (q + 1)
    ensures d < 0 ==> d * (q + 1) < n <= d * q
  {
    if d > 0 then n / d else (-n) / (-d)
  }

  /**
   * calculateFillRate: 0 when authorizedStrength is 0, otherwise
   * Math.round(strength / authorizedStrength * 100), i.e. floor(100 * s / a + 1/2),
   * computed here on exact rationals.
   */
  function FillRate(strength: int, authorized: int): (r: int)
    ensures authorized == 0 ==> r == 0
    // r - 1/2 <= 100 * strength / authorized < r + 1/2, multiplied out by 2 * authorized
    ensures authorized > 0 ==>
      2 * authorized * r <= 200 * strength + authorized < 2 * authorized * (r + 1)
    ensures authorized < 0 ==>
      2 * authorized * (r + 1) < 200 * strength + authorized <= 2 * authorized * r
  {
    if authorized == 0 then 0 else FloorDiv(200 * strength + authorized, 2 * authorized)
  }

  /** Math.min of the three supply levels. */
  function Min3(a: int, b: int, c: int): (r: int)
    ensures r <= a && r <= b && r <= c
    ensures r == a || r == b || r == c
  {
    if a <= b && a <= c then a else if b <= c then b else c
  }

  /** The invariant the derived fields are meant to keep. */
  predicate Derived(u: UnitRecord) {
    && u.fillRate == FillRate(u.strength, u.authorizedStrength)
    && u.supply.overall == Min3(u.supply.fuel, u.supply.ammunition, u.supply.provisions)
  }

  // ---------- the specification functions ----------

  /** The record `new Unit(data)` builds; `freshId` stands for generateUUID(). */
  function NewRecord(data: UnitInput, freshId: Id): (r: UnitRecord)
    ensures Derived(r)
    ensures data.uuid.Some? && data.uuid.value != "" ==> r.uuid == data.uuid.value
    ensures data.uuid.None? || data.uuid.value == "" ==> r.uuid == freshId
    ensures r.parentId.Some? ==> r.parentId == data.parentId && r.parentId.value != ""
    ensures data.children.None? ==> r.children == []
    // `||` defaults: 0 or missing strength becomes 100, authorizedStrength 120
    ensures r.strength != 0 && r.authorizedStrength != 0
    ensures data.strength.Some? && data.strength.value != 0 ==> r.strength == data.strength.value
    ensures data.strength.None? || data.strength.value == 0 ==> r.strength == 100
    ensures data.authorizedStrength.None? || data.authorizedStrength.value == 0 ==>
      r.authorizedStrength == 120
    // `!== undefined` defaults: a supplied 0 is kept
    ensures r.supply.fuel == IfDefined(data.fuel, 100)
    ensures r.supply.ammunition == IfDefined(data.ammunition, 100)
    ensures r.supply.provisions == IfDefined(data.provisions, 100)
  {
    var strength := OrNumber(data.strength, 100);
    var authorized := OrNumber(data.authorizedStrength, 120);
    var fuel := IfDefined(data.fuel, 100);
    var ammunition := IfDefined(data.ammunition, 100);
    var provisions := IfDefined(data.provisions, 100);
    UnitRecord(
      uuid := OrString(data.uuid, freshId),
      name := OrString(data.name, DefaultName),
      callsign := OrNull(data.callsign),
      parentId := OrNull(data.parentId),
      children := data.children.GetOr([]),
      sidc := OrString(data.sidc, DefaultSidc),
      symbolSize := OrNumber(data.symbolSize, 32),
      symbolColor := OrNull(data.symbolColor),
      level := OrString(data.level, LevelCompany),
      branch := OrString(data.branch, BranchArmy),
      commander := OrString(data.commander, ""),
      strength := strength,
      authorizedStrength := authorized,
      fillRate := FillRate(strength, authorized),
      supply := Supply(fuel, ammunition, provisions, Min3(fuel, ammunition, provisions)),
      combat := Combat(
        OrString(data.posture, PostureGuard),
        data.inContact.GetOr(false),
        IfDefined(data.effectiveness, 100),
        data.suppression.GetOr(0)),
      movement := Movement(
        OrString(data.movementState, Stationary),
        data.path.GetOr([]),
        0,
        OrNumber(data.maxSpeed, 60)),
      transform := Transform(
        Vec3(IfDefined(data.x, 0.0), IfDefined(data.y, 0.0), IfDefined(data.z, 0.0)),
        Vec3(0.0, data.heading.GetOr(0.0), 0.0)))
  }

  /** The value of the last `kind` supply key, if any (`updates.fuel` and so on). */
  function SupplyValue(ks: seq<PatchKey>, kind: SupplyKind): (v: Option<int>)
    ensures v.Some? <==> exists i :: 0 <= i < |ks| && ks[i].SetSupply? && ks[i].kind == kind
  {
    if ks == [] then None
    else
      var last := ks[|ks| - 1];
      if last.SetSupply? && last.kind == kind then Some(last.amount)
      else SupplyValue(ks[..|ks| - 1], kind)
  }

  /** `updates.strength !== undefined || updates.authorizedStrength !== undefined`. */
  predicate TouchesStrength(ks: seq<PatchKey>) {
    exists i :: 0 <= i < |ks| && (ks[i].SetStrength? || ks[i].SetAuthorizedStrength?)
  }

  /** `updates.fuel !== undefined || updates.ammunition !== undefined || ...`. */
  predicate TouchesSupply(ks: seq<PatchKey>) {
    exists i :: 0 <= i < |ks| && ks[i].SetSupply?
  }

  /** Object.assign of one key: the field it names takes its value, all others stay. */
  function AssignKey(u: UnitRecord, k: PatchKey): (r: UnitRecord)
    ensures r.uuid == u.uuid && r.parentId == u.parentId && r.children == u.children
    ensures r.fillRate == u.fillRate && r.supply == u.supply
    ensures r.combat == u.combat && r.movement == u.movement && r.transform == u.transform
    ensures r.name == IfDefined(NameKey(k), u.name)
    ensures r.callsign == IfDefined(CallsignKey(k), u.callsign)
    ensures r.sidc == IfDefined(SidcKey(k), u.sidc)
    ensures r.symbolSize == IfDefined(SymbolSizeKey(k), u.symbolSize)
    ensures r.symbolColor == IfDefined(SymbolColorKey(k), u.symbolColor)
    ensures r.level == IfDefined(LevelKey(k), u.level)
    ensures r.branch == IfDefined(BranchKey(k), u.branch)
    ensures r.commander == IfDefined(CommanderKey(k), u.commander)
    ensures r.strength == IfDefined(StrengthKey(k), u.strength)
    ensures r.authorizedStrength == IfDefined(AuthorizedKey(k), u.authorizedStrength)
  {
    match k
    case SetName(v) => u.(name := v)
    case SetCallsign(v) => u.(callsign := v)
    case SetSidc(v) => u.(sidc := v)
    case SetSymbolSize(v) => u.(symbolSize := v)
    case SetSymbolColor(v) => u.(symbolColor := v)
    case SetLevel(v) => u.(level := v)
    case SetBranch(v) => u.(branch := v)
    case SetCommander(v) => u.(commander := v)
    case SetStrength(v) => u.(strength := v)
    case SetAuthorizedStrength(v) => u.(authorizedStrength := v)
    case SetSupply(_, _) => u
  }

  /**
   * The value the last key of one kind carries (`field` picks it out of a key), `None` when
   * no key of that kind is supplied.
   */
  function LastValue<T>(ks: seq<PatchKey>, field: PatchKey -> Option<T>): (v: Option<T>)
    ensures v.None? <==> forall i | 0 <= i < |ks| :: field(ks[i]).None?
    ensures v.Some? ==>
      exists i | 0 <= i < |ks| :: field(ks[i]) == v && forall j | i < j < |ks| :: field(ks[j]).None?
  {
    if ks == [] then None
    else if field(ks[|ks| - 1]).Some? then field(ks[|ks| - 1])
    else LastValue(ks[..|ks| - 1], field)
  }

  function NameKey(k: PatchKey): Option<string> {
    if k.SetName? then Some(k.name) else None
  }
  function CallsignKey(k: PatchKey): Option<Option<string>> {
    if k.SetCallsign? then Some(k.callsign) else None
  }
  function SidcKey(k: PatchKey): Option<string> {
    if k.SetSidc? then Some(k.sidc) else None
  }
  function SymbolSizeKey(k: PatchKey): Option<int> {
    if k.SetSymbolSize? then Some(k.size) else None
  }
  function SymbolColorKey(k: PatchKey): Option<Option<string>> {
    if k.SetSymbolColor? then Some(k.color) else None
  }
  function LevelKey(k: PatchKey): Option<string> {
    if k.SetLevel? then Some(k.level) else None
  }
  function BranchKey(k: PatchKey): Option<string> {
    if k.SetBranch? then Some(k.branch) else None
  }
  function CommanderKey(k: PatchKey): Option<string> {
    if k.SetCommander? then Some(k.commander) else None
  }
  function StrengthKey(k: PatchKey): Option<int> {
    if k.SetStrength? then Some(k.strength) else None
  }
  function AuthorizedKey(k: PatchKey): Option<int> {
    if k.SetAuthorizedStrength? then Some(k.authorized) else None
  }

  /** Object.assign(this, updates): the keys copied in order, a later one winning. */
  function AssignAll(u: UnitRecord, ks: seq<PatchKey>): (r: UnitRecord)
    ensures r.uuid == u.uuid && r.parentId == u.parentId && r.children == u.children
    ensures r.fillRate == u.fillRate && r.supply == u.supply
    ensures r.combat == u.combat && r.movement == u.movement && r.transform == u.transform
    // every copied field holds the last value supplied for it, or its old value
    ensures r.name == IfDefined(LastValue(ks, NameKey), u.name)
    ensures r.callsign == IfDefined(LastValue(ks, CallsignKey), u.callsign)
    ensures r.sidc == IfDefined(LastValue(ks, SidcKey), u.sidc)
    ensures r.symbolSize == IfDefined(LastValue(ks, SymbolSizeKey), u.symbolSize)
    ensures r.symbolColor == IfDefined(LastValue(ks, SymbolColorKey), u.symbolColor)
    ensures r.level == IfDefined(LastValue(ks, LevelKey), u.level)
    ensures r.branch == IfDefined(LastValue(ks, BranchKey), u.branch)
    ensures r.commander == IfDefined(LastValue(ks, CommanderKey), u.commander)
    ensures r.strength == IfDefined(LastValue(ks, StrengthKey), u.strength)
    ensures r.authorizedStrength == IfDefined(LastValue(ks, AuthorizedKey), u.authorizedStrength)
    ensures !TouchesStrength(ks) ==>
      r.strength == u.strength && r.authorizedStrength == u.authorizedStrength
  {
    if ks == [] then u else AssignKey(AssignAll(u, ks[..|ks| - 1]), ks[|ks| - 1])
  }

  /** Assigning one key more: the loop of update, one step at a time. */
  lemma AssignAllSnoc(u: UnitRecord, ks: seq<PatchKey>, i: nat)
    requires i < |ks|
    ensures AssignAll(u, ks[..i + 1]) == AssignKey(AssignAll(u, ks[..i]), ks[i])
  {
    assert ks[..i + 1][..i] == ks[..i];
  }

  /** The record after `unit.update(updates)`. */
  function Updated(u: UnitRecord, ks: seq<PatchKey>): (r: UnitRecord)
    // identity and hierarchy are never touched
    ensures r.uuid == u.uuid && r.parentId == u.parentId && r.children == u.children
    ensures r.combat == u.combat && r.movement == u.movement && r.transform == u.transform
    // every copied field holds the last value supplied for it, or its old value
    ensures r.name == IfDefined(LastValue(ks, NameKey), u.name)
    ensures r.callsign == IfDefined(LastValue(ks, CallsignKey), u.callsign)
    ensures r.sidc == IfDefined(LastValue(ks, SidcKey), u.sidc)
    ensures r.symbolSize == IfDefined(LastValue(ks, SymbolSizeKey), u.symbolSize)
    ensures r.symbolColor == IfDefined(LastValue(ks, SymbolColorKey), u.symbolColor)
    ensures r.level == IfDefined(LastValue(ks, LevelKey), u.level)
    ensures r.branch == IfDefined(LastValue(ks, BranchKey), u.branch)
    ensures r.commander == IfDefined(LastValue(ks, CommanderKey), u.commander)
    ensures r.strength == IfDefined(LastValue(ks, StrengthKey), u.strength)
    ensures r.authorizedStrength == IfDefined(LastValue(ks, AuthorizedKey), u.authorizedStrength)
    // fillRate is recomputed exactly when a strength key is supplied
    ensures TouchesStrength(ks) ==> r.fillRate == FillRate(r.strength, r.authorizedStrength)
    ensures !TouchesStrength(ks) ==>
      r.fillRate == u.fillRate && r.strength == u.strength &&
      r.authorizedStrength == u.authorizedStrength
    // a supplied supply level overwrites (0 included), the others are kept
    ensures r.supply.fuel == IfDefined(SupplyValue(ks, Fuel), u.supply.fuel)
    ensures r.supply.ammunition == IfDefined(SupplyValue(ks, Ammunition), u.supply.ammunition)
    ensures r.supply.provisions == IfDefined(SupplyValue(ks, Provisions), u.supply.provisions)
    ensures TouchesSupply(ks) ==>
      r.supply.overall == Min3(r.supply.fuel, r.supply.ammunition, r.supply.provisions)
    ensures !TouchesSupply(ks) ==> r.supply == u.supply
    // so the derived fields stay derived
    ensures Derived(u) ==> Derived(r)
  {
    Resupplied(Rated(AssignAll(u, ks), ks), ks)
  }

  /** The fillRate recomputation, done only when a strength key is supplied. */
  function Rated(u: UnitRecord, ks: seq<PatchKey>): (r: UnitRecord)
    ensures r == u.(fillRate := r.fillRate)
    ensures TouchesStrength(ks) ==> r.fillRate == FillRate(u.strength, u.authorizedStrength)
    ensures !TouchesStrength(ks) ==> r == u
  {
    if TouchesStrength(ks) then u.(fillRate := FillRate(u.strength, u.authorizedStrength))
    else u
  }

  /** The supply merge and overall recomputation, done only when a supply key is supplied. */
  function Resupplied(u: UnitRecord, ks: seq<PatchKey>): (r: UnitRecord)
    ensures r == u.(supply := r.supply)
    ensures TouchesSupply(ks) ==>
      && r.supply.fuel == IfDefined(SupplyValue(ks, Fuel), u.supply.fuel)
      && r.supply.ammunition == IfDefined(SupplyValue(ks, Ammunition), u.supply.ammunition)
      && r.supply.provisions == IfDefined(SupplyValue(ks, Provisions), u.supply.provisions)
      && r.supply.overall == Min3(r.supply.fuel, r.supply.ammunition, r.supply.provisions)
    ensures !TouchesSupply(ks) ==> r == u
  {
    if TouchesSupply(ks) then
      var fuel := IfDefined(SupplyValue(ks, Fuel), u.supply.fuel);
      var ammunition := IfDefined(SupplyValue(ks, Ammunition), u.supply.ammunition);
      var provisions := IfDefined(SupplyValue(ks, Provisions), u.supply.provisions);
      u.(supply := Supply(fuel, ammunition, provisions, Min3(fuel, ammunition, provisions)))
    else
      u
  }

  /** A key supplied last is what the record holds afterwards. */
  lemma {:induction false} UpdatedLastKeyWins(u: UnitRecord, ks: seq<PatchKey>, name: string)
    ensures Updated(u, ks + [SetName(name)]).name == name
  {
    assert (ks + [SetName(name)])[..|ks|] == ks;
  }

  /**
   * What `new Unit(json)` reads back from the object toJSON returns. toJSON nests the supply
   * levels under `supply`, the position under `transform` and the combat and movement state
   * under `combat`/`movement`, while the constructor reads the top-level keys `fuel`, `x`,
   * `posture`, `movementState`, ...: those keys are missing from the JSON.
   */
  function JsonAsInput(json: UnitRecord): (data: UnitInput)
    ensures data.uuid == Some(json.uuid) && data.children == Some(json.children)
    ensures data.strength == Some(json.strength)
    ensures data.authorizedStrength == Some(json.authorizedStrength)
    // the nested supply and position reach the constructor as missing keys
    ensures data.fuel.None? && data.ammunition.None? && data.provisions.None?
    ensures data.x.None? && data.y.None? && data.z.None?
  {
    UnitInput(
      uuid := Some(json.uuid), name := Some(json.name), callsign := json.callsign,
      parentId := json.parentId, children := Some(json.children), sidc := Some(json.sidc),
      symbolSize := Some(json.symbolSize), symbolColor := json.symbolColor,
      level := Some(json.level), branch := Some(json.branch), commander := Some(json.commander),
      strength := Some(json.strength), authorizedStrength := Some(json.authorizedStrength),
      fuel := None, ammunition := None, provisions := None,
      posture := None, inContact := None, effectiveness := None, suppression := None,
      movementState := None, path := None, maxSpeed := None,
      x := None, y := None, z := None, heading := None)
  }

  /** Unit.fromJSON(json) == new Unit(json). */
  function FromJson(json: UnitRecord, freshId: Id): (r: UnitRecord)
    ensures Derived(r)
    ensures json.uuid != "" ==> r.uuid == json.uuid
    ensures r.children == json.children
    ensures r.supply == Supply(100, 100, 100, 100)
    ensures r.transform.position == Vec3(0.0, 0.0, 0.0)
  {
    NewRecord(JsonAsInput(json), freshId)
  }

  /**
   * fromJSON(toJSON(u)) keeps identity, hierarchy, classification and non-zero strengths,
   * but resets supply to 100/100/100 and the position to the origin.
   */
  lemma FromJsonRoundTrip(u: UnitRecord, freshId: Id)
    requires u.uuid != "" && u.name != "" && u.level != "" && u.branch != ""
    requires u.parentId.Some? ==> u.parentId.value != ""
    requires u.strength != 0 && u.authorizedStrength != 0
    ensures var r := FromJson(u, freshId);
      && r.uuid == u.uuid && r.name == u.name && r.parentId == u.parentId
      && r.children == u.children && r.level == u.level && r.branch == u.branch
      && r.strength == u.strength && r.authorizedStrength == u.authorizedStrength
      && r.fillRate == FillRate(u.strength, u.authorizedStrength)
      && r.supply == Supply(100, 100, 100, 100)
      && r.transform.position == Vec3(0.0, 0.0, 0.0)
  {
  }

  /** A unit whose supply levels differ from 100 does not survive the JSON round trip. */
  lemma FromJsonLosesSupply(u: UnitRecord, freshId: Id)
    requires u.supply.fuel != 100
    ensures FromJson(u, freshId).supply != u.supply
  {
  }

  // ---------- the object ----------

  /** The in-place object: its fields are the record's, `Value()` reads them back. */
  class Unit {
    var uuid: Id
    var name: string
    var callsign: Option<string>
    var parentId: Option<Id>
    var children: seq<Id>
    var sidc: string
    var symbolSize: int
    var symbolColor: Option<string>
    var level: string
    var branch: string
    var commander: string
    var strength: int
    var authorizedStrength: int
    var fillRate: int
    var supply: Supply
    var combat: Combat
    var movement: Movement
    var transform: Transform

    function Value(): UnitRecord
      reads this
    {
      UnitRecord(uuid, name, callsign, parentId, children, sidc, symbolSize, symbolColor,
        level, branch, commander, strength, authorizedStrength, fillRate, supply, combat,
        movement, transform)
    }

    /** `new Unit(data)`; `freshId` stands for the generated UUID. */
    constructor (data: UnitInput, freshId: Id)
      ensures Value() == NewRecord(data, freshId)
    {
      uuid := OrString(data.uuid, freshId);
      name := OrString(data.name, DefaultName);
      callsign := OrNull(data.callsign);
      parentId := OrNull(data.parentId);
      children := data.children.GetOr([]);
      sidc := OrString(data.sidc, DefaultSidc);
      symbolSize := OrNumber(data.symbolSize, 32);
      symbolColor := OrNull(data.symbolColor);
      level := OrString(data.level, LevelCompany);
      branch := OrString(data.branch, BranchArmy);
      commander := OrString(data.commander, "");
      strength := OrNumber(data.strength, 100);
      authorizedStrength := OrNumber(data.authorizedStrength, 120);
      fillRate := 0;
      supply := Supply(IfDefined(data.fuel, 100), IfDefined(data.ammunition, 100),
        IfDefined(data.provisions, 100), 100);
      combat := Combat(OrString(data.posture, PostureGuard), data.inContact.GetOr(false),
        IfDefined(data.effectiveness, 100), data.suppression.GetOr(0));
      movement := Movement(OrString(data.movementState, Stationary), data.path.GetOr([]), 0,
        OrNumber(data.maxSpeed, 60));
      transform := Transform(
        Vec3(IfDefined(data.x, 0.0), IfDefined(data.y, 0.0), IfDefined(data.z, 0.0)),
        Vec3(0.0, data.heading.GetOr(0.0), 0.0));
      new;
      fillRate := CalculateFillRate();
      CalculateSupplyOverall();
    }

    /** calculateFillRate() on the current strengths. */
    function CalculateFillRate(): (r: int)
      reads this
      ensures r == FillRate(strength, authorizedStrength)
    {
      if authorizedStrength == 0 then 0
      else FloorDiv(200 * strength + authorizedStrength, 2 * authorizedStrength)
    }

    /** calculateSupplyOverall(): sets only `supply.overall`. */
    method CalculateSupplyOverall()
      modifies this
      ensures supply == old(supply).(overall := Min3(old(supply).fuel,
        old(supply).ammunition, old(supply).provisions))
      ensures Value() == old(Value()).(supply := supply)
    {
      var fuel, ammunition, provisions := supply.fuel, supply.ammunition, supply.provisions;
      if fuel <= ammunition && fuel <= provisions {
        supply := supply.(overall := fuel);
      } else if ammunition <= provisions {
        supply := supply.(overall := ammunition);
      } else {
        supply := supply.(overall := provisions);
      }
    }

    /** update(updates): assign the supplied keys, then recompute what they affect. */
    method Update(ks: seq<PatchKey>)
      modifies this
      ensures Value() == Updated(old(Value()), ks)
    {
      ghost var before := Value();
      for i := 0 to |ks|
        invariant Value() == AssignAll(before, ks[..i])
      {
        AssignOne(ks[i]);
        AssignAllSnoc(before, ks, i);
      }
      assert ks[..|ks|] == ks;
      if TouchesStrength(ks) {
        fillRate := CalculateFillRate();
      }
      assert Value() == Rated(AssignAll(before, ks), ks);
      if TouchesSupply(ks) {
        MergeSupply(ks);
      }
    }

    /** The supply merge of update: supplied levels overwrite, then calculateSupplyOverall(). */
    method MergeSupply(ks: seq<PatchKey>)
      requires TouchesSupply(ks)
      modifies this
      ensures Value() == Resupplied(old(Value()), ks)
    {
      supply := supply.(
        fuel := IfDefined(SupplyValue(ks, Fuel), supply.fuel),
        ammunition := IfDefined(SupplyValue(ks, Ammunition), supply.ammunition),
        provisions := IfDefined(SupplyValue(ks, Provisions), supply.provisions));
      CalculateSupplyOverall();
    }

    /** Object.assign of one key onto this object (split by key group to keep proofs small). */
    method AssignOne(k: PatchKey)
      modifies this
      ensures Value() == AssignKey(old(Value()), k)
    {
      if k.SetName? || k.SetCallsign? || k.SetCommander? {
        AssignNaming(k);
      } else if k.SetSidc? || k.SetSymbolSize? || k.SetSymbolColor? {
        AssignSymbol(k);
      } else {
        AssignForce(k);
      }
    }

    method AssignNaming(k: PatchKey)
      requires k.SetName? || k.SetCallsign? || k.SetCommander?
      modifies this
      ensures Value() == AssignKey(old(Value()), k)
    {
      ghost var before := Value();
      match k
      case SetName(v) => name := v; assert Value() == before.(name := v);
      case SetCallsign(v) => callsign := v; assert Value() == before.(callsign := v);
      case SetCommander(v) => commander := v; assert Value() == before.(commander := v);
    }

    method AssignSymbol(k: PatchKey)
      requires k.SetSidc? || k.SetSymbolSize? || k.SetSymbolColor?
      modifies this
      ensures Value() == AssignKey(old(Value()), k)
    {
      ghost var before := Value();
      match k
      case SetSidc(v) => sidc := v; assert Value() == before.(sidc := v);
      case SetSymbolSize(v) => symbolSize := v; assert Value() == before.(symbolSize := v);
      case SetSymbolColor(v) => symbolColor := v; assert Value() == before.(symbolColor := v);
    }

    /** Classification and strength keys; a supply key only lands on the object's top level. */
    method AssignForce(k: PatchKey)
      requires k.SetLevel? || k.SetBranch? || k.SetStrength? || k.SetAuthorizedStrength? ||
        k.SetSupply?
      modifies this
      ensures Value() == AssignKey(old(Value()), k)
    {
      ghost var before := Value();
      match k
      case SetLevel(v) => level := v; assert Value() == before.(level := v);
      case SetBranch(v) => branch := v; assert Value() == before.(branch := v);
      case SetStrength(v) => strength := v; assert Value() == before.(strength := v);
      case SetAuthorizedStrength(v) =>
        authorizedStrength := v; assert Value() == before.(authorizedStrength := v);
      case SetSupply(_, _) =>
    }

    /** toJSON(): the record's fields, nested as in the source. */
    function ToJson(): (json: UnitRecord)
      reads this
      ensures json == Value()
    {
      Value()
    }
  }
}

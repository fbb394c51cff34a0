/**
 * backend/data/TacticalGraphic.js: a tactical graphic whose geometry fields depend on its
 * type. The graphic types are those of shared/Enums.js. The id, timestamp and metadata
 * object are not modelled beyond the uuid, which is a constructor parameter when missing.
 */
module Graphics {
  import opened Wrappers
  import opened UnitData

  const Point := "point"
  const Waypoint := "waypoint"
  const Checkpoint := "checkpoint"
  const RallyPoint := "rally_point"
  const Objective := "objective"
  const Line := "line"
  const AxisOfAdvance := "axis_of_advance"
  const Boundary := "boundary"
  const Route := "route"
  const PhaseLine := "phase_line"
  const Arrow := "arrow"
  const AttackArrow := "attack_arrow"
  const MainEffort := "main_effort"
  const Area := "area"
  const Ao := "ao"
  const Circular := "circular"

  /** The type groups of the constructor's switch. */
  predicate PointLike(t: string) { t in {Point, Waypoint, Checkpoint, Objective} }
  predicate LineLike(t: string) { t in {Line, AxisOfAdvance, Boundary, Route} }
  predicate ArrowLike(t: string) { t in {Arrow, AttackArrow} }
  predicate AreaLike(t: string) { t in {Area, Ao} }

  /** `this.geometry`: a key that was never set is `None`. */
  datatype Geometry = Geometry(point: Option<Vec3>, points: Option<seq<Vec3>>,
    closed: Option<bool>, vertices: Option<seq<Vec3>>, center: Option<Vec3>,
    radius: Option<real>, startAngle: Option<real>, endAngle: Option<real>)

  const NoGeometry := Geometry(None, None, None, None, None, None, None, None)

  datatype Style = Style(strokeColor: string, fillColor: string, strokeWidth: real,
    fillOpacity: real, lineDash: string, showLabel: bool)

  /** The constructor's `data` object; a missing key is `None`. */
  datatype GraphicData = GraphicData(
    uuid: Option<string>, graphicType: Option<string>, name: Option<string>,
    layer: Option<string>, strokeColor: Option<string>, fillColor: Option<string>,
    strokeWidth: Option<real>, fillOpacity: Option<real>, lineDash: Option<string>,
    showLabel: Option<bool>, point: Option<Vec3>, points: Option<seq<Vec3>>,
    closed: Option<bool>, vertices: Option<seq<Vec3>>, center: Option<Vec3>,
    radius: Option<real>, startAngle: Option<real>, endAngle: Option<real>,
    labelText: Option<string>, locked: Option<bool>, visible: Option<bool>)

  const Origin := Vec3(0.0, 0.0, 0.0)

  /** `v || d` for a number: missing or 0 falls back. */
  function OrReal(v: Option<real>, d: real): real {
    if v.Some? && v.value != 0.0 then v.value else d
  }

  /** `v || false` for a boolean. */
  function Truthy(v: Option<bool>): bool {
    v.Some? && v.value
  }

  /** The constructor's switch on the type. */
  function InitialGeometry(t: string, data: GraphicData): (g: Geometry)
    ensures PointLike(t) <==> g.point.Some?
    ensures PointLike(t) ==> g == NoGeometry.(point := Some(data.point.GetOr(Origin)))
    ensures LineLike(t) ==>
      g == NoGeometry.(points := Some(data.points.GetOr([])), closed := Some(Truthy(data.closed)))
    ensures ArrowLike(t) ==> g == NoGeometry.(points := Some(data.points.GetOr([])))
    ensures g.points.Some? <==> LineLike(t) || ArrowLike(t)
    ensures AreaLike(t) <==> g.vertices.Some?
    ensures AreaLike(t) ==> g == NoGeometry.(vertices := Some(data.vertices.GetOr([])))
    ensures t == Circular <==> g.center.Some?
    ensures t == Circular ==>
      g.radius == Some(OrReal(data.radius, 50.0)) && g.center == Some(data.center.GetOr(Origin)) &&
      g.startAngle == Some(OrReal(data.startAngle, 0.0)) &&
      g.endAngle == Some(OrReal(data.endAngle, 360.0))
    ensures !PointLike(t) && !LineLike(t) && !ArrowLike(t) && !AreaLike(t) && t != Circular ==>
      g == NoGeometry
  {
    if PointLike(t) then NoGeometry.(point := Some(data.point.GetOr(Origin)))
    else if LineLike(t) then
      NoGeometry.(points := Some(data.points.GetOr([])), closed := Some(Truthy(data.closed)))
    else if ArrowLike(t) then NoGeometry.(points := Some(data.points.GetOr([])))
    else if AreaLike(t) then NoGeometry.(vertices := Some(data.vertices.GetOr([])))
    else if t == Circular then
      NoGeometry.(center := Some(data.center.GetOr(Origin)),
        radius := Some(OrReal(data.radius, 50.0)),
        startAngle := Some(OrReal(data.startAngle, 0.0)),
        endAngle := Some(OrReal(data.endAngle, 360.0)))
    else NoGeometry
  }

  /** Rally points, phase lines and main-effort arrows fall outside the switch. */
  lemma UnswitchedTypesHaveNoGeometry(data: GraphicData)
    ensures InitialGeometry(RallyPoint, data) == NoGeometry
    ensures InitialGeometry(PhaseLine, data) == NoGeometry
    ensures InitialGeometry(MainEffort, data) == NoGeometry
  {
  }

  /** The style block: `||` for colours, width and dash, `!== undefined` for opacity and label. */
  function InitialStyle(data: GraphicData): (s: Style)
    ensures data.fillOpacity.Some? ==> s.fillOpacity == data.fillOpacity.value
    ensures data.fillOpacity.None? ==> s.fillOpacity == 0.3
    ensures data.showLabel.Some? ==> s.showLabel == data.showLabel.value
    ensures data.showLabel.None? ==> s.showLabel
    ensures data.strokeWidth == Some(0.0) ==> s.strokeWidth == 2.0
  {
    Style(OrString(data.strokeColor, "#00FF00"), OrString(data.fillColor, "#00FF00"),
      OrReal(data.strokeWidth, 2.0), IfDefined(data.fillOpacity, 0.3),
      OrString(data.lineDash, "solid"), IfDefined(data.showLabel, true))
  }

  /** updateGeometry's `updates`: the keys present overwrite, the others stay. */
  datatype GeometryPatch = GeometryPatch(point: Option<Vec3>, points: Option<seq<Vec3>>,
    closed: Option<bool>, vertices: Option<seq<Vec3>>, center: Option<Vec3>,
    radius: Option<real>, startAngle: Option<real>, endAngle: Option<real>)

  /** `Object.assign(this.geometry, updates)`. */
  function PatchedGeometry(g: Geometry, p: GeometryPatch): (r: Geometry)
    ensures p.point.Some? ==> r.point == p.point
    ensures p.point.None? ==> r.point == g.point
    ensures p.points.Some? ==> r.points == p.points
    ensures p.points.None? ==> r.points == g.points
    ensures p.center.Some? ==> r.center == p.center
    ensures p.center.None? ==> r.center == g.center
    ensures p.closed.Some? ==> r.closed == p.closed
    ensures p.closed.None? ==> r.closed == g.closed
    ensures p.vertices.Some? ==> r.vertices == p.vertices
    ensures p.vertices.None? ==> r.vertices == g.vertices
    ensures p.radius.Some? ==> r.radius == p.radius
    ensures p.radius.None? ==> r.radius == g.radius
    ensures p.startAngle.Some? ==> r.startAngle == p.startAngle
    ensures p.startAngle.None? ==> r.startAngle == g.startAngle
    ensures p.endAngle.Some? ==> r.endAngle == p.endAngle
    ensures p.endAngle.None? ==> r.endAngle == g.endAngle
    ensures p == GeometryPatch(None, None, None, None, None, None, None, None) ==> r == g
  {
    Geometry(
      if p.point.Some? then p.point else g.point,
      if p.points.Some? then p.points else g.points,
      if p.closed.Some? then p.closed else g.closed,
      if p.vertices.Some? then p.vertices else g.vertices,
      if p.center.Some? then p.center else g.center,
      if p.radius.Some? then p.radius else g.radius,
      if p.startAngle.Some? then p.startAngle else g.startAngle,
      if p.endAngle.Some? then p.endAngle else g.endAngle)
  }

  /** Applying the same geometry patch twice is applying it once. */
  lemma PatchedGeometryIdempotent(g: Geometry, p: GeometryPatch)
    ensures PatchedGeometry(PatchedGeometry(g, p), p) == PatchedGeometry(g, p)
  {
  }

  datatype StylePatch = StylePatch(strokeColor: Option<string>, fillColor: Option<string>,
    strokeWidth: Option<real>, fillOpacity: Option<real>, lineDash: Option<string>,
    showLabel: Option<bool>)

  /** `Object.assign(this.style, updates)`. */
  function PatchedStyle(s: Style, p: StylePatch): (r: Style)
    ensures p.strokeColor.Some? ==> r.strokeColor == p.strokeColor.value
    ensures p.strokeColor.None? ==> r.strokeColor == s.strokeColor
    ensures p.fillColor.Some? ==> r.fillColor == p.fillColor.value
    ensures p.fillColor.None? ==> r.fillColor == s.fillColor
    ensures p.fillOpacity.Some? ==> r.fillOpacity == p.fillOpacity.value
    ensures p.fillOpacity.None? ==> r.fillOpacity == s.fillOpacity
    ensures p.lineDash.Some? ==> r.lineDash == p.lineDash.value
    ensures p.lineDash.None? ==> r.lineDash == s.lineDash
    ensures p.strokeWidth.Some? ==> r.strokeWidth == p.strokeWidth.value
    ensures p.strokeWidth.None? ==> r.strokeWidth == s.strokeWidth
    ensures p.showLabel.Some? ==> r.showLabel == p.showLabel.value
    ensures p.showLabel.None? ==> r.showLabel == s.showLabel
    ensures p == StylePatch(None, None, None, None, None, None) ==> r == s
  {
    Style(p.strokeColor.GetOr(s.strokeColor), p.fillColor.GetOr(s.fillColor),
      p.strokeWidth.GetOr(s.strokeWidth), p.fillOpacity.GetOr(s.fillOpacity),
      p.lineDash.GetOr(s.lineDash), p.showLabel.GetOr(s.showLabel))
  }

  /** setPosition: `point` if it is set, else `center` if that is set, else nothing. */
  function Positioned(g: Geometry, at: Vec3): (r: Geometry)
    ensures g.point.Some? ==> r == g.(point := Some(at))
    ensures g.point.None? && g.center.Some? ==> r == g.(center := Some(at))
    ensures g.point.None? && g.center.None? ==> r == g
  {
    if g.point.Some? then g.(point := Some(at))
    else if g.center.Some? then g.(center := Some(at))
    else g
  }

  /** addPoint: appends only when there is a `points` array. */
  function WithPoint(g: Geometry, at: Vec3): (r: Geometry)
    ensures g.points.Some? ==> r == g.(points := Some(g.points.value + [at]))
    ensures g.points.None? ==> r == g
  {
    if g.points.Some? then g.(points := Some(g.points.value + [at])) else g
  }

  /** A circle keeps its radius and angles when moved; a line keeps its points. */
  lemma PositionKeepsShape(t: string, data: GraphicData, at: Vec3)
    ensures var g := InitialGeometry(t, data); var r := Positioned(g, at);
      r.points == g.points && r.radius == g.radius && r.vertices == g.vertices &&
      (PointLike(t) ==> r.point == Some(at)) && (t == Circular ==> r.center == Some(at)) &&
      (LineLike(t) || ArrowLike(t) || AreaLike(t) ==> r == g)
  {
  }

  /** On a point or area graphic addPoint changes nothing; on a line it adds one point. */
  lemma AddPointByType(t: string, data: GraphicData, at: Vec3)
    ensures var g := InitialGeometry(t, data);
      (LineLike(t) || ArrowLike(t) ==>
        WithPoint(g, at).points == Some(data.points.GetOr([]) + [at])) &&
      (!LineLike(t) && !ArrowLike(t) ==> WithPoint(g, at) == g)
  {
  }

  class TacticalGraphic {
    const uuid: string
    const graphicType: string
    var name: string
    var layer: string
    var style: Style
    var geometry: Geometry
    var labelText: string
    var locked: bool
    var visible: bool

    /** `freshUuid` stands for generateUUID's time-and-random id. */
    constructor (data: GraphicData, freshUuid: string)
      ensures uuid == OrString(data.uuid, freshUuid)
      ensures graphicType == OrString(data.graphicType, Point)
      ensures name == OrString(data.name, "新圖形") && layer == OrString(data.layer, "default")
      ensures style == InitialStyle(data)
      ensures geometry == InitialGeometry(graphicType, data)
      ensures labelText == OrString(data.labelText, "") && locked == Truthy(data.locked)
      ensures visible == IfDefined(data.visible, true)
    {
      uuid := OrString(data.uuid, freshUuid);
      var t := OrString(data.graphicType, Point);
      graphicType := t;
      name := OrString(data.name, "新圖形");
      layer := OrString(data.layer, "default");
      style := InitialStyle(data);
      geometry := InitialGeometry(t, data);
      labelText := OrString(data.labelText, "");
      locked := Truthy(data.locked);
      visible := IfDefined(data.visible, true);
    }

    method UpdateGeometry(updates: GeometryPatch)
      modifies this
      ensures geometry == PatchedGeometry(old(geometry), updates)
      ensures style == old(style) && name == old(name) && layer == old(layer)
      ensures labelText == old(labelText) && locked == old(locked) && visible == old(visible)
    {
      geometry := PatchedGeometry(geometry, updates);
    }

    method UpdateStyle(updates: StylePatch)
      modifies this
      ensures style == PatchedStyle(old(style), updates)
      ensures geometry == old(geometry) && name == old(name) && layer == old(layer)
      ensures labelText == old(labelText) && locked == old(locked) && visible == old(visible)
    {
      style := PatchedStyle(style, updates);
    }

    method SetPosition(x: real, y: real, z: real)
      modifies this
      ensures geometry == Positioned(old(geometry), Vec3(x, y, z))
      ensures style == old(style) && name == old(name) && layer == old(layer)
      ensures labelText == old(labelText) && locked == old(locked) && visible == old(visible)
    {
      if geometry.point.Some? {
        geometry := geometry.(point := Some(Vec3(x, y, z)));
      } else if geometry.center.Some? {
        geometry := geometry.(center := Some(Vec3(x, y, z)));
      }
    }

    method AddPoint(x: real, y: real, z: real)
      modifies this
      ensures geometry == WithPoint(old(geometry), Vec3(x, y, z))
      ensures style == old(style) && name == old(name) && layer == old(layer)
      ensures labelText == old(labelText) && locked == old(locked) && visible == old(visible)
    {
      if geometry.points.Some? {
        geometry := geometry.(points := Some(geometry.points.value + [Vec3(x, y, z)]));
      }
    }
  }
}

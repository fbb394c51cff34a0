/**
 * frontend/engine/MovePathEngine.js: the waypoint list of a unit's movement path and the
 * play/stop flags of its playback. The spline, the 3D markers and the frame clock are not
 * modelled: the host's animation-frame scheduler is the `frameQueued` flag plus the ids and
 * elapsed times passed to the methods, and a unit entity's existence is a parameter.
 */
module MovePath {
  import opened Wrappers
  import opened UnitData

  /** One waypoint: its position and the optional Bézier handles. */
  datatype Waypoint = Waypoint(position: Vec3, handleIn: Option<Vec3>, handleOut: Option<Vec3>)

  /** One element of the array setPath receives. */
  datatype WaypointInput = WaypointInput(x: real, y: real, z: real,
    handleIn: Option<Vec3>, handleOut: Option<Vec3>)

  /** What the engine emits on the event bus. */
  datatype PathEvent =
    | WaypointAdded(waypointIndex: int, totalWaypoints: nat)    // engine:path-waypoint-added
    | WaypointRemoved(waypointIndex: int, totalWaypoints: nat)  // engine:path-waypoint-removed
    | PathCleared                                               // engine:path-cleared
    | PlaybackStart(uuid: Id, duration: nat)                    // engine:path-playback-start
    | PlaybackComplete(uuid: Id)                                // engine:path-playback-complete
    | PlaybackStopped(maybeUuid: Option<Id>)                    // engine:path-playback-stopped
    | UnitMoved(uuid: Id, position: Vec3)                       // backend:unit:updated

  /** Playback length in milliseconds. */
  const Duration: nat := 5000

  /** `waypoints.map(wp => ({ position, handleIn, handleOut }))` in setPath. */
  function FromInputs(ps: seq<WaypointInput>): (r: seq<Waypoint>)
    ensures |r| == |ps|
    ensures forall i | 0 <= i < |ps| ::
      r[i] == Waypoint(Vec3(ps[i].x, ps[i].y, ps[i].z), ps[i].handleIn, ps[i].handleOut)
  {
    if ps == [] then []
    else [Waypoint(Vec3(ps[0].x, ps[0].y, ps[0].z), ps[0].handleIn, ps[0].handleOut)] +
         FromInputs(ps[1..])
  }

  /** getPath: the waypoint coordinates in order. */
  function Positions(ws: seq<Waypoint>): (r: seq<Vec3>)
    ensures |r| == |ws|
    ensures forall i | 0 <= i < |ws| :: r[i] == ws[i].position
  {
    if ws == [] then [] else [ws[0].position] + Positions(ws[1..])
  }

  /** `splice(index, 1)`: the element at `index` dropped, the later ones shifted down. */
  function RemoveAt<T>(s: seq<T>, index: nat): (r: seq<T>)
    requires index < |s|
    ensures |r| == |s| - 1
    ensures forall j | 0 <= j < index :: r[j] == s[j]
    ensures forall j | index <= j < |r| :: r[j] == s[j + 1]
  {
    s[..index] + s[index + 1..]
  }

  /** clearPath: only the origin survives, if there is one. */
  function KeepOrigin(ws: seq<Waypoint>): (r: seq<Waypoint>)
    ensures |ws| > 0 ==> r == [ws[0]]
    ensures |ws| == 0 ==> r == []
  {
    if |ws| > 0 then [ws[0]] else []
  }

  /** Clearing twice is the same as clearing once. */
  lemma KeepOriginIdempotent(ws: seq<Waypoint>)
    ensures KeepOrigin(KeepOrigin(ws)) == KeepOrigin(ws)
  {
  }

  /** After setPath(u, p), getPath() gives back the coordinates of `p` in order. */
  lemma SetPathThenGetPath(ps: seq<WaypointInput>)
    ensures |Positions(FromInputs(ps))| == |ps|
    ensures forall i | 0 <= i < |ps| ::
      Positions(FromInputs(ps))[i] == Vec3(ps[i].x, ps[i].y, ps[i].z)
  {
  }

  class MovePathEngine {
    var waypoints: seq<Waypoint>
    var currentUnit: Option<Id>
    var isPlaying: bool
    /** The last frame id requestAnimationFrame gave; `None` is null. */
    var animationId: Option<nat>
    var readOnlyMode: bool
    /** Whether the backend:unit:updated listener set up by the constructor is still on. */
    var listening: bool
    /** The host's state: a requested animation frame has not yet run or been cancelled. */
    var frameQueued: bool
    var events: seq<PathEvent>

    /**
     * Frame ids from the host are non-zero, so a stored id is truthy; a frame is queued only
     * while playing a known unit, and its id is the stored one.
     */
    ghost predicate Valid()
      reads this
    {
      (animationId.Some? ==> animationId.value != 0) &&
      (frameQueued ==> isPlaying && currentUnit.Some? && animationId.Some?)
    }

    constructor ()
      ensures waypoints == [] && currentUnit == None && !isPlaying && animationId == None
      ensures !readOnlyMode && listening && !frameQueued && events == []
      ensures Valid()
    {
      waypoints := [];
      currentUnit := None;
      isPlaying := false;
      animationId := None;
      readOnlyMode := false;
      listening := true;
      frameQueued := false;
      events := [];
    }

    method SetPath(unitUuid: Id, points: seq<WaypointInput>)
      modifies this
      ensures currentUnit == Some(unitUuid) && waypoints == FromInputs(points)
      ensures isPlaying == old(isPlaying) && readOnlyMode == old(readOnlyMode)
      ensures animationId == old(animationId) && frameQueued == old(frameQueued)
      ensures listening == old(listening) && events == old(events)
    {
      currentUnit := Some(unitUuid);
      waypoints := FromInputs(points);
    }

    method SetDisplayMode(readOnly: bool)
      modifies this
      ensures readOnlyMode == readOnly
      ensures waypoints == old(waypoints) && currentUnit == old(currentUnit)
      ensures isPlaying == old(isPlaying) && animationId == old(animationId)
      ensures frameQueued == old(frameQueued) && listening == old(listening)
      ensures events == old(events)
    {
      readOnlyMode := readOnly;
    }

    /** Appends whatever the display mode; returns the new last index. */
    method AddWaypoint(position: Vec3) returns (index: int)
      modifies this
      ensures waypoints == old(waypoints) + [Waypoint(position, None, None)]
      ensures index == |old(waypoints)| && index == |waypoints| - 1
      ensures events == old(events) + [WaypointAdded(index, |waypoints|)]
      ensures currentUnit == old(currentUnit) && isPlaying == old(isPlaying)
      ensures animationId == old(animationId) && readOnlyMode == old(readOnlyMode)
      ensures frameQueued == old(frameQueued) && listening == old(listening)
    {
      waypoints := waypoints + [Waypoint(position, None, None)];
      events := events + [WaypointAdded(|waypoints| - 1, |waypoints|)];
      index := |waypoints| - 1;
    }

    /** Out of range or the origin: nothing happens. */
    method RemoveWaypoint(index: int)
      modifies this
      ensures index < 0 || index >= |old(waypoints)| || index == 0 ==>
        waypoints == old(waypoints) && events == old(events)
      ensures 0 < index < |old(waypoints)| ==>
        waypoints == RemoveAt(old(waypoints), index) &&
        events == old(events) + [WaypointRemoved(index, |waypoints|)]
      ensures currentUnit == old(currentUnit) && isPlaying == old(isPlaying)
      ensures animationId == old(animationId) && readOnlyMode == old(readOnlyMode)
      ensures frameQueued == old(frameQueued) && listening == old(listening)
    {
      if index < 0 || index >= |waypoints| {
        return;
      }
      if index == 0 {
        return;
      }
      waypoints := RemoveAt(waypoints, index);
      events := events + [WaypointRemoved(index, |waypoints|)];
    }

    method ClearPath()
      modifies this
      ensures waypoints == KeepOrigin(old(waypoints))
      ensures events == old(events) + [PathCleared]
      ensures currentUnit == old(currentUnit) && isPlaying == old(isPlaying)
      ensures animationId == old(animationId) && readOnlyMode == old(readOnlyMode)
      ensures frameQueued == old(frameQueued) && listening == old(listening)
    {
      waypoints := if |waypoints| > 0 then [waypoints[0]] else [];
      events := events + [PathCleared];
    }

    /**
     * play. `entityExists` says whether the unit engine knows the current unit; `elapsed` is
     * the clock reading of the first, synchronous animate call; `frame` the id the host
     * returns if that call requests the next frame.
     */
    method Play(entityExists: bool, elapsed: nat, frame: nat) returns (r: Outcome)
      requires Valid() && frame != 0
      modifies this
      ensures Valid()
      // fewer than two waypoints: nothing at all
      ensures |old(waypoints)| < 2 ==> r == Pass && unchanged(this)
      // otherwise playback is on, unless the first frame already completed it
      ensures |old(waypoints)| >= 2 && currentUnit.Some? && entityExists ==>
        r == Pass && isPlaying == (elapsed < Duration) &&
        (elapsed < Duration ==> animationId == Some(frame) && frameQueued)
      // a null currentUnit throws after the flag is set
      ensures |old(waypoints)| >= 2 && currentUnit.None? ==> r == Fail(NullCurrentUnit) && isPlaying
      // no entity: the flag stays set and no frame is requested
      ensures |old(waypoints)| >= 2 && currentUnit.Some? && !entityExists ==>
        r == Pass && isPlaying && !frameQueued
      // a running playback is stopped first (snap back, stopped event); then the first frame
      // may complete at once, before the start event
      ensures |old(waypoints)| >= 2 ==>
        events == old(events)
          + (if old(isPlaying) then SnapBack(currentUnit, waypoints, entityExists)
               + [PlaybackStopped(currentUnit)] else [])
          + (if currentUnit.Some? && entityExists then
               (if elapsed >= Duration then [PlaybackComplete(currentUnit.value)] else [])
               + [PlaybackStart(currentUnit.value, Duration)]
             else [])
      // unless a new frame was requested, stop's cancellation (or the old id) remains
      ensures (|old(waypoints)| >= 2 && !(currentUnit.Some? && entityExists && elapsed < Duration))
        ==>
        !frameQueued && animationId == (if old(isPlaying) then None else old(animationId))
      ensures waypoints == old(waypoints) && currentUnit == old(currentUnit)
      ensures readOnlyMode == old(readOnlyMode) && listening == old(listening)
    {
      if |waypoints| < 2 {
        return Pass;
      }
      if isPlaying {
        Stop(entityExists);
      }
      isPlaying := true;
      if currentUnit.None? {
        return Fail(NullCurrentUnit);
      }
      if !entityExists {
        return Pass;
      }
      Animate(elapsed, frame);
      events := events + [PlaybackStart(currentUnit.value, Duration)];
      r := Pass;
    }

    /** One run of the animate closure, `elapsed` milliseconds after play. */
    method Animate(elapsed: nat, frame: nat)
      requires Valid() && frame != 0 && currentUnit.Some? && !frameQueued
      modifies this
      ensures Valid()
      ensures waypoints == old(waypoints) && currentUnit == old(currentUnit)
      ensures readOnlyMode == old(readOnlyMode) && listening == old(listening)
      ensures !old(isPlaying) ==> unchanged(this)
      // still running: the next frame is requested
      ensures old(isPlaying) && elapsed < Duration ==>
        isPlaying && animationId == Some(frame) && frameQueued && events == old(events)
      // done: the flag drops, the unit stays where the curve ended, the frame id is kept
      ensures old(isPlaying) && elapsed >= Duration ==>
        !isPlaying && animationId == old(animationId) && frameQueued == old(frameQueued) &&
        events == old(events) + [PlaybackComplete(currentUnit.value)]
    {
      if !isPlaying {
        return;
      }
      if elapsed < Duration {
        animationId := Some(frame);
        frameQueued := true;
      } else {
        isPlaying := false;
        events := events + [PlaybackComplete(currentUnit.value)];
      }
    }

    /**
     * The host runs the queued frame `elapsed` milliseconds after play; `frame` is the id
     * it returns if the run requests another one.
     */
    method Tick(elapsed: nat, frame: nat)
      requires Valid() && frameQueued && frame != 0
      modifies this
      ensures Valid()
      ensures elapsed < Duration ==>
        isPlaying && animationId == Some(frame) && frameQueued && events == old(events)
      ensures elapsed >= Duration ==>
        !isPlaying && !frameQueued &&
        events == old(events) + [PlaybackComplete(old(currentUnit).value)]
      ensures waypoints == old(waypoints) && currentUnit == old(currentUnit)
      ensures readOnlyMode == old(readOnlyMode) && listening == old(listening)
    {
      frameQueued := false;
      Animate(elapsed, frame);
    }

    /** stop: flags off, pending frame cancelled, unit snapped back to the origin. */
    method Stop(entityExists: bool)
      requires Valid()
      modifies this
      ensures Valid()
      ensures !isPlaying && animationId == None && !frameQueued
      ensures events == old(events) + SnapBack(currentUnit, waypoints, entityExists) +
        [PlaybackStopped(currentUnit)]
      ensures waypoints == old(waypoints) && currentUnit == old(currentUnit)
      ensures readOnlyMode == old(readOnlyMode) && listening == old(listening)
    {
      isPlaying := false;
      if animationId.Some? && animationId.value != 0 {
        frameQueued := false;
        animationId := None;
      }
      if currentUnit.Some? && |waypoints| > 0 {
        MoveUnitToPosition(waypoints[0].position, entityExists);
      }
      events := events + [PlaybackStopped(currentUnit)];
    }

    method MoveUnitToPosition(position: Vec3, entityExists: bool)
      modifies this
      ensures events == old(events) +
        (if currentUnit.Some? && entityExists then [UnitMoved(currentUnit.value, position)] else [])
      ensures waypoints == old(waypoints) && currentUnit == old(currentUnit)
      ensures isPlaying == old(isPlaying) && animationId == old(animationId)
      ensures frameQueued == old(frameQueued) && readOnlyMode == old(readOnlyMode)
      ensures listening == old(listening)
    {
      if currentUnit.None? {
        return;
      }
      if entityExists {
        events := events + [UnitMoved(currentUnit.value, position)];
      }
    }

    /** getPathInfo, its waypoint count only; null with fewer than two waypoints. */
    function PathInfoCount(): (r: Option<nat>)
      reads this
      ensures r.None? <==> |waypoints| < 2
      ensures r.Some? ==> r.value == |waypoints|
    {
      if |waypoints| < 2 then None else Some(|waypoints|)
    }

    function GetPath(): (r: seq<Vec3>)
      reads this
      ensures |r| == |waypoints|
    {
      Positions(waypoints)
    }

    method Dispose(entityExists: bool)
      requires Valid()
      modifies this
      ensures Valid()
      ensures !isPlaying && animationId == None && !listening
      ensures currentUnit == None && waypoints == []
      ensures events == old(events) + SnapBack(old(currentUnit), old(waypoints), entityExists) +
        [PlaybackStopped(old(currentUnit))]
    {
      Stop(entityExists);
      listening := false;
      currentUnit := None;
      waypoints := [];
    }
  }

  /** The backend:unit:updated event stop emits when it moves the unit back to waypoint 0. */
  function SnapBack(unit: Option<Id>, ws: seq<Waypoint>, entityExists: bool): (r: seq<PathEvent>)
    ensures r != [] <==> unit.Some? && |ws| > 0 && entityExists
    ensures r != [] ==> r == [UnitMoved(unit.value, ws[0].position)]
  {
    if unit.Some? && |ws| > 0 && entityExists then [UnitMoved(unit.value, ws[0].position)] else []
  }
}

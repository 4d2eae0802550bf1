/**
 `EntityControl`: the four motor commands. Moves are guarded by the
 renderer's look-ahead checks; turns change only the heading.
 */
module EntityControl {
  import opened JsMath
  import opened Canvas
  import opened EntityRenderer

  /** A move of `distance` along the heading is refused when either look-ahead check reports a hit. */
  predicate Blocked(e: Entity, c: Canvas, dx: real, dy: real) {
    CheckCollision(e, c, Num(dx), Num(dy)) || CheckBeacon(e, c, dx, dy)
  }

  /** The displacement of a move of `distance` along the heading: `(distance * cos(angle), distance * sin(angle))`. */
  function Displacement(e: Entity, t: Trig, distance: real): (real, real) {
    (distance * t.cos(e.angle), distance * t.sin(e.angle))
  }

  /** `moveForward(distance)`: translate by `distance` along the heading unless blocked; never turns. */
  function MoveForward(e: Entity, c: Canvas, t: Trig, distance: real): (r: Entity)
    ensures r.angle == e.angle && r.startX == e.startX && r.startY == e.startY
    ensures var (dx, dy) := Displacement(e, t, distance);
            (Blocked(e, c, dx, dy) ==> r == e)
            && (!Blocked(e, c, dx, dy) ==> r.x == e.x + dx && r.y == e.y + dy)
  {
    var (dx, dy) := Displacement(e, t, distance);
    if !Blocked(e, c, dx, dy) then UpdatePosition(e, dx, dy)
    else e
  }

  /** `moveBackward(distance)`: translate by `-distance` along the heading, or, when blocked, reset to the start. */
  function MoveBackward(e: Entity, c: Canvas, t: Trig, distance: real): (r: Entity)
    ensures r.startX == e.startX && r.startY == e.startY
    ensures var (dx, dy) := Displacement(e, t, -distance);
            (Blocked(e, c, dx, dy) ==> r.x == e.startX && r.y == e.startY && r.angle == 0.0)
            && (!Blocked(e, c, dx, dy) ==> r.x == e.x + dx && r.y == e.y + dy && r.angle == e.angle)
  {
    var (dx, dy) := Displacement(e, t, -distance);
    if !Blocked(e, c, dx, dy) then UpdatePosition(e, dx, dy)
    else ResetToStartingPosition(e)
  }

  /** `turnLeft(angle)`: heading decreases by `angle`; position unchanged. */
  function TurnLeft(e: Entity, angle: real): (r: Entity)
    ensures r.angle == e.angle - angle
    ensures r.x == e.x && r.y == e.y && r.startX == e.startX && r.startY == e.startY
  {
    UpdateAngle(e, e.angle - angle)
  }

  /** `turnRight(angle)`: heading increases by `angle`; position unchanged. */
  function TurnRight(e: Entity, angle: real): (r: Entity)
    ensures r.angle == e.angle + angle
    ensures r.x == e.x && r.y == e.y && r.startX == e.startX && r.startY == e.startY
  {
    UpdateAngle(e, e.angle + angle)
  }

  /** Turning left then right by the same angle, in either order, restores the entity. */
  lemma TurnsCancel(e: Entity, angle: real)
    ensures TurnRight(TurnLeft(e, angle), angle) == e
    ensures TurnLeft(TurnRight(e, angle), angle) == e
  {
  }

  /** A forward move that is not blocked is undone by translating back by the same step. */
  lemma MoveForwardUndone(e: Entity, c: Canvas, t: Trig, distance: real)
    ensures var (dx, dy) := Displacement(e, t, distance);
            UpdatePosition(MoveForward(e, c, t, distance), -dx, -dy) == e
            || MoveForward(e, c, t, distance) == e
  {
  }
}

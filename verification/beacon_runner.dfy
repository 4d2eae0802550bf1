/** `Beacon`: the goal rectangle, its reach test and its relocation. Rendering is not modelled. */
module BeaconRunner {
  import opened Wrappers

  /** Half the entity's extent that `isReached` adds around the entity's centre. */
  const Reach: real := 15.0

  datatype Beacon = Beacon(x: real, y: real, width: real, height: real, color: string)

  /** The constructor: width and height default to 30 and the colour to pure blue. */
  function NewBeacon(x: real, y: real, width: Option<real>, height: Option<real>, color: Option<string>): (b: Beacon)
    ensures b.x == x && b.y == y
    ensures b.width == (if width.Some? then width.value else 30.0)
    ensures b.height == (if height.Some? then height.value else 30.0)
    ensures b.color == (if color.Some? then color.value else "rgb(0, 0, 255)")
  {
    Beacon(x, y,
           match width case Some(w) => w case None => 30.0,
           match height case Some(h) => h case None => 30.0,
           match color case Some(s) => s case None => "rgb(0, 0, 255)")
  }

  /** `isReached(entityX, entityY)`: every point of the beacon's rectangle, border included, is reached. */
  function IsReached(b: Beacon, ex: real, ey: real): (r: bool)
    ensures b.x <= ex <= b.x + b.width && b.y <= ey <= b.y + b.height ==> r
  {
    ex + Reach >= b.x && ex - Reach <= b.x + b.width && ey + Reach >= b.y && ey - Reach <= b.y + b.height
  }

  /** A closed axis-aligned box. */
  datatype Box = Box(left: real, right: real, top: real, bottom: real)

  predicate Contains(box: Box, px: real, py: real) {
    box.left <= px <= box.right && box.top <= py <= box.bottom
  }

  /** The 30 by 30 box around the entity's centre. */
  function EntityBox(ex: real, ey: real): Box {
    Box(ex - Reach, ex + Reach, ey - Reach, ey + Reach)
  }

  function Area(b: Beacon): Box {
    Box(b.x, b.x + b.width, b.y, b.y + b.height)
  }

  /** For a beacon of non-negative size, reached means the entity's box and the beacon's rectangle share a point. */
  lemma ReachedIffBoxesMeet(b: Beacon, ex: real, ey: real)
    requires b.width >= 0.0 && b.height >= 0.0
    ensures IsReached(b, ex, ey) <==>
            exists px, py {:trigger Contains(Area(b), px, py)} ::
              Contains(EntityBox(ex, ey), px, py) && Contains(Area(b), px, py)
  {
    if IsReached(b, ex, ey) {
      var px := if ex - Reach >= b.x then ex - Reach else b.x;
      var py := if ey - Reach >= b.y then ey - Reach else b.y;
      assert Contains(EntityBox(ex, ey), px, py) && Contains(Area(b), px, py);
    }
  }

  /** `setLocation(x, y)`: moves the beacon; size and colour are kept. */
  function SetLocation(b: Beacon, x: real, y: real): (r: Beacon)
    ensures r.x == x && r.y == y
    ensures r.width == b.width && r.height == b.height && r.color == b.color
  {
    b.(x := x, y := y)
  }

  /** Only the last relocation matters. */
  lemma SetLocationLastWins(b: Beacon, x1: real, y1: real, x2: real, y2: real)
    ensures SetLocation(SetLocation(b, x1, y1), x2, y2) == SetLocation(b, x2, y2)
  {
  }
}

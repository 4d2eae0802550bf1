/**
 The raster surface the agent reads: a canvas's RGBA byte buffer, the
 `getImageData` read of a rectangle, and the two colour sentinels the agent
 recognises (black for walls, pure blue for beacons).
 */
module Canvas {
  import opened Wrappers

  /** A canvas of `width` by `height` pixels; `data` holds 4 bytes (R, G, B, A) per pixel, row by row. */
  datatype Canvas = Canvas(width: nat, height: nat, data: seq<int>)

  /** What a classified pixel shows. */
  datatype Hit = Wall | Beacon

  /** A rectangle of pixels with non-negative extent. */
  datatype Rect = Rect(x: int, y: int, w: nat, h: nat)

  predicate ValidCanvas(c: Canvas) {
    |c.data| == 4 * c.width * c.height
  }

  /** The colour sentinel of each kind, as (R, G, B): (0, 0, 0) is a wall, (0, 0, 255) a beacon. Alpha is ignored. */
  function Sentinel(h: Hit): (int, int, int) {
    match h
    case Wall => (0, 0, 0)
    case Beacon => (0, 0, 255)
  }

  /** `data[k]`, which is `undefined` outside the buffer. */
  function ByteAt(data: seq<int>, k: int): (r: Option<int>)
    ensures r.Some? <==> 0 <= k < |data|
  {
    if 0 <= k < |data| then Some(data[k]) else None
  }

  /** `data[k] === R && data[k + 1] === G && data[k + 2] === B` for the sentinel of `h`; `undefined` equals no byte. */
  predicate ShowsAt(data: seq<int>, k: int, h: Hit) {
    var (r, g, b) := Sentinel(h);
    ByteAt(data, k) == Some(r) && ByteAt(data, k + 1) == Some(g) && ByteAt(data, k + 2) == Some(b)
  }

  /** Reading a sentinel at `k` needs bytes `k`, `k + 1` and `k + 2` to exist. */
  lemma ShowsAtInside(data: seq<int>, k: int, h: Hit)
    requires ShowsAt(data, k, h)
    ensures 0 <= k && k + 2 < |data|
  {
  }

  /** A pixel is never both sentinels. */
  lemma SentinelsDiffer(data: seq<int>, k: int)
    ensures !(ShowsAt(data, k, Wall) && ShowsAt(data, k, Beacon))
  {
  }

  // ---------------------------------------------------------------------------
  // getImageData
  // ---------------------------------------------------------------------------

  /** One RGBA pixel of an image: four consecutive bytes of its `data`. */
  datatype Pixel = Pixel(r: int, g: int, b: int, a: int)

  /** Pixel (`px`, `py`) of the canvas; pixels outside the canvas read as transparent black. */
  function PixelAt(c: Canvas, px: int, py: int): Pixel {
    var base := 4 * (py * c.width + px);
    if 0 <= px < c.width && 0 <= py < c.height && 0 <= base && base + 4 <= |c.data| then
      Pixel(c.data[base], c.data[base + 1], c.data[base + 2], c.data[base + 3])
    else Pixel(0, 0, 0, 0)
  }

  /** `data[i] === R && data[i + 1] === G && data[i + 2] === B` for the sentinel of `h`, alpha ignored. */
  predicate Shows(p: Pixel, h: Hit) {
    (p.r, p.g, p.b) == Sentinel(h)
  }

  /** Pixel (`px`, `py`) shows the sentinel of `h`. */
  predicate PixelShows(c: Canvas, px: int, py: int, h: Hit) {
    Shows(PixelAt(c, px, py), h)
  }

  /** `n` pixels of row `y`, from column `x` rightwards. */
  function RowPixels(c: Canvas, x: int, y: int, n: nat): (row: seq<Pixel>)
    ensures |row| == n
  {
    seq(n, i requires 0 <= i < n => PixelAt(c, x + i, y))
  }

  /** The rectangle without its bottom row. */
  function Above(r: Rect): (a: Rect)
    requires r.h > 0
    ensures a.x == r.x && a.y == r.y && a.w == r.w && a.h == r.h - 1
  {
    Rect(r.x, r.y, r.w, r.h - 1)
  }

  /** The `w` by `h` rectangle at (`x`, `y`), row by row. */
  function RegionPixels(c: Canvas, r: Rect): seq<Pixel>
    decreases r.h
  {
    if r.h == 0 then [] else RegionPixels(c, Above(r)) + RowPixels(c, r.x, r.y + r.h - 1, r.w)
  }

  /** The read of a `w` by `h` rectangle holds `w * h` pixels, so `4 * w * h` bytes. */
  lemma {:induction false} RegionLength(c: Canvas, r: Rect)
    ensures |RegionPixels(c, r)| == r.w * r.h
    decreases r.h
  {
    if r.h > 0 {
      RegionLength(c, Above(r));
      assert r.w * r.h == r.w * (r.h - 1) + r.w;
    }
  }

  /** The pixels of a rectangle are exactly the canvas pixels at its positions. */
  lemma {:induction false} RegionMembers(c: Canvas, r: Rect, p: Pixel)
    ensures p in RegionPixels(c, r) <==>
            exists px, py :: r.x <= px < r.x + r.w && r.y <= py < r.y + r.h && PixelAt(c, px, py) == p
    decreases r.h
  {
    if r.h > 0 {
      var bottom := r.y + r.h - 1;
      var row := RowPixels(c, r.x, bottom, r.w);
      RegionMembers(c, Above(r), p);
      assert p in RegionPixels(c, r) <==> p in RegionPixels(c, Above(r)) || p in row;
      if p in row {
        var i :| 0 <= i < |row| && row[i] == p;
        assert r.x <= r.x + i < r.x + r.w && r.y <= bottom < r.y + r.h && PixelAt(c, r.x + i, bottom) == p;
      }
      if exists px, py :: r.x <= px < r.x + r.w && r.y <= py < r.y + r.h && PixelAt(c, px, py) == p {
        var px, py :| r.x <= px < r.x + r.w && r.y <= py < r.y + r.h && PixelAt(c, px, py) == p;
        if py == bottom {
          assert row[px - r.x] == p;
        } else {
          assert r.y <= py < Above(r).y + Above(r).h;
        }
      }
    }
  }

  /** The rectangle `getImageData(sx, sy, sw, sh)` covers: a negative extent counts leftwards or upwards. */
  function Normalize(sx: int, sy: int, sw: int, sh: int): (r: Rect)
    ensures r.w as int == if sw < 0 then -sw else sw
    ensures r.h as int == if sh < 0 then -sh else sh
    ensures r.x + r.w == if sw < 0 then sx else sx + sw
    ensures r.y + r.h == if sh < 0 then sy else sy + sh
  {
    Rect(if sw < 0 then sx + sw else sx, if sh < 0 then sy + sh else sy,
         if sw < 0 then -sw else sw, if sh < 0 then -sh else sh)
  }

  /** `ctx.getImageData(sx, sy, sw, sh).data`, four bytes per pixel; it throws (`None`) when the width or height is zero. */
  function GetImageData(c: Canvas, sx: int, sy: int, sw: int, sh: int): (r: Option<seq<Pixel>>)
    ensures r.None? <==> sw == 0 || sh == 0
    ensures r.Some? ==> r.value == RegionPixels(c, Normalize(sx, sy, sw, sh))
  {
    if sw == 0 || sh == 0 then None else Some(RegionPixels(c, Normalize(sx, sy, sw, sh)))
  }

  // ---------------------------------------------------------------------------
  // The four-byte scan
  // ---------------------------------------------------------------------------

  /**
   `for (i = 4 * from; i < data.length; i += 4) if (<sentinel of h at i>) return true; return false`:
   each step of 4 bytes visits the next pixel.
   */
  function ScanFrom(data: seq<Pixel>, h: Hit, from: nat): bool
    decreases |data| - from
  {
    if from >= |data| then false else Shows(data[from], h) || ScanFrom(data, h, from + 1)
  }

  predicate Scan(data: seq<Pixel>, h: Hit) {
    ScanFrom(data, h, 0)
  }

  /** The scan from `from` on finds the sentinel exactly when a pixel from `from` on shows it. */
  lemma {:induction false} ScanFromFinds(data: seq<Pixel>, h: Hit, from: nat)
    ensures ScanFrom(data, h, from) <==> exists k :: from <= k < |data| && Shows(data[k], h)
    decreases |data| - from
  {
    if from < |data| {
      ScanFromFinds(data, h, from + 1);
      if exists k :: from <= k < |data| && Shows(data[k], h) {
        var k :| from <= k < |data| && Shows(data[k], h);
        if k > from {
          assert from + 1 <= k < |data|;
        }
      }
    }
  }

  /** Scanning a rectangle finds the sentinel exactly when some pixel of it shows it. */
  lemma ScanRegion(c: Canvas, r: Rect, h: Hit)
    ensures Scan(RegionPixels(c, r), h) <==>
            exists px, py :: r.x <= px < r.x + r.w && r.y <= py < r.y + r.h && PixelShows(c, px, py, h)
  {
    var data := RegionPixels(c, r);
    ScanFromFinds(data, h, 0);
    if Scan(data, h) {
      var k :| 0 <= k < |data| && Shows(data[k], h);
      RegionMembers(c, r, data[k]);
      var px, py :| r.x <= px < r.x + r.w && r.y <= py < r.y + r.h && PixelAt(c, px, py) == data[k];
      assert PixelShows(c, px, py, h);
    }
    if exists px, py :: r.x <= px < r.x + r.w && r.y <= py < r.y + r.h && PixelShows(c, px, py, h) {
      var px, py :| r.x <= px < r.x + r.w && r.y <= py < r.y + r.h && PixelShows(c, px, py, h);
      RegionMembers(c, r, PixelAt(c, px, py));
      var k :| 0 <= k < |data| && data[k] == PixelAt(c, px, py);
      assert Shows(data[k], h);
    }
  }

  /** Pixels outside the canvas are transparent black, so they may read as walls but never as beacons. */
  lemma OutsideIsNeverBeacon(c: Canvas, px: int, py: int)
    requires !(0 <= px < c.width && 0 <= py < c.height)
    ensures PixelShows(c, px, py, Wall) && !PixelShows(c, px, py, Beacon)
  {
  }
}

/**
 `SensorControl`: two ray-cast range sensors mounted left and right of the
 agent's nose. Each reading sweeps five ray angles across a 15 degree cone
 and reports the first angle whose ray meets a wall or beacon pixel; readings
 are refreshed at most once per 100 ms unless forced. Drawing and logging are
 not modelled.
 */
module SensorControl {
  import opened Wrappers
  import opened JsMath
  import opened Canvas
  import opened EntityRenderer

  /** `this.updateInterval`, in milliseconds. */
  const UpdateInterval: int := 100

  /** The number of ray angles swept per reading. */
  const Samples: nat := 5

  /** `Math.PI / 12`: the cone the samples span (15 degrees). */
  const AngleRange: real := Pi / 12.0

  /** `sensorDistance`: half the distance between the two sensors. */
  const SensorDistance: real := 10.0

  datatype Side = Left | Right

  /**
   A sensor reading `{ distance, detected, type }`. `Unset` is the constructor's
   `{ distance: null, detected: false, type: null }`, replaced at the first refresh.
   */
  datatype Reading = Unset | Reading(distance: int, detected: bool, kind: Option<Hit>)

  datatype SensorData = SensorData(left: Reading, right: Reading)

  /** The sensor object: the cached readings and when they were computed. */
  datatype SensorState = SensorState(data: SensorData, lastUpdated: int)

  /** What a reading is taken from: the agent's body, the canvas, the trigonometry and `sensorRange`. */
  datatype Scene = Scene(body: Entity, canvas: Canvas, trig: Trig, range: nat)

  /** The constructor's state: both readings unset, `lastUpdated = 0`. */
  function NewSensorState(): (r: SensorState)
    ensures r.data.left.Unset? && r.data.right.Unset? && r.lastUpdated == 0
  {
    SensorState(SensorData(Unset, Unset), 0)
  }

  /** The reading returned when no sample ray meets anything. */
  function NoHit(range: nat): Reading {
    Reading(range, false, None)
  }

  /** The shape every computed reading has: a hit is nearer than the range and typed; a miss sits at the range, untyped. */
  predicate WellFormed(r: Reading, range: nat) {
    && r.Reading?
    && (r.detected ==> 0 <= r.distance < range && r.kind.Some?)
    && (!r.detected ==> r.distance == range && r.kind.None?)
  }

  // ---------------------------------------------------------------------------
  // Sensor geometry
  // ---------------------------------------------------------------------------

  /** `(side === 'left' ? -1 : 1) * sensorDistance / radius`. */
  function AngleOffset(side: Side): real {
    (if side == Left then -1.0 else 1.0) * SensorDistance / Radius as real
  }

  /** `getSensorPosition(side)`: `radius + 5` from the centre, at the heading turned by the side's offset. */
  function SensorPosition(s: Scene, side: Side): (p: (real, real))
    ensures Pythagorean(s.trig) ==>
              (p.0 - s.body.x) * (p.0 - s.body.x) + (p.1 - s.body.y) * (p.1 - s.body.y)
                == (Radius as real + 5.0) * (Radius as real + 5.0)
  {
    var sensorAngle := s.body.angle + AngleOffset(side);
    ScaledUnit(Radius as real + 5.0, s.trig.cos(sensorAngle), s.trig.sin(sensorAngle));
    (s.body.x + (Radius as real + 5.0) * s.trig.cos(sensorAngle),
     s.body.y + (Radius as real + 5.0) * s.trig.sin(sensorAngle))
  }

  /** A point `d` along a unit direction lies at distance `d`. */
  lemma ScaledUnit(d: real, c: real, n: real)
    ensures c * c + n * n == 1.0 ==> (d * c) * (d * c) + (d * n) * (d * n) == d * d
  {
    if c * c + n * n == 1.0 {
      calc {
        (d * c) * (d * c) + (d * n) * (d * n);
        d * d * (c * c + n * n);
        d * d;
      }
    }
  }

  /** The two sensors sit at mirrored angles, both `radius + 5` away from the centre. */
  lemma SensorGeometry(s: Scene, side: Side)
    requires Pythagorean(s.trig)
    ensures AngleOffset(Left) == -AngleOffset(Right)
    ensures var (sx, sy) := SensorPosition(s, side);
            (sx - s.body.x) * (sx - s.body.x) + (sy - s.body.y) * (sy - s.body.y)
              == (Radius as real + 5.0) * (Radius as real + 5.0)
  {
  }

  /** Sample `i` of a sweep around `heading`: `heading - range / 2 + i * range / (samples - 1)`. */
  function SampleAngle(heading: real, i: nat): real {
    heading - AngleRange / 2.0 + (i as real) * (AngleRange / (Samples - 1) as real)
  }

  /** The sweep is symmetric about the heading: samples `i` and `4 - i` deviate by opposite amounts, sample 2 not at all. */
  lemma SampleAnglesSymmetric(heading: real, i: nat)
    requires i < Samples
    ensures SampleAngle(heading, i) - heading == -(SampleAngle(heading, Samples - 1 - i) - heading)
    ensures SampleAngle(heading, 2) == heading
    ensures SampleAngle(heading, 0) == heading - Pi / 24.0 && SampleAngle(heading, 4) == heading + Pi / 24.0
  {
  }

  // ---------------------------------------------------------------------------
  // Ray march
  // ---------------------------------------------------------------------------

  /** The byte offset `(y * width + x) * 4` of pixel (`x`, `y`) in the full image. */
  function PixelIndex(c: Canvas, x: int, y: int): int {
    (y * c.width + x) * 4
  }

  /**
   Step `i` of the ray from (`ox`, `oy`) at `angle`: what the rounded pixel
   there shows in the full image, the wall colour checked first. An index
   outside the buffer reads `undefined` and shows nothing.
   */
  function Probe(s: Scene, ox: real, oy: real, angle: real, i: nat): (r: Option<Hit>)
    ensures r == Some(Wall) ==> ShowsAt(s.canvas.data, RayIndex(s, ox, oy, angle, i), Wall)
    ensures r == Some(Beacon) ==> ShowsAt(s.canvas.data, RayIndex(s, ox, oy, angle, i), Beacon)
    ensures r.Some? ==> 0 <= RayIndex(s, ox, oy, angle, i) < |s.canvas.data|
    ensures r.None? <==> !ShowsAt(s.canvas.data, RayIndex(s, ox, oy, angle, i), Wall)
                         && !ShowsAt(s.canvas.data, RayIndex(s, ox, oy, angle, i), Beacon)
  {
    var k := RayIndex(s, ox, oy, angle, i);
    if ShowsAt(s.canvas.data, k, Wall) then Some(Wall)
    else if ShowsAt(s.canvas.data, k, Beacon) then Some(Beacon)
    else None
  }

  /** The buffer offset of step `i`: `Math.round` of the point `i` pixels along the ray. */
  function RayIndex(s: Scene, ox: real, oy: real, angle: real, i: nat): int {
    PixelIndex(s.canvas, Round(ox + (i as real) * s.trig.cos(angle)), Round(oy + (i as real) * s.trig.sin(angle)))
  }

  /**
   `checkForCollision` from step `i` on: the first step below `sensorRange`
   whose pixel is a wall or a beacon, or the no-hit reading.
   */
  function MarchFrom(s: Scene, ox: real, oy: real, angle: real, i: nat): (r: Reading)
    ensures WellFormed(r, s.range)
    ensures r.detected ==> i <= r.distance && Probe(s, ox, oy, angle, r.distance) == r.kind
    ensures r.detected ==> forall k: nat :: i <= k < r.distance ==> Probe(s, ox, oy, angle, k).None?
    ensures !r.detected ==> r == NoHit(s.range)
    ensures !r.detected ==> forall k: nat :: i <= k < s.range ==> Probe(s, ox, oy, angle, k).None?
    decreases s.range - i
  {
    if i >= s.range then NoHit(s.range)
    else
      var p := Probe(s, ox, oy, angle, i);
      if p.Some? then Reading(i, true, p) else MarchFrom(s, ox, oy, angle, i + 1)
  }

  /** `checkForCollision(sensorPosition, angle)`: the ray's nearest wall or beacon pixel. */
  function CheckForCollision(s: Scene, ox: real, oy: real, angle: real): (r: Reading)
    ensures WellFormed(r, s.range)
    ensures r.detected ==> Probe(s, ox, oy, angle, r.distance) == r.kind
    ensures r.detected ==> forall k: nat :: k < r.distance ==> Probe(s, ox, oy, angle, k).None?
    ensures !r.detected <==> forall k: nat :: k < s.range ==> Probe(s, ox, oy, angle, k).None?
  {
    MarchFrom(s, ox, oy, angle, 0)
  }

  // ---------------------------------------------------------------------------
  // Angle sweep
  // ---------------------------------------------------------------------------

  /** The probe of sample `i` of the sweep around `heading`. */
  function SampleProbe(s: Scene, ox: real, oy: real, heading: real, i: nat): Reading {
    CheckForCollision(s, ox, oy, SampleAngle(heading, i))
  }

  /** The loop of `calculateSensorReading` from sample `i` on: the first sample that hits, else no hit. */
  function SweepFrom(s: Scene, ox: real, oy: real, heading: real, i: nat): (r: Reading)
    requires i <= Samples
    ensures WellFormed(r, s.range)
    ensures r.detected ==> exists k :: i <= k < Samples && r == SampleProbe(s, ox, oy, heading, k)
                                     && forall m :: i <= m < k ==> !SampleProbe(s, ox, oy, heading, m).detected
    ensures !r.detected ==> r == NoHit(s.range)
                            && forall m :: i <= m < Samples ==> !SampleProbe(s, ox, oy, heading, m).detected
    decreases Samples - i
  {
    if i == Samples then NoHit(s.range)
    else
      var p := SampleProbe(s, ox, oy, heading, i);
      if p.detected then Reading(p.distance, p.detected, p.kind)
      else SweepFrom(s, ox, oy, heading, i + 1)
  }

  /** `calculateSensorReading(side)`: sweep the five sample angles from the side's sensor position. */
  function CalculateSensorReading(s: Scene, side: Side): (r: Reading)
    ensures WellFormed(r, s.range)
  {
    var (ox, oy) := SensorPosition(s, side);
    SweepFrom(s, ox, oy, s.body.angle, 0)
  }

  /** The sweep returns the first sample that hits, which need not be the nearest hit. */
  lemma SweepTakesFirstHit(s: Scene, ox: real, oy: real, heading: real, k: nat)
    requires k < Samples && SampleProbe(s, ox, oy, heading, k).detected
    requires forall m :: 0 <= m < k ==> !SampleProbe(s, ox, oy, heading, m).detected
    ensures SweepFrom(s, ox, oy, heading, 0) == SampleProbe(s, ox, oy, heading, k)
  {
  }

  // ---------------------------------------------------------------------------
  // Throttled refresh
  // ---------------------------------------------------------------------------

  /** The refresh condition of `updateSensorData`. */
  predicate Due(st: SensorState, now: int, force: bool) {
    force || now - st.lastUpdated > UpdateInterval
  }

  /** `updateSensorData(forceUpdate)`: recompute both readings and stamp the time only when forced or stale. */
  function UpdateSensorData(st: SensorState, s: Scene, now: int, force: bool): (r: SensorState)
    ensures Due(st, now, force) ==>
              r.lastUpdated == now
              && r.data == SensorData(CalculateSensorReading(s, Left), CalculateSensorReading(s, Right))
              && WellFormed(r.data.left, s.range) && WellFormed(r.data.right, s.range)
    ensures !Due(st, now, force) ==> r == st
  {
    if force || now - st.lastUpdated > UpdateInterval then
      SensorState(SensorData(CalculateSensorReading(s, Left), CalculateSensorReading(s, Right)), now)
    else st
  }

  /** `getSensorData()`: an unforced refresh, then the cached readings. */
  function GetSensorData(st: SensorState, s: Scene, now: int): (r: (SensorState, SensorData))
    ensures r.0 == UpdateSensorData(st, s, now, false) && r.1 == r.0.data
    ensures !Due(st, now, false) ==> r.1 == st.data
  {
    var st' := UpdateSensorData(st, s, now, false);
    (st', st'.data)
  }

  /**
   The first unforced read of fresh sensors computes both readings once the
   clock is past the interval, and hands back the unset readings before.
   */
  lemma FirstReadOfNewSensors(s: Scene, now: int)
    ensures var d := GetSensorData(NewSensorState(), s, now).1;
            && (now > UpdateInterval ==> WellFormed(d.left, s.range) && WellFormed(d.right, s.range))
            && (now <= UpdateInterval ==> d.left.Unset? && d.right.Unset?)
  {
  }

  /** A second unforced refresh at the same instant changes nothing, whatever the scene. */
  lemma RefreshIdempotent(st: SensorState, s1: Scene, s2: Scene, now: int)
    ensures var once := UpdateSensorData(st, s1, now, false);
            UpdateSensorData(once, s2, now, false) == once
  {
  }
}

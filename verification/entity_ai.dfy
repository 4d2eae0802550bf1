/**
 `EntityAI`: the agent's epsilon-greedy policy step. Each frame it reads the
 sensors, either takes a random action (exploration) or acts on the
 network's output (exploitation), records where it is, and trains the
 network on a reward built from a fixed table. A periodic monitor punishes
 repetition or inactivity.

 One frame sees one clock value `now`; random draws are parameters. A frame
 that reaches `evaluateOutcome` before any exploitation step has set
 `previousState` throws, and since the frame loop schedules its next frame
 only after `update` returns, the loop ends: that frame is the `Failure` of
 a `Result`. The monitor's own throw ends nothing (see `MonitorStep`).
 */
module EntityAI {
  import opened Wrappers
  import opened JsMath
  import opened Canvas
  import opened EntityRenderer
  import EntityControl
  import opened SensorControl
  import opened NeuralNetwork
  import opened ActionHistory
  import StateLoading

  /** `this.epsilon`: the exploration rate, never changed. */
  const Epsilon: real := 0.1

  /** The distance `moveForward` is called with. */
  const Step: real := 5.0

  /** `Math.PI / 18`, the angle of one turn. */
  const TurnAngle: real := Pi / 18.0

  /** `previousState`: the input and decision of the last exploitation step, and the `lastAction` then on record. */
  datatype Prev = Prev(inputArray: seq<real>, decision: seq<real>, action: Option<Action>)

  /** The fields of `EntityAI` the policy reads or writes. */
  datatype Agent = Agent(
    previousState: Option<Prev>,
    epsilon: real,
    lastActionTime: int,
    actionHistory: seq<Entry>,
    lastAction: Option<Action>,
    exploredAreas: set<(int, int)>,
    lastPosition: (real, real),
    stationaryCounter: nat,
    collisionCounter: nat,
    beaconReachedCounter: nat,
    totalReward: real,
    rewardCount: nat)

  /** Everything a frame changes: the agent, its network, the sensor cache and the body. */
  datatype World = World(ai: Agent, brain: Network, sensors: SensorState, body: Entity)

  /** What a frame reads but never changes: the canvas, trigonometry, the sigmoid and `sensorRange`. */
  datatype Env = Env(canvas: Canvas, trig: Trig, sig: Sigmoid, sensorRange: nat)

  /** The one way a step fails: `previousState.inputArray` read while `previousState` is null. */
  datatype Error = NoPreviousState

  /** The constructor, at time `now`, for a body at its starting position. */
  function NewAgent(body: Entity, now: int): (a: Agent)
    ensures a.previousState.None? && a.epsilon == Epsilon && a.lastActionTime == now
    ensures a.actionHistory == [] && a.exploredAreas == {} && a.lastPosition == (body.x, body.y)
    ensures a.collisionCounter == 0 && a.beaconReachedCounter == 0 && a.rewardCount == 0 && a.totalReward == 0.0
    ensures a.stationaryCounter == 0 && a.lastAction.None?
  {
    Agent(None, Epsilon, now, [], None, {}, (body.x, body.y), 0, 0, 0, 0.0, 0)
  }

  /** The sensors' view of the world. */
  function SceneOf(w: World, env: Env): Scene {
    Scene(w.body, env.canvas, env.trig, env.sensorRange)
  }

  /**
   What every step keeps: a network taking the four sensor inputs and giving
   the three command outputs, a bounded history, the constant exploration
   rate, and a recorded input the network accepts.
   */
  predicate Invariant(w: World) {
    && WellShaped(w.brain) && w.brain.layerSizes[0] == 4 && OutputSize(w.brain) == 3
    && |w.ai.actionHistory| <= Capacity
    && w.ai.epsilon == Epsilon
    && (w.ai.previousState.Some? ==> |w.ai.previousState.value.inputArray| == 4)
  }

  /** Counters, explored cells and the reward count never go back; epsilon stays put. */
  predicate Progressed(a: Agent, b: Agent) {
    && a.collisionCounter <= b.collisionCounter
    && a.beaconReachedCounter <= b.beaconReachedCounter
    && a.exploredAreas <= b.exploredAreas
    && a.rewardCount <= b.rewardCount
    && a.epsilon == b.epsilon
  }

  lemma ProgressedTransitive(a: Agent, b: Agent, c: Agent)
    requires Progressed(a, b) && Progressed(b, c)
    ensures Progressed(a, c)
  {
  }

  // ---------------------------------------------------------------------------
  // Inputs and actions
  // ---------------------------------------------------------------------------

  /** A reading's distance as a number: the initial `null` counts as 0 in `null / 100`. */
  function DistanceOf(r: Reading): real {
    if r.Reading? then r.distance as real else 0.0
  }

  /** A reading's `detected ? 1 : 0`. */
  function FlagOf(r: Reading): (v: real)
    ensures v == 1.0 <==> r.Reading? && r.detected
    ensures v == 0.0 || v == 1.0
  {
    if r.Reading? && r.detected then 1.0 else 0.0
  }

  /** `normalizeSensorData(sensorData)`: distance over 100 and the detection flag, left then right. */
  function NormalizeSensorData(d: SensorData): (v: seq<real>)
    ensures |v| == 4
    ensures v[1] == FlagOf(d.left) && v[3] == FlagOf(d.right)
    ensures d.left.Reading? ==> v[0] == d.left.distance as real / 100.0
    ensures d.right.Reading? ==> v[2] == d.right.distance as real / 100.0
    ensures d.left.Unset? ==> v[0] == 0.0
    ensures d.right.Unset? ==> v[2] == 0.0
  {
    [DistanceOf(d.left) / 100.0, FlagOf(d.left), DistanceOf(d.right) / 100.0, FlagOf(d.right)]
  }

  /** Computed readings normalise into `[0, range / 100]`, a miss exactly to `range / 100`, with the flag set exactly on a hit. */
  lemma NormalizedBounds(d: SensorData, range: nat)
    requires WellFormed(d.left, range) && WellFormed(d.right, range)
    ensures var v := NormalizeSensorData(d);
            && 0.0 <= v[0] <= range as real / 100.0 && 0.0 <= v[2] <= range as real / 100.0
            && (v[1] == 0.0 ==> v[0] == range as real / 100.0)
            && (v[3] == 0.0 ==> v[2] == range as real / 100.0)
            && (v[1] == 1.0 <==> d.left.detected) && (v[3] == 1.0 <==> d.right.detected)
  {
  }

  /** One command applied to the body: `moveForward(5)`, `turnLeft(PI / 18)` or `turnRight(PI / 18)`. */
  function Perform(b: Entity, env: Env, a: Action): (r: Entity)
    ensures r.startX == b.startX && r.startY == b.startY
    ensures a != MoveForward ==> r.x == b.x && r.y == b.y
    ensures r.angle == b.angle + (match a case MoveForward => 0.0 case TurnLeft => -TurnAngle case TurnRight => TurnAngle)
  {
    match a
    case MoveForward => EntityControl.MoveForward(b, env.canvas, env.trig, Step)
    case TurnLeft => EntityControl.TurnLeft(b, TurnAngle)
    case TurnRight => EntityControl.TurnRight(b, TurnAngle)
  }

  /** `Math.floor(Math.random() * 3)` as an action: each takes a third of the draws, in command order. */
  function RandomAction(pick: real): (a: Action)
    requires 0.0 <= pick < 1.0
    ensures a == MoveForward <==> pick < 1.0 / 3.0
    ensures a == TurnLeft <==> 1.0 / 3.0 <= pick < 2.0 / 3.0
    ensures a == TurnRight <==> 2.0 / 3.0 <= pick
  {
    var index := (pick * 3.0).Floor;
    if index == 0 then MoveForward else if index == 1 then TurnLeft else TurnRight
  }

  /** Output `k` of a decision fires: `decision[k] > 0.5`. */
  predicate Fires(decision: seq<real>, k: nat)
    requires k < |decision|
  {
    decision[k] > 0.5
  }

  predicate AnyFires(decision: seq<real>)
    requires |decision| == 3
  {
    Fires(decision, 0) || Fires(decision, 1) || Fires(decision, 2)
  }

  /** `currentAction` after the three tests: the last command that fired. */
  function LastFired(decision: seq<real>): (a: Option<Action>)
    requires |decision| == 3
    ensures a.None? <==> !AnyFires(decision)
    ensures a == Some(TurnRight) <==> Fires(decision, 2)
    ensures a == Some(TurnLeft) <==> Fires(decision, 1) && !Fires(decision, 2)
    ensures a == Some(MoveForward) <==> Fires(decision, 0) && !Fires(decision, 1) && !Fires(decision, 2)
  {
    var a0: Option<Action> := None;
    var a1 := if decision[0] > 0.5 then Some(MoveForward) else a0;
    var a2 := if decision[1] > 0.5 then Some(TurnLeft) else a1;
    if decision[2] > 0.5 then Some(TurnRight) else a2
  }

  /** The body after every fired command, in order: forward, then left, then right. */
  function Dispatch(b: Entity, env: Env, decision: seq<real>): (r: Entity)
    requires |decision| == 3
    ensures !AnyFires(decision) ==> r == b
    ensures !Fires(decision, 0) ==> r.x == b.x && r.y == b.y
    ensures Fires(decision, 0) ==>
              var m := EntityControl.MoveForward(b, env.canvas, env.trig, Step);
              r.x == m.x && r.y == m.y
    ensures r.angle == b.angle - (if Fires(decision, 1) then TurnAngle else 0.0) + (if Fires(decision, 2) then TurnAngle else 0.0)
    ensures r.startX == b.startX && r.startY == b.startY
  {
    var b1 := if decision[0] > 0.5 then Perform(b, env, MoveForward) else b;
    var b2 := if decision[1] > 0.5 then Perform(b1, env, TurnLeft) else b1;
    if decision[2] > 0.5 then Perform(b2, env, TurnRight) else b2
  }

  // ---------------------------------------------------------------------------
  // Exploration bookkeeping and rewards
  // ---------------------------------------------------------------------------

  /** The explored cell of a position: `${Math.round(x)},${Math.round(y)}`. */
  function Cell(b: Entity): (int, int) {
    (Round(b.x), Round(b.y))
  }

  /** `updateExplorationStatus()`: mark the current cell, count a frame without movement, remember the position. */
  function UpdateExplorationStatus(ai: Agent, b: Entity): (r: Agent)
    ensures Cell(b) in r.exploredAreas && ai.exploredAreas <= r.exploredAreas
    ensures |r.exploredAreas| == |ai.exploredAreas| + (if Cell(b) in ai.exploredAreas then 0 else 1)
    ensures (b.x, b.y) == ai.lastPosition ==> r.stationaryCounter == ai.stationaryCounter + 1
    ensures (b.x, b.y) != ai.lastPosition ==> r.stationaryCounter == 0
    ensures r.lastPosition == (b.x, b.y)
    ensures r == ai.(exploredAreas := r.exploredAreas, stationaryCounter := r.stationaryCounter, lastPosition := r.lastPosition)
  {
    var stationary := if b.x == ai.lastPosition.0 && b.y == ai.lastPosition.1 then ai.stationaryCounter + 1 else 0;
    var explored := ai.exploredAreas + {Cell(b)};
    assert |explored| == |ai.exploredAreas| + (if Cell(b) in ai.exploredAreas then 0 else 1) by {
      if Cell(b) in ai.exploredAreas {
        assert explored == ai.exploredAreas;
      }
    }
    ai.(exploredAreas := explored, stationaryCounter := stationary, lastPosition := (b.x, b.y))
  }

  /** A body that stays put for `n` more frames has its stationary counter raised by `n`. */
  lemma {:induction false} StandingStillCounts(ai: Agent, b: Entity, n: nat)
    requires ai.lastPosition == (b.x, b.y)
    ensures StandStill(ai, b, n).stationaryCounter == ai.stationaryCounter + n
    ensures StandStill(ai, b, n).exploredAreas == ai.exploredAreas + (if n == 0 then {} else {Cell(b)})
    decreases n
  {
    if n > 0 {
      StandingStillCounts(UpdateExplorationStatus(ai, b), b, n - 1);
    }
  }

  /** `n` frames of exploration bookkeeping at the same position. */
  function StandStill(ai: Agent, b: Entity, n: nat): Agent
    decreases n
  {
    if n == 0 then ai else StandStill(UpdateExplorationStatus(ai, b), b, n - 1)
  }

  /** A reading of kind `h` nearer than `limit`: `type === h && distance < limit`. */
  predicate Near(r: Reading, h: Hit, limit: int) {
    r.Reading? && r.kind == Some(h) && r.distance < limit
  }

  /** Either sensor reads kind `h` nearer than `limit`. */
  predicate SensesWithin(d: SensorData, h: Hit, limit: int) {
    Near(d.left, h, limit) || Near(d.right, h, limit)
  }

  /** The five conditions the reward table looks at. */
  datatype Signals = Signals(explored: bool, collided: bool, atBeacon: bool, idle: bool, nearWall: bool)

  /**
   The conditions as `calculateReward` evaluates them. The collision test is
   `checkCollision()`, whose omitted arguments default to 0: the window
   around the current position.
   */
  function Observe(ai: Agent, b: Entity, c: Canvas, d: SensorData): Signals {
    Signals(
      |ai.exploredAreas| % 10 == 0,
      CheckCollision(b, c, Num(0.0), Num(0.0)),
      SensesWithin(d, Beacon, 5),
      ai.stationaryCounter > 10 || IsMovingInCircles(ai.actionHistory),
      SensesWithin(d, Wall, 10))
  }

  /** The reward table: +0.2 explored, -1 collided, +1 at a beacon, -0.5 idle or circling, -0.2 near a wall. */
  function RewardOf(s: Signals): (r: real)
    ensures -1.7 <= r <= 1.2
    ensures !s.collided ==> -0.7 <= r
  {
    (if s.explored then 0.2 else 0.0) + (if s.collided then -1.0 else 0.0) + (if s.atBeacon then 1.0 else 0.0)
      + (if s.idle then -0.5 else 0.0) + (if s.nearWall then -0.2 else 0.0)
  }

  /**
   `calculateReward(sensorData)`: the table applied in the source's order to
   the first component, and the collision and beacon counters each raised
   by one on their condition; nothing else changes.
   */
  function CalculateReward(ai: Agent, b: Entity, c: Canvas, d: SensorData): (out: (seq<real>, Agent))
    ensures out.0 == [RewardOf(Observe(ai, b, c, d)), 0.0, 0.0]
    ensures out.1.collisionCounter == ai.collisionCounter + (if Observe(ai, b, c, d).collided then 1 else 0)
    ensures out.1.beaconReachedCounter == ai.beaconReachedCounter + (if Observe(ai, b, c, d).atBeacon then 1 else 0)
    ensures out.1 == ai.(collisionCounter := out.1.collisionCounter, beaconReachedCounter := out.1.beaconReachedCounter)
  {
    var r0 := 0.0;
    var r1 := if |ai.exploredAreas| % 10 == 0 then r0 + 0.2 else r0;
    var collided := CheckCollision(b, c, Num(0.0), Num(0.0));
    var r2 := if collided then r1 - 1.0 else r1;
    var ai1 := if collided then ai.(collisionCounter := ai.collisionCounter + 1) else ai;
    var atBeacon := Near(d.left, Beacon, 5) || Near(d.right, Beacon, 5);
    var r3 := if atBeacon then r2 + 1.0 else r2;
    var ai2 := if atBeacon then ai1.(beaconReachedCounter := ai1.beaconReachedCounter + 1) else ai1;
    var r4 := if ai.stationaryCounter > 10 || IsMovingInCircles(ai.actionHistory) then r3 - 0.5 else r3;
    var r5 := if Near(d.left, Wall, 10) || Near(d.right, Wall, 10) then r4 - 0.2 else r4;
    ([r5, 0.0, 0.0], ai2)
  }

  /** `updateAverageReward(reward)`. */
  function UpdateAverageReward(ai: Agent, reward: real): (r: Agent)
    ensures r.rewardCount == ai.rewardCount + 1
    ensures r.totalReward == ai.totalReward + reward
    ensures r == ai.(totalReward := r.totalReward, rewardCount := r.rewardCount)
  {
    ai.(totalReward := ai.totalReward + reward, rewardCount := ai.rewardCount + 1)
  }

  /** `calculateAverageReward()`: the mean reward so far, 0 before any. */
  function CalculateAverageReward(ai: Agent): (r: real)
    ensures ai.rewardCount == 0 ==> r == 0.0
    ensures ai.rewardCount > 0 ==> r * ai.rewardCount as real == ai.totalReward
  {
    if ai.rewardCount > 0 then ai.totalReward / ai.rewardCount as real else 0.0
  }

  /** After `n` equal rewards from a fresh total, the average is that reward. */
  lemma {:induction false} AverageOfEqualRewards(ai: Agent, v: real, n: nat)
    requires ai.rewardCount == 0 && ai.totalReward == 0.0 && n > 0
    ensures CalculateAverageReward(Repeat(ai, v, n)) == v
  {
    RepeatTotals(ai, v, n);
    var r := Repeat(ai, v, n);
    assert r.totalReward == v * n as real && r.rewardCount == n;
  }

  /** `n` calls of `updateAverageReward(v)`. */
  function Repeat(ai: Agent, v: real, n: nat): Agent
    decreases n
  {
    if n == 0 then ai else Repeat(UpdateAverageReward(ai, v), v, n - 1)
  }

  lemma {:induction false} RepeatTotals(ai: Agent, v: real, n: nat)
    ensures Repeat(ai, v, n).rewardCount == ai.rewardCount + n
    ensures Repeat(ai, v, n).totalReward == ai.totalReward + v * n as real
    decreases n
  {
    if n > 0 {
      RepeatTotals(UpdateAverageReward(ai, v), v, n - 1);
    }
  }

  // ---------------------------------------------------------------------------
  // Evaluation and the policy step
  // ---------------------------------------------------------------------------

  /** The readings `evaluateOutcome` sees: an unforced refresh at `now`. */
  function ReadingsAt(w: World, env: Env, now: int): SensorData {
    GetSensorData(w.sensors, SceneOf(w, env), now).1
  }

  /** The first target component `evaluateOutcome` trains on: -1 when repetitive or inactive away from a beacon, else the table. */
  function TargetOf(w: World, env: Env, now: int): real {
    var d := ReadingsAt(w, env, now);
    if IsRepetitiveOrInactive(w.ai.actionHistory, w.ai.lastActionTime, now) && !SensesWithin(d, Beacon, 10) then -1.0
    else RewardOf(Observe(w.ai, w.body, env.canvas, d))
  }

  /**
   `evaluateOutcome()`: reward the recorded input and train once on it. It
   fails exactly when nothing has been recorded yet.
   */
  function EvaluateOutcome(w: World, env: Env, now: int): (r: Result<World, Error>)
    requires Invariant(w)
    ensures r.Failure? <==> w.ai.previousState.None?
    ensures r.Success? ==>
              && Invariant(r.value)
              && Progressed(w.ai, r.value.ai)
              && r.value.ai.rewardCount == w.ai.rewardCount + 1
              && r.value.ai.totalReward == w.ai.totalReward + TargetOf(w, env, now)
              && r.value.brain == Train(w.brain, env.sig, [Sample(w.ai.previousState.value.inputArray, [TargetOf(w, env, now), 0.0, 0.0])], 1)
              && r.value.sensors == UpdateSensorData(w.sensors, SceneOf(w, env), now, false)
              && r.value.body == w.body
              && r.value.ai.actionHistory == w.ai.actionHistory
              && r.value.ai.previousState == w.ai.previousState
              && r.value.ai.lastActionTime == w.ai.lastActionTime
              && r.value.ai.exploredAreas == w.ai.exploredAreas
  {
    var (sensors, d) := GetSensorData(w.sensors, SceneOf(w, env), now);
    // The reward vector `calculateReward` returns is `[RewardOf(...), 0, 0]`; `TargetOf` picks it or the penalty.
    var (_, ai1) := CalculateReward(w.ai, w.body, env.canvas, d);
    var target := [TargetOf(w, env, now), 0.0, 0.0];
    if ai1.previousState.None? then Failure(NoPreviousState)
    else
      var sample := Sample(ai1.previousState.value.inputArray, target);
      assert Fits(w.brain, sample);
      var brain := Train(w.brain, env.sig, [sample], 1);
      Success(World(UpdateAverageReward(ai1, target[0]), brain, sensors, w.body))
  }

  /**
   The target `evaluateOutcome` trains on is the first component of the
   vector `calculateReward` returns on the refreshed readings, unless the
   agent is repetitive or inactive with no beacon within 10, when it is -1.
   */
  lemma TargetIsRewardUnlessPenalised(w: World, env: Env, now: int)
    ensures var d := ReadingsAt(w, env, now);
            var penalised := IsRepetitiveOrInactive(w.ai.actionHistory, w.ai.lastActionTime, now) && !SensesWithin(d, Beacon, 10);
            && (penalised ==> TargetOf(w, env, now) == -1.0)
            && (!penalised ==> TargetOf(w, env, now) == CalculateReward(w.ai, w.body, env.canvas, d).0[0])
  {
  }

  /**
   `takeRandomAction()` with draw `pick`: perform the drawn command, record
   it as `lastAction` and in the history, then evaluate.
   */
  function TakeRandomAction(w: World, env: Env, now: int, pick: real): (r: Result<World, Error>)
    requires Invariant(w) && 0.0 <= pick < 1.0
    ensures r.Failure? <==> w.ai.previousState.None?
    ensures r.Success? ==>
              var a := RandomAction(pick);
              && Invariant(r.value) && Progressed(w.ai, r.value.ai)
              && r.value.ai.rewardCount == w.ai.rewardCount + 1
              && r.value.ai.lastAction == Some(a)
              && r.value.ai.actionHistory == UpdateActionHistory(w.ai.actionHistory, Some(a), now)
              && r.value.body == Perform(w.body, env, a)
              && r.value.ai.lastActionTime == w.ai.lastActionTime
  {
    var a := RandomAction(pick);
    var ai := w.ai.(lastAction := Some(a), actionHistory := UpdateActionHistory(w.ai.actionHistory, Some(a), now));
    EvaluateOutcome(w.(body := Perform(w.body, env, a), ai := ai), env, now)
  }

  /**
   `makeDecision(decision)`: perform every command whose output exceeds 0.5,
   record only the last one fired, and when any fired stamp the time and
   evaluate. `lastAction` is left alone.
   */
  function MakeDecision(w: World, env: Env, decision: seq<real>, now: int): (r: Result<World, Error>)
    requires Invariant(w) && |decision| == 3 && w.ai.previousState.Some?
    ensures r.Success?
    ensures Invariant(r.value) && Progressed(w.ai, r.value.ai)
    ensures r.value.ai.actionHistory == UpdateActionHistory(w.ai.actionHistory, LastFired(decision), now)
    ensures r.value.ai.lastAction == w.ai.lastAction
    ensures r.value.body == Dispatch(w.body, env, decision)
    ensures AnyFires(decision) ==> r.value.ai.lastActionTime == now && r.value.ai.rewardCount == w.ai.rewardCount + 1
    ensures !AnyFires(decision) ==> r.value == w
  {
    var current := LastFired(decision);
    var w1 := w.(body := Dispatch(w.body, env, decision), ai := w.ai.(actionHistory := UpdateActionHistory(w.ai.actionHistory, current, now)));
    if decision[0] > 0.5 || decision[1] > 0.5 || decision[2] > 0.5 then
      EvaluateOutcome(w1.(ai := w1.ai.(lastActionTime := now)), env, now)
    else
      Success(w1)
  }

  /** The decision the network makes on the readings of a frame. */
  function DecisionAt(w: World, env: Env, now: int): (decision: seq<real>)
    requires Invariant(w)
    ensures |decision| == 3
    ensures forall k :: 0 <= k < 3 ==> 0.0 < decision[k] < 1.0
  {
    FeedForward(w.brain, env.sig, NormalizeSensorData(GetSensorData(w.sensors, SceneOf(w, env), now).1))
  }

  /**
   `update()` with clock `now`, the exploration draw `coin` and the action
   draw `pick`: read the sensors, explore or exploit, record the position,
   evaluate once more.
   */
  function Update(w: World, env: Env, now: int, coin: real, pick: real): (r: Result<World, Error>)
    requires Invariant(w) && 0.0 <= coin < 1.0 && 0.0 <= pick < 1.0
    ensures r.Failure? <==> coin < Epsilon && w.ai.previousState.None?
    ensures r.Success? ==> Invariant(r.value) && Progressed(w.ai, r.value.ai)
    ensures r.Success? ==> r.value.ai.previousState.Some?
    ensures r.Success? && coin < Epsilon ==> r.value.ai.rewardCount == w.ai.rewardCount + 2
    ensures r.Success? && coin >= Epsilon ==>
              r.value.ai.rewardCount == w.ai.rewardCount + (if AnyFires(DecisionAt(w, env, now)) then 2 else 1)
    ensures r.Success? ==> Cell(r.value.body) in r.value.ai.exploredAreas
  {
    var (sensors, d) := GetSensorData(w.sensors, SceneOf(w, env), now);
    var input := NormalizeSensorData(d);
    var stepped :=
      if coin < w.ai.epsilon then TakeRandomAction(w.(sensors := sensors), env, now, pick)
      else
        var decision := FeedForward(w.brain, env.sig, input);
        var recorded := w.(sensors := sensors, ai := w.ai.(previousState := Some(Prev(input, decision, w.ai.lastAction))));
        MakeDecision(recorded, env, decision, now);
    match stepped
    case Failure(e) => Failure(e)
    case Success(w2) =>
      var w3 := w2.(ai := UpdateExplorationStatus(w2.ai, w2.body));
      EvaluateOutcome(w3, env, now)
  }

  /**
   The monitor callback at time `now`: when the agent is repetitive or
   inactive, train the recorded input towards [-1, 0, 0] and count a reward
   of -1. With nothing recorded, `previousState?.inputArray` is `undefined`
   and the forward pass of `backpropagate` throws on its first read, before
   any weight or counter is written; the throw ends only this callback, so
   the state is unchanged and the interval fires again.
   */
  function MonitorStep(w: World, env: Env, now: int): (r: World)
    requires Invariant(w)
    ensures !IsRepetitiveOrInactive(w.ai.actionHistory, w.ai.lastActionTime, now) ==> r == w
    ensures w.ai.previousState.None? ==> r == w
    ensures IsRepetitiveOrInactive(w.ai.actionHistory, w.ai.lastActionTime, now) && w.ai.previousState.Some? ==>
              && r.brain == Train(w.brain, env.sig, [Sample(w.ai.previousState.value.inputArray, [-1.0, 0.0, 0.0])], 1)
              && r.ai == UpdateAverageReward(w.ai, -1.0)
              && r.body == w.body && r.sensors == w.sensors
    ensures Invariant(r) && Progressed(w.ai, r.ai)
  {
    if !IsRepetitiveOrInactive(w.ai.actionHistory, w.ai.lastActionTime, now) then w
    else if w.ai.previousState.None? then w
    else
      var reward := [-1.0, 0.0, 0.0];
      var sample := Sample(w.ai.previousState.value.inputArray, reward);
      assert Fits(w.brain, sample);
      w.(brain := Train(w.brain, env.sig, [sample], 1), ai := UpdateAverageReward(w.ai, reward[0]))
  }

  /**
   `loadState(state)` on the agent: only the network changes, and the
   invariant survives exactly when the loaded arrays fit the layer sizes.
   */
  function LoadState(w: World, state: Option<StateLoading.Stored>): (r: World)
    ensures r == w.(brain := r.brain)
    ensures r.brain == StateLoading.LoadState(w.brain, state)
    ensures Invariant(w) && !(state.Some? && state.value.weights.Some? && state.value.biases.Some?) ==> Invariant(r)
    ensures Invariant(w) && state.Some? && state.value.weights.Some? && state.value.biases.Some? ==>
              (Invariant(r) <==> ShapedFor(w.brain.layerSizes,
                                            StateLoading.Values(StateLoading.SortByKey(state.value.weights.value)),
                                            StateLoading.Values(StateLoading.SortByKey(state.value.biases.value))))
  {
    w.(brain := StateLoading.LoadState(w.brain, state))
  }

  /** An exploiting frame always succeeds and records an input, so the frame after it cannot fail, whatever its draws. */
  lemma ExploitingFirstNeverFails(w: World, env: Env, now: int, coin: real, pick: real, now2: int, coin2: real, pick2: real)
    requires Invariant(w) && 0.0 <= coin < 1.0 && 0.0 <= pick < 1.0 && coin >= Epsilon
    requires 0.0 <= coin2 < 1.0 && 0.0 <= pick2 < 1.0
    ensures Update(w, env, now, coin, pick).Success?
    ensures Update(Update(w, env, now, coin, pick).value, env, now2, coin2, pick2).Success?
  {
  }

  /** Two unforced sensor reads at the same instant return the same readings, wherever the body moved between them. */
  lemma OneReadingPerFrame(w: World, env: Env, now: int, b: Entity)
    ensures var st := GetSensorData(w.sensors, SceneOf(w, env), now).0;
            GetSensorData(st, Scene(b, env.canvas, env.trig, env.sensorRange), now) == (st, st.data)
  {
    RefreshIdempotent(w.sensors, SceneOf(w, env), Scene(b, env.canvas, env.trig, env.sensorRange), now);
  }
}

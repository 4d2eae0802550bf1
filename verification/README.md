# NeuralNet-Sandbox agent core in Dafny

This project models the browser agent of NeuralNet-Sandbox. A round body moves over a
canvas map, senses walls (black pixels) and beacons (pure blue pixels) with two
ray-cast sensors, and learns from a fixed reward table with a small feed-forward
network. The project covers:

- `NeuralNetwork` (`neural_network.dfy`): the network engine. It covers layer shapes,
  random initialisation, the forward pass, backpropagation with its update order,
  epoch/sample training, and state export and import. `sigmoid` is a parameter whose
  values lie in (0, 1).
- `Canvas` (`canvas.dfy`): the RGBA pixel buffer, `getImageData` over a rectangle, the
  two colour sentinels and the four-byte scan loop.
- `EntityRenderer` (`entity_renderer.dfy`): the body's position, heading and starting
  point, plus the two look-ahead window checks (`checkCollision`, `checkBeacon`).
- `EntityControl` (`entity_control.dfy`): guarded moves and turns.
- `BeaconRunner` (`beacon_runner.dfy`): the beacon's defaults, `isReached` and
  `setLocation`.
- `SensorControl` (`sensor_control.dfy`):
  - sensor placement;
  - the ray march (first wall or beacon pixel);
  - the five-angle sweep (first sample that hits, not the nearest);
  - the 100 ms refresh throttle.
- `ActionHistory` (`action_history.dfy`):
  - the 20-entry action history;
  - the circling detector;
  - `findMostCommonAction`;
  - the repetition/inactivity detector.
- `StateLoading` (`state_loading.dfy`): `loadState`, which orders the stored arrays by
  the string sort of their keys.
- `EntityAI` (`entity_ai.dfy`): the policy step (`update`), `makeDecision`,
  `takeRandomAction`, `evaluateOutcome`, the reward table, the exploration bookkeeping,
  the reward average and one invocation of the monitor callback.

Conventions:

- Numbers are Dafny `real`s. `Math.round(x)` is `floor(x + 0.5)`.
- `cos`/`sin` are a `Trig` parameter.
- `Math.PI` is the decimal constant 3.141592653589793.
- `Date.now()` is a parameter `now`. The model gives every clock read of one frame the
  same value (see "## Left out").
- `Math.random()` values are parameters: `coin` and `pick` for a frame, and a draw
  stream for initialisation.
- Operations are pure functions from an immutable world to a new one.
- A `TypeError` thrown inside `update` ends the frame loop, because `gameLoop` schedules
  its next frame only after `update` returns. Such a frame is the `Failure` of a `Result`.
- The monitor's `TypeError`, with nothing recorded, is thrown before anything is written
  and ends only that callback. `MonitorStep` returns the world unchanged in that case.
- The canvas is a flat byte buffer, four bytes per pixel. `getImageData` returns one
  RGBA `Pixel` per element, so each step of 4 in the scan loop visits one pixel. The
  sensors index the flat buffer directly, as the source does.

## Notes on the source

- **Reward table.**
  - There is no baseline term.
  - The +0.2 exploration term applies on every evaluation where the explored set's size
    at that moment is a multiple of 10, including 0. There can be two evaluations per
    frame, and the first runs before the current cell is recorded.
  - A collision costs −1.
  - A beacon sensed within 5 earns +1.
  - Idling or circling costs −0.5.
  - A wall sensed within 10 costs −0.2.
  - There is no beacon-approach or farming term.
- **Cooldown and epsilon.** There is no adaptive cooldown and no success streak.
  `epsilon` is a constant 0.1. The monitor only trains towards [−1, 0, 0] and counts a
  reward of −1; it never changes `epsilon`.
- **Exploitation.**
  - The outputs are not normalised. Every output above 0.5 fires, in the order
    forward, left, right, so several commands can run in one frame.
  - Only the last command fired is recorded.
- **Repetition threshold.** The threshold is "more than 80%" of the last five
  actions. That is exactly "all of them equal".
- **Backward pass.** The previous layer's error is the sum of the raw layer errors, not
  the gradients. It is taken through the weights *after* this layer's update.
- **Per-frame training.** `update` trains up to twice per frame: once inside
  `makeDecision`/`takeRandomAction` and once at its end.

## Model

| member | source | states |
|---|---|---|
| NeuralNetwork.InitNetwork | public/js/neuralNetwork.js:1-16 | the constructor gives `layerSizes.length − 1` weight vectors of length `sizes[i]·sizes[i−1]` and bias vectors of length `sizes[i]`, every value in [−1, 1) |
| NeuralNetwork.CreateRandomArray | public/js/neuralNetwork.js:19-21 | the array has the requested length and every entry `2·random − 1` lies in [−1, 1) |
| NeuralNetwork.Relu | public/js/neuralNetwork.js:132-134 | `max(0, x)` is non-negative, at least `x`, and equal to `x` or 0 |
| NeuralNetwork.DRelu | public/js/neuralNetwork.js:142-144 | the derivative is 0 or 1, and 1 exactly for a positive activation |
| NeuralNetwork.DSigmoid | public/js/neuralNetwork.js:137-139 | `a(1 − a)` never exceeds 1/4 and is positive for an activation in (0, 1) |
| NeuralNetwork.Activate | public/js/neuralNetwork.js:34 | the last layer's activation lies in (0, 1), a hidden layer's is non-negative |
| NeuralNetwork.ForwardLayer | public/js/neuralNetwork.js:28-36 | one layer yields `sizes[l+1]` activations, in (0, 1) on the last layer and non-negative on hidden ones |
| NeuralNetwork.FeedForward | public/js/neuralNetwork.js:24-39 | the output has `sizes[last]` entries, each in (0, 1); the network is an argument and is not changed |
| NeuralNetwork.Trace | public/js/neuralNetwork.js:43-57 | the training forward pass records one activation vector per layer, each of that layer's size, starting with the input |
| NeuralNetwork.TraceAgrees | public/js/neuralNetwork.js:27-37 | the training forward pass, which adds the bias last, computes the same activations as `feedForward`, which starts from the bias |
| NeuralNetwork.TrainingForwardPassIsFeedForward | public/js/neuralNetwork.js:47-61 | the output the errors are taken from is exactly `feedForward(inputs)` |
| NeuralNetwork.NeuronAgrees | public/js/neuralNetwork.js:29-34 | a neuron's activation is the same whether its sum starts at the bias (`feedForward`) or adds the bias after the weighted inputs (`backpropagate`, lines 49-56) |
| NeuralNetwork.TraceLayerAgrees | public/js/neuralNetwork.js:47-56 | a layer of the training forward pass equals the same layer of `feedForward` |
| NeuralNetwork.AccumulateShift | public/js/neuralNetwork.js:30-33 | a weighted sum started from `acc` is `acc` plus the sum started from 0 |
| NeuralNetwork.UpdateWeightsRule | public/js/neuralNetwork.js:75-85 | weight `i·n + j` grows by `gradient[i]·activation[j]·learningRate` |
| NeuralNetwork.BackwardLayer | public/js/neuralNetwork.js:64-95 | one backward step keeps every shape, changes only its own layer, applies the bias rule, and sums the raw layer errors through the already-updated weights |
| NeuralNetwork.BackwardLayerWeightRule | public/js/neuralNetwork.js:75-85 | within a backward step, weight `i·n + j` of the layer is the old weight plus `gradient[i]·activation[j]·learningRate` |
| NeuralNetwork.Backward | public/js/neuralNetwork.js:64-96 | the backward loop keeps the network well shaped and leaves every layer from `k` on unchanged |
| NeuralNetwork.Backpropagate | public/js/neuralNetwork.js:42-97 | one training step preserves every weight and bias length, the layer sizes and the rate |
| NeuralNetwork.TrainPass | public/js/neuralNetwork.js:102-104 | one epoch preserves the network's shape |
| NeuralNetwork.Train | public/js/neuralNetwork.js:100-106 | training preserves the shape and is the identity for no epochs or no data |
| NeuralNetwork.TrainPassAppend | public/js/neuralNetwork.js:102-104 | samples are applied in list order: a pass over `d1 + d2` is a pass over `d1` then over `d2` |
| NeuralNetwork.TrainEpochsAdd | public/js/neuralNetwork.js:101-105 | `e1 + e2` epochs are `e1` epochs followed by `e2` epochs |
| NeuralNetwork.TrainIsIteratedEpoch | public/js/neuralNetwork.js:100-106 | `train(data, e)` is one pass over the data applied `e` times |
| NeuralNetwork.BackpropagateOutputBias | public/js/neuralNetwork.js:60-87 | after one step, output bias `i` is the old bias plus `(target[i] − o[i])·o[i](1 − o[i])·rate`, where `o` is `feedForward(inputs)` |
| NeuralNetwork.TrainOnceIsBackpropagate | public/js/neuralNetwork.js:100-106 | one epoch on one sample is exactly one `backpropagate` |
| NeuralNetwork.ImportState | public/js/neuralNetwork.js:117-124 | a missing field leaves the network unchanged; otherwise both arrays are taken unchecked, and the result is well shaped exactly when they fit the layer sizes |
| NeuralNetwork.ExportState | public/js/neuralNetwork.js:109-114 | importing the export into this or any network with the same sizes and rate reproduces the network |
| Canvas.GetImageData | public/js/entityRenderer.js:62 | the read throws for a zero width or height, and otherwise returns the normalised rectangle's pixels row by row |
| Canvas.RegionLength | public/js/entityRenderer.js:62 | a `w` by `h` read holds `w * h` pixels |
| Canvas.RegionMembers | public/js/entityRenderer.js:62 | the pixels read are exactly the canvas pixels at the rectangle's positions |
| Canvas.ScanRegion | public/js/entityRenderer.js:65-70 | the four-byte scan of a rectangle's image data finds a sentinel exactly when some pixel of the rectangle shows it |
| Canvas.ScanFromFinds | public/js/entityRenderer.js:65-70 | the scan from a pixel on returns true exactly when some pixel from there on shows the sentinel |
| Canvas.SentinelsDiffer | public/js/sensorControl.js:77-82 | no pixel is both (0,0,0) and (0,0,255) |
| Canvas.OutsideIsNeverBeacon | public/js/entityRenderer.js:62 | a pixel outside the canvas reads as transparent black: a wall colour, never a beacon |
| EntityRenderer.NewEntity | public/js/entityRenderer.js:2-17 | the constructor puts the body at (x, y), heading 0, with (x, y) as its starting point |
| EntityRenderer.UpdateAngle | public/js/entityRenderer.js:24-26 | only the heading changes, to the new angle |
| EntityRenderer.UpdatePosition | public/js/entityRenderer.js:28-32 | the position moves by (dx, dy), nothing else changes |
| EntityRenderer.UpdatePositionComposes | public/js/entityRenderer.js:28-32 | two translations compose into one, and a translation is undone by its opposite |
| EntityRenderer.ResetToStartingPosition | public/js/entityRenderer.js:110-115 | the body returns to the constructor's state at its starting point |
| EntityRenderer.ResetOfNewEntity | public/js/entityRenderer.js:2-17 | resetting a body still in its constructor state changes nothing |
| EntityRenderer.CollisionWindow | public/js/entityRenderer.js:45-59 | the clamped target lies in [0, W]×[0, H]; the window starts at non-negative coordinates, is at most 30 wide and high, and lies inside the canvas |
| EntityRenderer.BeaconWindow | public/js/entityRenderer.js:81-91 | the target is not clamped; the window starts at non-negative coordinates and is at most 30 wide and high |
| EntityRenderer.WindowsAgreeInside | public/js/entityRenderer.js:45-59 | for a target inside the canvas both checks read the same window |
| EntityRenderer.ScanWindow | public/js/entityRenderer.js:61-75 | a window scan reports a sentinel exactly when a pixel of the window shows it, and false when the read throws |
| EntityRenderer.CheckCollision | public/js/entityRenderer.js:38-76 | false for a non-number argument; otherwise true exactly when a pixel of the clamped window has R = G = B = 0 |
| EntityRenderer.CheckBeacon | public/js/entityRenderer.js:79-108 | true exactly when a pixel of the unclamped window is (0, 0, 255) |
| EntityControl.MoveForward | public/js/entityControl.js:7-16 | the heading and starting point never change; blocked by a wall or beacon the body stays, otherwise it moves by (d·cos, d·sin) |
| EntityControl.MoveBackward | public/js/entityControl.js:19-27 | unblocked, the body moves by (−d·cos, −d·sin); blocked, it resets to its starting point with heading 0 |
| EntityControl.TurnLeft | public/js/entityControl.js:30-32 | the heading decreases by the angle; position and starting point are kept |
| EntityControl.TurnRight | public/js/entityControl.js:35-37 | the heading increases by the angle; position and starting point are kept |
| EntityControl.TurnsCancel | public/js/entityControl.js:30-37 | a left turn followed by a right turn of the same angle, or the reverse, restores the body |
| EntityControl.MoveForwardUndone | public/js/entityControl.js:7-16 | an unblocked forward move is undone by translating back by the same displacement |
| BeaconRunner.NewBeacon | public/js/beaconRunner.js:2-8 | an omitted width or height defaults to 30 and an omitted colour to `rgb(0, 0, 255)` |
| BeaconRunner.IsReached | public/js/beaconRunner.js:16-29 | every point of the beacon's rectangle counts as reached |
| BeaconRunner.ReachedIffBoxesMeet | public/js/beaconRunner.js:19-24 | for a beacon of non-negative size, reached means exactly that the body's 30×30 box and the beacon's rectangle share a point |
| BeaconRunner.SetLocation | public/js/beaconRunner.js:31-36 | only x and y change; width, height and colour are kept |
| BeaconRunner.SetLocationLastWins | public/js/beaconRunner.js:31-36 | of two relocations only the last one matters |
| SensorControl.NewSensorState | public/js/sensorControl.js:2-12 | both readings start unset (`distance: null`) and `lastUpdated` is 0 |
| SensorControl.FirstReadOfNewSensors | public/js/sensorControl.js:10-28 | fresh sensors compute both readings on the first unforced read once the clock is past 100 ms, and return the unset readings before that |
| SensorControl.SensorPosition | public/js/sensorControl.js:51-64 | when cos² + sin² = 1, the sensor lies exactly `radius + 5` from the body's centre |
| SensorControl.SensorGeometry | public/js/sensorControl.js:51-64 | the two sensors use opposite angle offsets and both sit `radius + 5` from the centre |
| SensorControl.SampleAnglesSymmetric | public/js/sensorControl.js:35-39 | samples `i` and `4 − i` deviate from the heading by opposite amounts; the extremes are ±π/24 |
| SensorControl.Probe | public/js/sensorControl.js:72-83 | a step reports a wall or beacon only where the buffer holds that colour at the rounded point's index; an index outside the buffer reports nothing |
| SensorControl.MarchFrom | public/js/sensorControl.js:71-86 | the march returns the first step below the range whose pixel is a wall or beacon, or the fixed no-hit reading when no step hits |
| SensorControl.CheckForCollision | public/js/sensorControl.js:67-87 | a ray reports its nearest wall or beacon pixel, and misses exactly when no step below the range hits |
| SensorControl.SweepFrom | public/js/sensorControl.js:38-47 | the sweep returns the first sample angle whose ray hits and nothing from earlier samples; when none hits, the no-hit reading |
| SensorControl.SweepTakesFirstHit | public/js/sensorControl.js:38-47 | when sample `k` is the first that hits, the sweep returns sample `k`'s reading, even if a later sample hits nearer |
| SensorControl.CalculateSensorReading | public/js/sensorControl.js:31-48 | every reading is well formed: a hit lies below the range and has a type, a miss sits at the range with no type |
| SensorControl.UpdateSensorData | public/js/sensorControl.js:15-22 | both readings are recomputed and the time stamped exactly when forced or stale by more than 100 ms; otherwise nothing changes |
| SensorControl.GetSensorData | public/js/sensorControl.js:25-28 | an unforced refresh, then the cached readings |
| SensorControl.RefreshIdempotent | public/js/sensorControl.js:15-28 | a second unforced refresh at the same instant changes nothing |
| ActionHistory.UpdateActionHistory | public/js/entityAI.js:120-127 | a missing action leaves the history unchanged; otherwise the new entry is last, older entries keep their order, the oldest drops past 20, and the length never exceeds 20 |
| ActionHistory.RecordKeepsNewest | public/js/entityAI.js:120-127 | after any run of actions the history is exactly the newest 20 entries |
| ActionHistory.Count | public/js/entityAI.js:209-210 | a filtered length is the multiplicity of the action |
| ActionHistory.IsMovingInCircles | public/js/entityAI.js:205-213 | false with fewer than 20 entries; otherwise true exactly when the left and right turns among the last 20 differ by fewer than 5 |
| ActionHistory.CirclingIgnoresOrder | public/js/entityAI.js:205-213 | circling depends only on the multiset of the last 20 actions |
| ActionHistory.StraightRunCountsAsCircling | public/js/entityAI.js:205-213 | twenty forward moves count as circling, since both turn counts are zero |
| ActionHistory.Keys | public/js/entityAI.js:232-236 | the count object's keys are the distinct actions of the list |
| ActionHistory.ReduceMax | public/js/entityAI.js:236 | the reduce returns a key of maximal count, and no later key has that count |
| ActionHistory.FindMostCommonAction | public/js/entityAI.js:231-237 | the result occurs in the list at least as often as any action |
| ActionHistory.IsRepetitiveOrInactive | public/js/entityAI.js:215-229 | true exactly when the history is empty, the last action is more than 5000 ms old, or the last (up to) five actions are all equal |
| ActionHistory.RepetitionMeansAllSame | public/js/entityAI.js:223-226 | for at most five actions, a most common share above 0.8 means all are equal |
| ActionHistory.EightyPercentOfFew | public/js/entityAI.js:225-226 | a count of at most k ≤ 5 exceeds 80% of k only when it is k |
| StateLoading.SortByKey | public/js/entityAI.js:283-284 | the fields come out as a permutation with keys in string order |
| StateLoading.LoadState | public/js/entityAI.js:281-295 | a response missing weights or biases leaves the network untouched; otherwise the values are imported in sorted-key order |
| StateLoading.LoadStateIgnoresFieldOrder | public/js/entityAI.js:283-284 | the loaded network does not depend on the order of the response's keys |
| StateLoading.SortedPermutationsAgree | public/js/entityAI.js:283-284 | two key-sorted permutations of key-distinct fields are equal |
| StateLoading.DigitKeysInOrder | public/js/entityAI.js:283-284 | single-digit layer keys sort in numeric order |
| StateLoading.TenSortsBeforeTwo | public/js/entityAI.js:283-284 | the string sort puts key "10" before "2" |
| StateLoading.LexLeTotal | public/js/entityAI.js:283 | the string order is total |
| StateLoading.LexLeAntisymmetric | public/js/entityAI.js:283 | two keys each ordered before the other are equal |
| StateLoading.LexLeTransitive | public/js/entityAI.js:283 | the string order is transitive |
| StateLoading.InsertKeepsDistinct | public/js/entityAI.js:283-284 | inserting a pair with a fresh key into sorted fields keeps keys distinct and adds exactly that key |
| StateLoading.SortedKeepsDistinct | public/js/entityAI.js:283-284 | sorting keeps the key set and keeps keys distinct |
| EntityAI.NewAgent | public/js/entityAI.js:2-25 | a fresh agent has nothing recorded, no last action, epsilon 0.1, an empty history and explored set, its position as the last position, and the stationary, collision, beacon and reward counters at zero |
| EntityAI.NormalizeSensorData | public/js/entityAI.js:64-71 | four inputs: each sensor's distance over 100 (0 for the initial `null` distance) at positions 0 and 2, and its detection flag at positions 1 and 3 |
| EntityAI.NormalizedBounds | public/js/entityAI.js:64-71 | computed readings normalise into [0, range/100], a miss to exactly range/100, with the flag set exactly on a hit |
| EntityAI.RandomAction | public/js/entityAI.js:101-115 | each of the three commands takes one third of the random draws, in the order forward, left, right |
| EntityAI.TargetIsRewardUnlessPenalised | public/js/entityAI.js:147-159 | the trained target is the first component of `calculateReward` on the refreshed readings, unless the agent is repetitive or inactive with no beacon within 10, when it is −1 |
| EntityAI.TakeRandomAction | public/js/entityAI.js:100-118 | the drawn command is performed, set as `lastAction` and appended to the history; then evaluation runs, which fails exactly when nothing is recorded |
| EntityAI.LastFired | public/js/entityAI.js:73-93 | the recorded action is the last one fired, right over left over forward, and none when no output exceeds 0.5 |
| EntityAI.Dispatch | public/js/entityAI.js:77-91 | with nothing fired the body is unchanged; the heading changes by −π/18 if left fired and +π/18 if right fired; the position is where `moveForward(5)` from the original heading puts it when forward fired, and kept otherwise |
| EntityAI.MakeDecision | public/js/entityAI.js:73-98 | the history gains only the last command fired; `lastAction` is untouched; when something fired the time is stamped and one evaluation runs; otherwise nothing changes |
| EntityAI.UpdateExplorationStatus | public/js/entityAI.js:129-141 | the current cell joins the explored set, which only grows and by at most one; the stationary counter rises by one on an unchanged position and resets to 0 otherwise |
| EntityAI.StandingStillCounts | public/js/entityAI.js:129-141 | `n` frames at an unchanged position raise the stationary counter by `n` |
| EntityAI.RewardOf | public/js/entityAI.js:165-203 | the table's sum lies in [−1.7, 1.2], and in [−0.7, 1.2] without a collision |
| EntityAI.CalculateReward | public/js/entityAI.js:165-203 | the reward is [table sum, 0, 0]; the collision and beacon counters each rise by exactly one on their condition; nothing else changes |
| EntityAI.UpdateAverageReward | public/js/entityAI.js:239-242 | the total grows by the reward and the count by one |
| EntityAI.CalculateAverageReward | public/js/entityAI.js:253-255 | 0 when no reward was counted, otherwise the mean reward |
| EntityAI.AverageOfEqualRewards | public/js/entityAI.js:239-255 | after `n` equal rewards from a fresh agent, the average is that reward |
| EntityAI.EvaluateOutcome | public/js/entityAI.js:143-163 | fails exactly when nothing is recorded; otherwise trains once on [t, 0, 0], with t = −1 when repetitive or inactive and no beacon is within 10, else the table; the count rises by one |
| EntityAI.Update | public/js/entityAI.js:40-62 | fails exactly when it explores with nothing recorded; otherwise the invariant holds, counters and explored cells only grow, and the reward count rises by 2, or by 1 when exploiting fires nothing |
| EntityAI.DecisionAt | public/js/entityAI.js:51 | the network's decision has three outputs, each in (0, 1) |
| EntityAI.ExploitingFirstNeverFails | public/js/entityAI.js:40-62 | an exploiting frame always succeeds, and the frame after it succeeds whatever its random draws |
| EntityAI.OneReadingPerFrame | public/js/sensorControl.js:15-28 | two unforced reads at the same instant return the same readings, wherever the body moved between them |
| EntityAI.MonitorStep | public/js/entityAI.js:28-37 | when repetitive or inactive with an input recorded, it trains that input towards [−1, 0, 0] and counts −1; otherwise, including the callback that throws with nothing recorded, the world is unchanged |
| EntityAI.LoadState | public/js/entityAI.js:281-295 | only the network changes, and the agent invariant survives exactly when the loaded arrays fit the layer sizes |

## Left out

- Drawing and asset loading are left out because they have no stateable logic:
  - `drawEntity` and `clearCanvas`;
  - `renderSensors`, `renderSensor` and `drawSensorLine`;
  - `Beacon.render`;
  - `MapRenderer`;
  - `processSensorData`, which only logs.
- Console logging and the `debug` flag have no effect on state.
- `saveState`, `saveLayerState`, the load `fetch`, the PHP endpoints and the SQL layer
  are left out. They are network and database I/O. `loadState` is modelled from the
  parsed response on.
- `getState` and `getPerformanceMetrics` are left out. They only read fields.
- The application bootstrap is left out. This covers:
  - the `requestAnimationFrame` loop;
  - the keyboard handler;
  - the display timers;
  - `generateNewBeaconLocation`;
  - the call to `entityAI.onBeaconReached()`, a method `EntityAI` does not define.
- Timer interleaving is not modelled as concurrency. `update` and the monitor are
  separate steps, and any interleaving is a sequence of them. After a failed `update`
  only monitor steps follow. They change nothing, since `previousState` stays null.
- Floating point is not modelled. The model uses exact reals, and `Math.exp`, `cos`
  and `sin` are parameters.
- Unused fields are not modelled: `lastUniqueActionTime`, `lastUniqueAction`,
  `actionCooldown` and `weightedSums`. No modelled logic reads them.
- EntityAI.EvaluateOutcome: on failure the model drops the state. In the source,
  `calculateReward` has already raised the counters and the sensor cache may have
  refreshed when the `TypeError` ends the frame loop. The agent takes no further
  frames after that, and the monitor steps that follow change nothing.
- EntityAI.Update: requires the agent invariant, which includes a network of input
  size 4 and output size 3. With other shapes, which only a `loadState` of mismatched
  arrays produces, the source computes with `undefined` entries and trains towards
  `NaN`. That behaviour is not modelled.
- EntityAI.MonitorStep: requires the same invariant, for the same reason.
- EntityAI.Update: gives every clock read of a frame the same `now`. The source calls
  `Date.now()` at each read (sensorControl.js:16, entityAI.js:95, 122 and 216). So the read
  inside `evaluateOutcome` can refresh the sensor cache with the moved body when the 100 ms
  threshold passes during the frame. In the model that read returns the readings cached at
  the frame's first read. The history timestamps and `lastActionTime` also share that one
  value.
- SensorControl.CheckForCollision:
  - It reads the canvas buffer directly as the full-canvas `getImageData`. The throw
    that `getImageData` raises on a zero-sized canvas is not modelled.
  - Canvas contents are taken as given, so the colours the body and beacons draw
    themselves are not modelled.
- ActionHistory.Keys: states the keys' membership and distinctness, not their
  first-occurrence order. `ActionHistory.ReduceMax` states the tie rule relative to
  whatever key order it is given.
- SensorControl.CalculateSensorReading: its own contract states only the reading's
  shape. The sweep order is stated by `SensorControl.SweepFrom`, which it calls.

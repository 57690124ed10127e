# Seal clicker: the runner mini-game and the clicker economy, in Dafny

This project models the game logic of the seal clicker. The clicker side earns money by clicking, buys shop items, and ascends through a roster of 13 animals. Its magic drawing pad pays out once each for three gestures: a plus sign, a minus sign and a question mark. The runner side is a side-scrolling mini-game and has three parts:

- a player that is a cube, which jumps, or a ship, which flaps;
- gravity that portals can invert;
- obstacles that pay money when the player gets past them without crashing.

It also has a skin shop and a money-multiplier shop.

The model follows the source's own form:

- **Pure parts are functions with lemmas.** These are the rectangle test, vertical physics, the obstacle factory, the per-obstacle step of a frame, the whole frame, and the gesture recognisers.
- **Mutable parts are classes.** `RunnerGame` and `Player` model the runner object. `GameState` models the shared `state` record and `ShopItem` the shop items. `Pad` models the drawing pad.
- **Each method is proved to perform its function.** The state after the call equals a pure function of the state before it. The properties are then proved about those functions.

The modules:

| module | file | models |
|---|---|---|
| `Geometry` | geometry.dfy | the rectangle overlap test |
| `Physics` | physics.dfy | gravity, the world-bound clamp, the jump |
| `Obstacles` | obstacles.dfy | obstacle kinds and `spawnObstacle` / `spawnPortal` |
| `Collision` | collision.dfy | collision dispatch, one obstacle step, the obstacle loop, one frame |
| `Economy` | economy.dfy | `state`, shop items, `buyItem`, progression, drawing payouts, `addMoney` |
| `RunnerEngine` | runner_game.dfy | the `RunnerGame` object: lifecycle, input, `update`, `gameLoop` |
| `RunnerShop` | runner_shop.dfy | skins and the multiplier shop |
| `Drawing` | drawing.dfy | stroke analysis, the gesture checks and their triggers |

How the source's environment is represented:

- **`Math.random()`.** Each call becomes an explicit draw: one `Draws` record holds the successive values used by one `spawnObstacle` call.
- **`window.addMoney`.** It is a nullable `GameState` parameter. When it is null, the callback is absent.
- **Positions and speeds.** They are exact reals, not IEEE doubles.
- **What each frame produces.** Every frame returns its events (`Miss` for each "Miss!" and `Reward(amount)` for each reward call), in order.

Each item below states what the code does and what it does not do. The model follows the code in each case:

- **Spawn timing.** The spawn constants are 15 (ship) and 120 (cube). The code restarts the timer only when it *exceeds* the interval, not when it reaches it, so spawns come every 16 or 121 frames (`Collision.SpawnPeriod`).
- **Scrolling.** The code scrolls every obstacle, including obstacles already hit or passed, not only the unresolved ones.
- **Landing misses.** A contact with a platform that is not a landing raises "Miss!" but does not mark the obstacle `hit`. So the same platform can raise "Miss!" on several frames and still pay its reward once passed (`Collision.Collide`).
- **Portal side effects.** The code's `switchMode` leaves the player's grounded flag alone. `setGravity` clears a separate `isGrounded` flag on the game object, and only when the sign changes.
- **Obstacle values.** The code computes `Math.floor(height * 0.5)` and floors it at 1, so values are at least 1, not merely non-negative. It requests a reward of 10 when the value is missing.
- **Resize.** `resize` sets the ground 50 units above the canvas bottom and does not clamp it.
- **Gravity symmetry.** Gravity is symmetric except for a frame that ends exactly on the ceiling. There, normal gravity keeps the upward speed, because its test `y < 0` is strict, while inverted gravity stops the player (`Physics.CeilingTouchBreaksSymmetry`).

## Model

| member | source | states |
|---|---|---|
| Geometry.OverlapsIffCommonPoint | runner.js:306-311 | For rectangles of positive size, the strict overlap test holds exactly when some point lies inside both. |
| Geometry.OverlapsSymmetricAndTranslationInvariant | runner.js:478-483 | The contact test does not depend on argument order or on the origin. |
| Physics.Integrate | runner.js:123-143 | Cube mode adds 0.6·g to the speed. Ship mode adds 0.36·g and caps the speed at ±8. The position then moves by the new speed. |
| Physics.Clamp | runner.js:148-187 | The player ends inside the world whenever it has room. A player at or beyond the bottom edge is put exactly on it (y = groundY − 30) with speed 0, under either gravity. At the top edge this happens to a player beyond the edge under gravity 1, and to one at or beyond it under gravity −1 (y = 0, speed 0). A player exactly on the top edge under gravity 1 is left unchanged, because the test `y < 0` is strict. Only cube mode, on the gravity-side edge, sets the grounded flag. Inside the world nothing changes. The speed is kept or zeroed. |
| Physics.Jump | runner.js:90-100 | A ship always flaps with speed −12·g. A cube jumps only when grounded and then leaves the ground. Otherwise nothing changes. |
| Physics.Fall | runner.js:119-187 | One frame of physics: given room, the player ends inside the world. Only a cube lands. An integrated position inside the world is kept, and so is one exactly on the top edge under gravity 1. One at or beyond the bottom edge ends on it with speed 0. So does one beyond the top edge under gravity 1, or at or beyond it under gravity −1. A cube in free flight gains 0.6·g of speed and moves by it. The speed is the integrated one unless an edge stopped the player. |
| Physics.FallMirrors | runner.js:119-187 | Gravity symmetry of one frame: the mirrored state under gravity −1 lands on the mirror image of the state under gravity 1. The positions and the grounded flag always agree, and the speeds agree unless the frame ends exactly on the ceiling. |
| Physics.CeilingTouchBreaksSymmetry | runner.js:164-167 | A concrete frame where the strict ceiling test keeps the speed under gravity 1, while the mirrored frame is stopped. |
| Obstacles.RewardAmount | runner.js:278 | The requested reward is the value, or 10 when the value is missing or zero. |
| Obstacles.Portal | runner.js:457-476 | A portal is 30×60 at the right edge, at y = groundY − 80 under gravity 1 and y = 80 under gravity −1, with no value and unresolved. |
| Obstacles.ValueOf | runner.js:441-442 | The value is at least 1, and equals floor(height/2) for heights of at least 2. |
| Obstacles.SpawnEntersUnresolved | runner.js:320-455 | Each first-draw band gives its portal kind (a twentieth each, below 0.15). Every obstacle enters at the right edge unresolved. Non-portals are worth floor(height/2), between 15 and 49. |
| Obstacles.SpawnSizes | runner.js:341-436 | The kind chosen by each draw band in each mode, and every kind's width and height ranges. |
| Obstacles.SpawnPlacement | runner.js:341-436 | Ceiling spikes hang from y = 0 and floor spikes stand on the ground. Walls, spikes, blocks and platforms sit on the gravity-side edge. Cube floating blocks are 60–100 units from it. Ship floating blocks keep 20 units clear of both edges. |
| Obstacles.Scale | runner.js:365 | A draw times a non-negative span lies inside the span. |
| Collision.SwitchMode | runner.js:284-290 | Sets the mode and zeroes the speed; nothing else changes. |
| Collision.SetGravity | runner.js:292-304 | Only a change of sign acts. It zeroes the speed and clears the game object's grounded flag. |
| Collision.Collide | runner.js:206-268 | The portal table (fly gives ship; gravity gives cube and −1; normal gives cube and +1) and portals are spent. Hazards always miss and are marked hit. Landable kinds either snap the player onto the near face, grounded, or miss without being marked. Only portals change the mode or gravity. |
| Collision.Contact | runner.js:205-207 | Exactly the unresolved, overlapping obstacles are dispatched: a touching obstacle is resolved by `Collide`, any other is left alone. A contact changes only the hit flag and raises at most one miss. |
| Collision.StepObstacle | runner.js:200-281 | Every obstacle scrolls by 5, and otherwise only its flags change, one way only. It is kept exactly while its right edge is at or beyond −100. Passed means its right edge went left of x = 50. The world and hit flag are those of the contact check on the scrolled obstacle. Resolved obstacles are inert. |
| Collision.StepRewards | runner.js:270-281 | A step pays once exactly when a live non-portal obstacle has just been passed. The payment carries the obstacle's reward and comes after any miss. The obstacle is rewarded even in the step that removes it. |
| Collision.Scan | runner.js:200-282 | The backwards loop keeps at most the obstacles it visits, all within the removal edge. |
| Collision.ScanRewardsPositive | runner.js:200-282 | A sweep keeps every value, so every reward it requests is at least 1. |
| Collision.NoPortalKeepsState | runner.js:208-268 | Without portals on the list, a sweep keeps the mode and the gravity. |
| Collision.TimerStep | runner.js:190-198 | The timer restarts exactly when it passes the interval, and it never exceeds the interval. |
| Collision.SpawnPeriod | runner.js:190-198 | From a fresh timer, the first `interval` frames spawn nothing and the next one spawns, so spawns are interval + 1 frames apart. |
| Collision.TickFacts | runner.js:119-283 | One frame: the timer follows the current mode's interval, the list grows by at most one, and no obstacle is left beyond the removal edge. |
| Collision.TickWithoutPortalKeepsMode | runner.js:119-283 | Mode and gravity change only through portals. |
| Collision.RewardExactlyOnce | runner.js:270-281 | Followed over any run of frames, an obstacle pays at most once. It never pays if it was already passed or hit, or is a portal. It pays exactly once if it ends passed and was never hit. It scrolls 5 units a frame. |
| Collision.StepsFromThreaded | runner.js:200-282 | The steps built from the end of the list form a threaded run: one `StepObstacle` per obstacle, each meeting the world the next obstacle's step left. |
| Collision.ThreadedUnique | runner.js:200-282 | There is only one threaded run for a world and a list. |
| Collision.StepsPayAtMostOnce | runner.js:270-281 | In a threaded run, each obstacle's step pays at most once. |
| Collision.ScanIsSteps | runner.js:200-282 | The backwards sweep equals its threaded run of steps. It leaves the first step's world and keeps what the steps keep, in list order. Its events are theirs, from the last obstacle to the first. |
| Collision.EventsOfRewards | runner.js:270-281 | The rewards in a run's events are the per-step rewards added up. |
| Collision.ScanStepsEachOnce | runner.js:200-282 | The sweep applies `StepObstacle` exactly once to each listed obstacle. The frame's rewards are the per-obstacle rewards added up, at most one per obstacle. |
| Collision.TickStepsEachObstacleOnce | runner.js:119-283 | One frame, after physics and the spawn, steps every listed obstacle exactly once, the spawned one included. The next frame's list is what those steps keep. The frame pays at most one reward per obstacle, so across frames each obstacle lives the life that `Follow` and `RewardExactlyOnce` describe. |
| Economy.Credit | main.js:949-959 | The credit is floor(amount × multiplier). |
| Economy.CreditAtLeastRequested | main.js:949-959 | With a multiplier of at least 1, a non-negative request is never credited less than asked, and a larger multiplier never credits less. |
| Economy.Charge | main.js:304-307 | A purchase goes through exactly when the balance covers the cost, and then takes exactly the cost. |
| Economy.SpendKeepsBalance | main.js:304-322 | Over any run of purchase attempts, money never goes negative and falls by exactly the sum paid. |
| Economy.RaiseTarget | main.js:354-355 | The interval doubles and the target grows by the new interval. |
| Economy.StagesClosedForm | main.js:462-472 | After k stages the interval is ×2^k. The target has grown by (2^(k+1) − 2)·interval. The stage has moved k places round the 13 animals. |
| Economy.TargetsStrictlyGrow | main.js:462-472 | With a positive interval, every stage's target exceeds the previous one. |
| Economy.PlusReward | main.js:823-828 | +100 the first time only, and the claim flag is set. |
| Economy.MinusPenalty | main.js:750-762 | −100, or all the money when there is less, the first time only. Money never becomes negative. |
| Economy.QuestionReward | main.js:702-707 | +1000 the first time only, and the claim flag is set. |
| Economy.GesturesAreOneShot | main.js:702-861 | Over any sequence of gestures, a fresh purse gains at most 1100, loses at most 100 and never goes negative. Each claim is set exactly when its gesture occurred. |
| Economy.Catalog | main.js:83-196 | Nine items with distinct ids, positive costs and values, in order of non-decreasing starting cost. Exactly the auto-clicker is one-time. |
| Economy.ShopItem.constructor | main.js:83-196 | An item starts with its declared id, value, cost, type and action, and not bought. |
| Economy.ShopItem.Act | main.js:91-194 | Click and auto upgrades add their value and double the cost. Unlocking the auto-clicker activates it at the item's power and marks it bought. Nothing else changes. |
| Economy.GameState.constructor | main.js:43-76 | The starting state: no money, target 50, interval 50, skin 0 unlocked at next cost 10000, multiplier 1 at cost 5000. It satisfies the invariant. |
| Economy.GameState.BuyItem | main.js:304-322 | A purchase happens exactly when affordable: the cost is charged, the action runs and the count rises by one. The action changes only its own field: a click upgrade leaves the auto-clicker and its power alone, an auto upgrade leaves click power and activation alone, and the unlock leaves click power and the cost alone. Otherwise nothing changes. The invariant is kept. |
| Economy.GameState.CheckProgression | main.js:348-363 | The first target reached at stage 0 only raises the target. After that, reaching the target starts an ascension once. Otherwise nothing changes. |
| Economy.GameState.SpawnNextStage | main.js:462-472 | The next stage round the roster becomes the avatar, the target is raised and ascension is re-enabled. |
| Economy.GameState.AddMoney | main.js:949-959 | Credits and returns floor(amount × multiplier). This is at least the request when the multiplier is at least 1, and the invariant is kept. |
| RunnerEngine.Paid | runner.js:485-492 | With a multiplier of at least 1, the money credited for a frame is at least the number of rewards requested. |
| RunnerEngine.Player.constructor | runner.js:27-37 | The player starts at rest, not grounded, with skin 0. |
| RunnerEngine.RunnerGame.constructor | runner.js:17-51 | A new game is inactive, paused and empty, in cube mode with normal gravity, and its ground is 50 units above the bottom. |
| RunnerEngine.RunnerGame.Resize | runner.js:78-88 | The canvas takes the container's size, and the ground is 50 units above its bottom. |
| RunnerEngine.RunnerGame.Jump | runner.js:90-100 | The player's vertical state becomes `Physics.Jump` of the old one. |
| RunnerEngine.RunnerGame.Activate | runner.js:58-76 | An activate signal jumps only while the game is active and not paused. Otherwise the player is unchanged. |
| RunnerEngine.RunnerGame.SwitchMode | runner.js:284-290 | The new world is `Collision.SwitchMode` of the old one. |
| RunnerEngine.RunnerGame.SetGravity | runner.js:292-300 | The new world is `Collision.SetGravity` of the old one. |
| RunnerEngine.RunnerGame.ResetGravity | runner.js:302-304 | The new world is `Collision.SetGravity(old, 1)`. |
| RunnerEngine.RunnerGame.SpawnPortal | runner.js:457-476 | Appends exactly `Obstacles.Portal` for the current gravity and keeps the invariant. |
| RunnerEngine.RunnerGame.SpawnObstacle | runner.js:320-455 | Appends exactly `Obstacles.Spawn` for the current mode, gravity and draws, and keeps the invariant. |
| RunnerEngine.RunnerGame.ResolveCollision | runner.js:208-268 | The world, obstacle and events afterwards are exactly `Collision.Collide`. |
| RunnerEngine.RunnerGame.RewardPlayer | runner.js:485-492 | A present callback credits floor(amount × multiplier), keeping the shared invariant for a non-negative amount. An absent callback changes nothing. |
| RunnerEngine.RunnerGame.ApplyPhysics | runner.js:119-187 | The player's state becomes `Physics.Fall` (integrate, then clamp) of the old one. |
| RunnerEngine.RunnerGame.AdvanceTimer | runner.js:190-198 | The timer and the list follow `Collision.TimerStep`, appending `Obstacles.Spawn` when due, and the invariant is kept. |
| RunnerEngine.RunnerGame.CheckObstacle | runner.js:205-207 | The result is exactly `Collision.Contact`. |
| RunnerEngine.RunnerGame.HandlePass | runner.js:275-281 | The result is exactly `Collision.Pass`. The wallet gains what the requested rewards are credited, each at least 1. |
| RunnerEngine.RunnerGame.StepAt | runner.js:200-281 | One loop iteration performs `Collision.StepObstacle` and splices its result into the list. The wallet gains exactly what the requested rewards are credited. |
| RunnerEngine.RunnerGame.SweepObstacles | runner.js:200-282 | The backwards loop leaves exactly `Collision.Scan`. The wallet gains exactly what the requested rewards are credited, each reward at least 1. |
| RunnerEngine.RunnerGame.Update | runner.js:119-283 | A frame leaves exactly `Collision.Tick` of the old state. The wallet is credited for exactly the rewards requested and keeps its invariant. |
| RunnerEngine.RunnerGame.GameLoop | runner.js:636-645 | A paused game changes nothing at all. Otherwise it runs exactly one `Tick`. |
| RunnerEngine.RunnerGame.Start | runner.js:102-106 | The game becomes active and unpaused, and runs a frame. |
| RunnerEngine.RunnerGame.Pause | runner.js:108-110 | The game is paused, idempotently. |
| RunnerEngine.RunnerGame.Resume | runner.js:112-117 | It resumes exactly when active and paused, running a frame. Otherwise it is a no-op. |
| RunnerShop.Select | runner.js:853-860 | Only an unlocked skin can be equipped, and the equipped skin stays an unlocked one. |
| RunnerShop.Unlock | runner.js:862-883 | Charged as a guarded purchase. On success the skin is appended and equipped and the next cost doubles. On failure nothing changes. |
| RunnerShop.UnlockNextInOrder | runner.js:725-733 | Unlocking always the offered next skin, n times, gives exactly skins 0..n. Skin n is equipped, the cost is ×2^n and the total paid is cost·(2^n − 1). |
| RunnerShop.RaisedCost | runner.js:1090 | floor(cost × 1.5), which never lowers a cost and strictly raises any cost of 2 or more. |
| RunnerShop.Upgrade | runner.js:1078-1098 | Charged as a guarded purchase. On success it adds +0.5 multiplier and one level, and raises the cost. On failure nothing changes. |
| RunnerShop.Boosts | runner.js:973-1072 | Four boosts of positive size and price, whose price per point of multiplier never falls down the list. |
| RunnerShop.Boost | runner.js:1100-1116 | Charged as a guarded purchase. On success it adds the boost to the multiplier and leaves the level and the upgrade cost alone. |
| RunnerShop.PurchasesNeverLowerPayout | runner.js:1078-1116 | After any upgrade or non-negative boost, no non-negative reward is credited less than before. |
| RunnerShop.SelectSkin | runner.js:853-860 | The shared state becomes `Select`, and the runner's player takes the skin only if it is unlocked. |
| RunnerShop.UnlockSkin | runner.js:862-883 | The shared state becomes `Unlock`, and the player takes the skin only on success. |
| RunnerShop.BuyMultiplierUpgrade | runner.js:1078-1098 | The shared state becomes `Upgrade`, and the invariant is kept. |
| RunnerShop.BuyBoost | runner.js:1100-1116 | The shared state becomes `Boost`, and the invariant is kept for non-negative boosts. |
| Drawing.BoundingBox | main.js:627-634 | The loop yields the bounding box: every point lies within it and each bound is attained. |
| Drawing.BoxUnique | main.js:627-634 | The bounding box is unique, so `BoundingBox` determines it. |
| Drawing.Classify | main.js:636-645 | A stroke that reaches more than 20 in some direction is horizontal exactly when more than 1.2 times wider than tall, and vertical exactly when more than 1.2 times taller than wide. A classified stroke is long in its own direction. Short or near-square strokes are unknown. |
| Drawing.ClassifyTranspose | main.js:641-645 | A quarter turn swaps horizontal and vertical. |
| Drawing.PlusSignEitherOrder | main.js:793-821 | A plus sign may be drawn in either order. |
| Drawing.PlusSignIsCrossing | main.js:793-821 | A plus sign is exactly a vertical and a horizontal stroke that cross at their midpoints. |
| Drawing.GesturesAnywhere | main.js:654-700 | Plus signs and question marks are recognised wherever they are drawn. |
| Drawing.Clear | main.js:556-563 | Clearing forgets the strokes and cancels the minus timer. |
| Drawing.Toggle | main.js:538-554 | Toggling flips drawing mode. Switching off clears the pad, and switching on keeps it. |
| Drawing.AnalyzeRewardsAtMostOnce | main.js:626-652 | One analysed stroke earns at most one reward (plus or question mark). It never takes money or clears a claim. |
| Drawing.AnalyzeRecordsStroke | main.js:626-652 | With no reward paid, the stroke list grows by exactly the new stroke and drawing mode is kept. With a reward paid, the pad ends off, empty and with no timer. |
| Drawing.MinusArmedByLoneHorizontal | main.js:740-748 | The minus timer is armed exactly by a first stroke that is horizontal. |
| Drawing.PlusClosesPad | main.js:793-861 | An unclaimed plus on an active pad pays 100, switches the pad off and clears it. |
| Drawing.MinusNeverNegative | main.js:750-762 | The penalty never makes the money negative, and the timer is spent. |
| Drawing.Pad.constructor | main.js:518-522 | The pad starts off, empty, with no timer. |
| Drawing.Pad.ClearCanvas | main.js:556-563 | The pad becomes `Clear` of the old one. |
| Drawing.Pad.ToggleDrawingMode | main.js:538-554 | The pad becomes `Toggle` of the old one, keeping the pad invariant. |
| Drawing.Pad.StartStroke | main.js:577-598 | Only in drawing mode: it cancels the minus timer and starts a new one-point stroke. |
| Drawing.Pad.MoveStroke | main.js:600-607 | Extends the current stroke only while drawing in drawing mode. |
| Drawing.Pad.EndStroke | main.js:609-616 | A stroke of more than two points is analysed, as `Analyze` says. Afterwards no stroke is in progress, including when none was. Every stroke analysed meets `AnalyzeRewardsAtMostOnce`'s condition, and the pad invariant is kept. |
| Drawing.Pad.AnalyzeStroke | main.js:626-652 | The stroke recorded has the points' bounding box and classification, and the pad and purse become `Analyze` of the old ones. |
| Drawing.Pad.CheckForPlusSign | main.js:793-821 | The pad and purse become `CheckPlus` of the old ones. |
| Drawing.Pad.CheckForMinusSign | main.js:740-748 | The pad becomes `CheckMinus` of the old one. |
| Drawing.Pad.CheckForQuestionMark | main.js:654-700 | The four early returns are exactly `IsQuestionMark`, and the pad and purse become `CheckQuestion`. |
| Drawing.Pad.TriggerPlusReward | main.js:823-861 | Pad and purse follow `Trigger` with `PlusReward`: the first time only, +100 and the pad toggles. |
| Drawing.Pad.TriggerMinusPenalty | main.js:750-791 | Pad and purse follow `Trigger` with `MinusPenalty`. |
| Drawing.Pad.TriggerQuestionReward | main.js:702-738 | Pad and purse follow `Trigger` with `QuestionReward`. |
| Drawing.Pad.MinusTimeout | main.js:743-746 | When the armed timer fires, the pad and purse become `MinusFires`. |

## Left out

- Rendering:
  - all drawing on canvases;
  - floating texts and flashes;
  - skin shapes and colours, and obstacle colours;
  - the skin and runner-shop grids and their modals (including the pause when a modal opens);
  - `updateUI` and the runner's money display;
  - the shelf of ascended animals (`addAscendedIcon`, `swapAnimals`) and the ascension animation of `triggerAscension`. Its state change (`hasAscended`, then `spawnNextStage`) is modelled.
- Sound: `sound.js` and every call to the sound manager. These are side effects only.
- Scheduling: `requestAnimationFrame`, `setTimeout` and `setInterval` are not modelled as time.
  - A frame is one `GameLoop` call.
  - The 800 ms minus timer is the `minusPending` flag plus `Pad.MinusTimeout`.
  - The 1 s delayed `clearCanvas` after a reward is `Pad.ClearCanvas`.
  - The auto-clicker's `setInterval` income and `startAutoClicker` are not modelled.
- Event wiring:
  - DOM listeners, the world flip between clicker and runner (`toggleWorld`) and `getPos`'s conversion of page coordinates. A point is given in canvas coordinates.
  - `handleClick` (money += click power, growth of the avatar's scale) and `addMoneyClicker`.
  - The game's `score` field, which is never used.
- `Drawing.BoundingBox`: it requires at least one point. The source starts from ±Infinity and would give an inverted box for an empty list, but its only caller (`endStroke`) analyses strokes of more than two points.
- `window.state` absence checks: `selectSkin`, `unlockSkin`, `buyMultiplierUpgrade`, `buyBoost`, `renderSkinsGrid` and `rewardPlayer` return early when the shared state or the callback is missing. Only the callback's absence is modelled, as a null `wallet`. The shop methods take the state as a non-null argument.
- `RunnerEngine.RunnerGame.Update`, `GameLoop`, `Start`, `Resume` and `AdvanceTimer` require the game's invariant `Valid()`. It says the ground is 50 units above the canvas bottom and every obstacle value is at least 1. The constructor establishes it, and every method that touches those fields keeps it.
- `Drawing.Pad.MinusTimeout`: it requires a pending timer, because the callback exists only once `checkForMinusSign` has set it.
- Floating point: positions, speeds, the multiplier and `Math.floor` of products are exact reals and `.Floor`. Rounding of IEEE doubles is not modelled.
- Obstacles are values in a sequence. The source mutates shared objects in place, but no obstacle is ever referenced from outside the list, so aliasing cannot be observed.
- `unlockSkin` accepts any index. `RunnerShop.Unlock` models that faithfully. The in-order property (`UnlockNextInOrder`) assumes the shop offers only the next skin, as its grid does.

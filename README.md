# Galactic Assault simulation core in Dafny

This project models the simulation layer of Galactic Assault, a Space-Invaders-style browser game, and proves properties of the model. The model covers:

- the engine's fixed-capacity object pool, its overlap tests and arithmetic helpers;
- the keyboard edge detector and the fixed-timestep game loop;
- the game's entities: bullets, power-ups, the mystery ship, the player and the 8 x 5 alien formation;
- the round controller: the `ready / playing / dying / gameover / victory` state machine and the collision pass that reconciles the pools once per tick.

One Dafny module models one source file.

| module | file | source |
|---|---|---|
| `Wrappers` | Wrappers.dfy | (the `Option` type for nullable results) |
| `Types` | Types.dfy | src/engine/types.ts, the canvas size |
| `Pool` | ObjectPool.dfy | src/engine/ObjectPool.ts |
| `Collision` | Collision.dfy | src/engine/Collision.ts |
| `Maths` | Maths.dfy | src/engine/math.ts |
| `Input` | InputManager.dfy | src/engine/InputManager.ts |
| `Loop` | GameLoop.dfy | src/engine/GameLoop.ts |
| `Bounds` | Bounds.dfy | src/games/galactic-assault/bounds.ts |
| `Bullets` | Bullets.dfy | src/games/galactic-assault/Bullets.ts |
| `PowerUps` | PowerUp.dfy | src/games/galactic-assault/PowerUp.ts |
| `Mystery` | MysteryShip.dfy | src/games/galactic-assault/MysteryShip.ts |
| `Players` | Player.dfy | src/games/galactic-assault/Player.ts |
| `Formation` | AlienFormation.dfy | src/games/galactic-assault/AlienFormation.ts |
| `Game` | GalacticAssault.dfy | src/games/galactic-assault/index.ts |

How the source maps onto Dafny:

- **Classes.** Objects whose fields change become classes: the pool, the managers, the mystery ship, the player, the formation, the input manager, the loop and the controller.
  - Each has a `Valid()` invariant and `modifies` frames.
  - Sub-objects are `const` fields.
  - The pool keeps the source's two arrays: items and active flags.
- **Pure code.** Overlap tests, math helpers and bounds are functions and lemmas.
- **Specification functions.** Each state-changing method is proved against a pure function of the old state, which the lemmas are about:
  - `Visit` and `Matching` for the pool;
  - `Advance` for the bullets, `Fall` and `Drop` for the power-ups;
  - `Stepped`, `DiveStarted`, `Volley` and `BottomRow` for the formation;
  - `Swept`, `Crashed`, `Released`, `AfterHits` and `Ticked` for the controller.
- **Numbers.** All quantities are `real`; scores and lives are `int`.
- **Randomness.** Each `Math.random()` is an explicit argument in [0, 1).
  - In the controller they form a stream: draws 0, 1 and 2 of a tick go to the formation (shooter, diver, dive speed).
  - The `j`-th alien destroyed in a tick takes draws `3 + 3j` to `5 + 3j` for its power-up roll.
- **Transcendentals.** `Math.sqrt` and `Math.sin` are function values passed in.
  - `sqrt` is constrained only by the defining property of the real square root.
  - `sin` is unconstrained.
- **The exit callback.** `exits` counts the Escape presses that ask to leave the game (`onExit?.()`); registering a callback (`setOnExit`) is not modelled.

Where the shared constants file and the code disagree, the model follows the code:

- **Alien formation.** `AlienFormation.ts` uses local literals:
  - aliens of 28 x 22;
  - spacing 44 / 36;
  - points `[30, 20, 10]`, with 10 for any other class;
  - colour class `min(row, 2)`.

  `constants.ts` lists 34 x 28, 50 / 42 and five point values; the code does not import them.
- **Power-up duration.** `Player.ts` sets the timer to 10 seconds. `constants.ts` says 5.

## Model

| member | source | states |
|---|---|---|
| Pool.CountTrue | src/engine/ObjectPool.ts:6-9 | the number of active flags never exceeds the number of slots |
| Pool.CountTrueExtremes | src/engine/ObjectPool.ts:15-19 | the count equals the capacity exactly when every slot is active, and is zero exactly when none is |
| Pool.CountTrueIsActiveSetSize | src/engine/ObjectPool.ts:52-54 | the counter the pool keeps is the size of the set of active slot indices |
| Pool.CountTrueUpdate | src/engine/ObjectPool.ts:15-27 | turning one flag on raises the count by one and turning it off lowers it by one; rewriting a flag to its own value keeps it |
| Pool.CountTrueSplit | src/engine/ObjectPool.ts:38-45 | when flags split slot by slot into two disjoint sets of flags, the counts add up (what `releaseIf` removes plus what it keeps) |
| Pool.FirstFree | src/engine/ObjectPool.ts:11-19 | the scan stops at the lowest inactive slot; every slot before it is active, and it reaches the capacity only when all are |
| Pool.PlaceEffect | src/engine/ObjectPool.ts:11-20 | placing an item into a pool with a free slot writes it into the lowest free slot, activates only that slot and raises the count by one; a full pool is left as it was |
| Pool.Visit | src/engine/ObjectPool.ts:30-36 | a pass over the slots keeps the number of items |
| Pool.ActiveFrom | src/engine/ObjectPool.ts:30-36 | the active slots from an index on number at most the slots remaining |
| Pool.ActiveFromExactly | src/engine/ObjectPool.ts:30-36 | that list holds exactly the active slots from the index on, in strictly ascending order |
| Pool.VisitOrder | src/engine/ObjectPool.ts:30-36 | `forEachActive` hands the callback exactly the active slots, each once, in ascending index order |
| Pool.VisitRewrites | src/engine/ObjectPool.ts:30-36 | a callback that rewrites its item changes exactly the active items and leaves the inactive ones alone |
| Pool.Matching | src/engine/ObjectPool.ts:38-45 | the slots `releaseIf` selects are exactly the active slots whose item satisfies the predicate |
| Pool.ObjectPool.constructor | src/engine/ObjectPool.ts:6-9 | a new pool has `size` slots, each holding a fresh item from the factory, none active, count zero |
| Pool.ObjectPool.ActiveCount | src/engine/ObjectPool.ts:52-54 | the count equals the number of active slots and lies between zero and the capacity |
| Pool.ObjectPool.Acquire | src/engine/ObjectPool.ts:11-20 | hands out the lowest inactive slot, activating only that slot and raising the count by one; returns none, changing nothing, exactly when every slot is active |
| Pool.ObjectPool.Write | src/engine/ObjectPool.ts:11-20 | writing through an acquired reference changes that slot's item and nothing else |
| Pool.ObjectPool.Release | src/engine/ObjectPool.ts:22-28 | an active slot is deactivated and the count drops by one, with every other slot unchanged; a non-member or an inactive slot is a no-op |
| Pool.ObjectPool.ForEachActive | src/engine/ObjectPool.ts:30-36 | the callback's state and the items end up exactly as the slot-order pass `Visit` over the active slots says; flags are unchanged |
| Pool.ObjectPool.ReleaseIf | src/engine/ObjectPool.ts:38-45 | exactly the active slots whose item satisfies the predicate are deactivated, and the count drops by their number |
| Pool.ObjectPool.ReleaseAll | src/engine/ObjectPool.ts:47-50 | every flag is cleared and the count is zero; the items keep their contents |
| Pool.ExhaustFreshPool | src/engine/ObjectPool.ts:11-20 | `size` acquisitions from a fresh pool return slots 0, 1, ... in order, and one more returns none |
| Pool.ReacquireAfterRelease | src/engine/ObjectPool.ts:11-28 | with capacity 1, acquire, release and acquire again return the same slot 0 |
| Pool.DoubleReleaseIsIdempotent | src/engine/ObjectPool.ts:22-28 | for any pool and any index, a second release leaves the flags and the count exactly as the first left them: the slot is free (if in range) and every other slot is as before |
| Pool.FirstFreeIs | src/engine/ObjectPool.ts:11-19 | the lowest free slot is determined uniquely: any index with only active slots before it and an inactive slot at it is that slot |
| Collision.CircleOverlap | src/engine/Collision.ts:3-9 | circles whose radii sum to zero never overlap; two circles on the same centre overlap exactly when their radii do not sum to zero |
| Collision.RectOverlap | src/engine/Collision.ts:11-13 | for rectangles of positive size, overlap holds exactly when on both axes the later start lies before the earlier end; overlapping rectangles have a positive total width and height |
| Collision.PointInRect | src/engine/Collision.ts:15-17 | a rectangle that holds any point has non-negative width and height (edges included) |
| Collision.RectOverlapSymmetric | src/engine/Collision.ts:11-13 | rectangle overlap does not depend on argument order |
| Collision.RectOverlapsItself | src/engine/Collision.ts:11-13 | a rectangle of positive width and height overlaps itself |
| Collision.SharedVerticalEdgeNoOverlap | src/engine/Collision.ts:11-13 | rectangles that touch only along a vertical edge do not overlap, either way round |
| Collision.SharedHorizontalEdgeNoOverlap | src/engine/Collision.ts:11-13 | rectangles that touch only along a horizontal edge do not overlap, either way round |
| Collision.RectOverlapIffNotSeparated | src/engine/Collision.ts:11-13 | two rectangles overlap exactly when neither lies entirely to one side of the other on either axis |
| Collision.CircleOverlapSymmetric | src/engine/Collision.ts:3-9 | circle overlap does not depend on argument order |
| Collision.TangentCirclesNoOverlap | src/engine/Collision.ts:3-9 | circles whose centres are exactly the sum of the radii apart do not overlap |
| Collision.ZeroRadiusCirclesNoOverlap | src/engine/Collision.ts:3-9 | two zero-radius circles never overlap, even at the same point |
| Collision.PointInRectCorners | src/engine/Collision.ts:15-17 | the point test includes all four edges: each corner of a rectangle of non-negative size is inside it |
| Maths.SqrtOf | src/engine/math.ts:19-23 | the root supplied for `Math.sqrt` is a non-negative number whose square is its argument |
| Maths.Lerp | src/engine/math.ts:3-5 | interpolation gives `a` at t = 0 and `b` at t = 1, and stays within [a, b] for t in [0, 1] |
| Maths.Clamp | src/engine/math.ts:7-9 | for min <= max the result lies in [min, max]; a value already inside is returned unchanged, and one outside is moved to the nearer bound |
| Maths.ClampIdempotent | src/engine/math.ts:7-9 | clamping twice gives the same result as clamping once |
| Maths.RandomRange | src/engine/math.ts:11-13 | for min < max the value lies in [min, max), and a zero draw gives `min` |
| Maths.RandomInt | src/engine/math.ts:15-17 | for integers min <= max the value is an integer in [min, max], and a zero draw gives `min` |
| Maths.PickIndex | src/games/galactic-assault/AlienFormation.ts:190 | the index drawn among `n` entries, `floor(r * n)`, is a valid index |
| Maths.Vec2Of | src/engine/math.ts:31-33 | the vector has the given components |
| Maths.Vec2Add | src/engine/math.ts:35-37 | addition acts component-wise |
| Maths.Vec2Scale | src/engine/math.ts:39-41 | scaling acts component-wise; scaling by 0 gives the zero vector and by 1 the vector itself |
| Maths.Vec2Algebra | src/engine/math.ts:35-41 | vector addition is commutative and scaling distributes over it |
| Maths.Distance | src/engine/math.ts:19-23 | the distance is non-negative and its square is the sum of the squared coordinate differences |
| Maths.DistanceSymmetric | src/engine/math.ts:19-23 | the distance from `a` to `b` equals the distance from `b` to `a` |
| Maths.Normalize | src/engine/math.ts:25-29 | the zero vector normalises to the zero vector |
| Bounds.CenteredBounds | src/games/galactic-assault/bounds.ts:6-8 | the rectangle keeps the given width and height and has its centre at (x, y) |
| Bounds.CenteredBoundsUnique | src/games/galactic-assault/bounds.ts:6-8 | a rectangle is the centred rectangle of (x, y, w, h) exactly when it has size w by h and centre (x, y) |
| Bounds.CentreInside | src/games/galactic-assault/bounds.ts:6-8 | for a non-negative size the centre point lies in the rectangle |
| Bounds.AlienBounds | src/games/galactic-assault/bounds.ts:10-12 | an alien's rectangle has the alien's size and is centred on its position |
| Bounds.BulletBounds | src/games/galactic-assault/bounds.ts:14-16 | a bullet's rectangle has the bullet's size and is centred on its position |
| Bounds.PowerUpBounds | src/games/galactic-assault/bounds.ts:18-20 | a power-up's rectangle is a square of side twice its size, centred on its position |
| Bounds.PowerUpBoundsCentered | src/games/galactic-assault/bounds.ts:18-20 | that square is the centred rectangle of side `2 * size` |
| Bullets.MovedComposes | src/games/galactic-assault/Bullets.ts:54-66 | two flights of dt1 and dt2 land where one flight of dt1 + dt2 lands |
| Bullets.Moved | src/games/galactic-assault/Bullets.ts:55-58 | a flight keeps the bullet's velocity, size and colour, and a flight of no time leaves it where it is |
| Bullets.OffScreen | src/games/galactic-assault/Bullets.ts:59 | a bullet stays on screen exactly while its y lies within 20 px above or below the canvas |
| Bullets.Advance | src/games/galactic-assault/Bullets.ts:54-66 | after an update every bullet that was active has moved by exactly (vx dt, vy dt), keeping its velocity, size and colour; it stays active exactly when its new y lies within 20 px above or below the canvas (x is never consulted); inactive slots are untouched |
| Bullets.AdvanceNeverAddsBullets | src/games/galactic-assault/Bullets.ts:54-66 | an update never raises the number of bullets in flight |
| Bullets.AdvancePool | src/games/galactic-assault/Bullets.ts:55-59 | one pool's move-then-cull pass leaves exactly the flags and items `Advance` describes |
| Bullets.BulletManager.constructor | src/games/galactic-assault/Bullets.ts:23-26 | a player pool of 50 and an alien pool of 100 default bullets, none active |
| Bullets.BulletManager.SpawnPlayerBullet | src/games/galactic-assault/Bullets.ts:28-39 | a player bullet with the given position and velocity (default 0, -500), width 3 and height 10, goes into the lowest free slot of the player pool; with all 50 active nothing changes; the alien pool is untouched |
| Bullets.BulletManager.SpawnAlienBullet | src/games/galactic-assault/Bullets.ts:41-52 | an alien bullet with the given position and velocity, width 4 and height 8, goes into the lowest free slot of the alien pool; with all 100 active nothing changes; the player pool is untouched |
| Bullets.BulletManager.Update | src/games/galactic-assault/Bullets.ts:54-66 | both pools end up exactly as `Advance` says |
| Bullets.BulletManager.Reset | src/games/galactic-assault/Bullets.ts:88-91 | no bullet is active in either pool and both active counts are zero; the items keep their contents |
| Bullets.FireAndRecycle | src/games/galactic-assault/Bullets.ts:28-66 | a bullet fired from a fresh manager takes slot 0 with the default upward speed, and a bullet spawned at y = -15, still inside the 20 px top margin, is recycled once one 1/60 s update carries it past |
| PowerUps.KindFor | src/games/galactic-assault/PowerUp.ts:48 | the kind draw picks rapid, shield or spread, each on a third of [0, 1) |
| PowerUps.Dropped | src/games/galactic-assault/PowerUp.ts:46-51 | a dropped item sits at the given position, falls at 80 px/s, has size 14, the kind `KindFor` picks, and a bob phase in [0, 2 pi) |
| PowerUps.Fall | src/games/galactic-assault/PowerUp.ts:54-60 | every active item sinks by vy dt and its bob phase advances by 4 dt; it stays active exactly when its new y is at most 20 px below the canvas; inactive slots are untouched |
| PowerUps.Fallen | src/games/galactic-assault/PowerUp.ts:55-58 | a fall keeps the item's x, kind, speed and size, leaves it unchanged for no time, and moves it down for a positive speed and time |
| PowerUps.BelowScreen | src/games/galactic-assault/PowerUp.ts:59 | an item is dropped exactly when it is more than 20 px below the canvas |
| PowerUps.Drop | src/games/galactic-assault/PowerUp.ts:39-52 | a chance draw above 0.25 changes nothing; otherwise the dropped item is placed in the lowest free slot, and a full pool changes nothing |
| PowerUps.PowerUpManager.constructor | src/games/galactic-assault/PowerUp.ts:35-37 | a pool of 10 default items, none active |
| PowerUps.PowerUpManager.Spawn | src/games/galactic-assault/PowerUp.ts:39-52 | the pool ends up exactly as `Drop` says |
| PowerUps.PowerUpManager.Update | src/games/galactic-assault/PowerUp.ts:54-60 | the pool ends up exactly as `Fall` says |
| PowerUps.PowerUpManager.Reset | src/games/galactic-assault/PowerUp.ts:96-98 | no item is active and the active count is zero; the items keep their contents |
| Mystery.SpawnDelay | src/games/galactic-assault/MysteryShip.ts:25-27 | the wait before a pass is in [18, 30) |
| Mystery.DirectionFor | src/games/galactic-assault/MysteryShip.ts:31 | the direction is 1 or -1, and it is 1 exactly for draws below one half |
| Mystery.PointsFor | src/games/galactic-assault/MysteryShip.ts:34 | the score of a pass is 200, 300 or 500, each on a third of the draws |
| Mystery.EntryX | src/games/galactic-assault/MysteryShip.ts:32 | a pass starts one width off screen, left of the canvas when moving right and right of it when moving left |
| Mystery.MysteryShip.constructor | src/games/galactic-assault/MysteryShip.ts:5-18 | a new ship is inactive, with a wait in [18, 30) drawn from its argument |
| Mystery.MysteryShip.Reset | src/games/galactic-assault/MysteryShip.ts:20-23 | the ship is inactive with a fresh wait; its other fields are unchanged |
| Mystery.MysteryShip.ResetTimer | src/games/galactic-assault/MysteryShip.ts:25-27 | only the wait changes, to a fresh one |
| Mystery.MysteryShip.Spawn | src/games/galactic-assault/MysteryShip.ts:29-36 | the ship becomes active with a drawn direction, starts at the matching `EntryX`, flies at a speed in [120, 180) and scores 200, 300 or 500 |
| Mystery.MysteryShip.Update | src/games/galactic-assault/MysteryShip.ts:38-58 | while idle only the wait counts down (x unchanged), and the ship launches once it reaches zero; in flight x moves by exactly speed * direction * dt, and the ship lands with a fresh wait exactly when it is past the far edge by its width |
| Mystery.MysteryShip.Hit | src/games/galactic-assault/MysteryShip.ts:60-64 | returns the points chosen at spawn (200, 300 or 500 for a ship in flight) and leaves the ship inactive with a fresh wait |
| Mystery.IdleAtStart | src/games/galactic-assault/MysteryShip.ts:16-45 | a fresh ship does not launch on a frame shorter than 18 seconds |
| Players.SteerDirections | src/games/galactic-assault/Player.ts:39-43 | holding left and right together, or neither, leaves x unchanged; holding one of them moves by exactly one step in its direction |
| Players.Steer | src/games/galactic-assault/Player.ts:39-43 | one frame of steering moves x by one step left, one step right or not at all, and not at all when no key is held |
| Players.Countdown | src/games/galactic-assault/Player.ts:47-53 | a timer decreases by dt only while it is positive; a timer at or below zero is unchanged |
| Players.FireInterval | src/games/galactic-assault/Player.ts:67-70 | with rapid fire the cooldown is positive and shorter than the shot rate; otherwise it is the rate |
| Players.Cleared | src/games/galactic-assault/Player.ts:80-85 | a shield survives the power-up timer running out; any other power-up is removed |
| Players.Damage | src/games/galactic-assault/Player.ts:87-99 | a hit while invulnerable changes nothing; a charged shield absorbs it, losing one charge and dropping at zero, with no life lost; otherwise a life is lost and invulnerability starts for 2 s; the result says whether a life was lost |
| Players.HitsWhileInvulnerable | src/games/galactic-assault/Player.ts:88 | any number of hits while invulnerable change nothing and cost no life |
| Players.HitsCostAtMostOneLife | src/games/galactic-assault/Player.ts:87-99 | hits in a row with no time between them cost at most one life, and when one is lost the ship is invulnerable afterwards |
| Players.HitsAdd | src/games/galactic-assault/Player.ts:87-99 | `a` hits and then `b` hits are `a + b` hits, and a life was lost in the whole run exactly when it was lost in one of the two parts |
| Players.ShieldAbsorbs | src/games/galactic-assault/Player.ts:89-95 | a shield with `k` charges absorbs exactly `k` hits, dropping with the last, and the next hit costs a life |
| Players.ShieldCountsDown | src/games/galactic-assault/Player.ts:89-95 | after fewer than `k` hits a shield of `k` charges has the remainder left and nothing else changed |
| Players.Picked | src/games/galactic-assault/Player.ts:72-78 | collecting a power-up replaces the current one with a 10 s timer; a shield is charged with 3 hits, other kinds keep the charge count |
| Players.LastPickUpWins | src/games/galactic-assault/Player.ts:72-78 | after several pick-ups the last one is active with a full timer, and the charge count is 3 exactly when a shield was among them |
| Players.Player.constructor | src/games/galactic-assault/Player.ts:8-24 | a new player is in the reset state |
| Players.Player.Reset | src/games/galactic-assault/Player.ts:26-36 | the ship is at (CANVAS_W/2, CANVAS_H-50) with 3 lives, shot rate 0.3, no power-up, and cooldown, invulnerability, power-up timer and shield charges all zero |
| Players.Player.Update | src/games/galactic-assault/Player.ts:38-61 | x is the steered position clamped to [width/2, CANVAS_W - width/2] whatever keys are held; the cooldown and invulnerability count down only while positive; when the power-up timer runs out the power-up is cleared as `Cleared` says; lives, y, rate and shield charges are unchanged |
| Players.Player.Steering | src/games/galactic-assault/Player.ts:39-45 | the steered x is clamped to the canvas and nothing else changes |
| Players.Player.Countdowns | src/games/galactic-assault/Player.ts:47-60 | the three timers run as `update` says and the position does not change |
| Players.Player.OnShoot | src/games/galactic-assault/Player.ts:67-70 | the cooldown becomes the interval `FireInterval` gives for the current power-up, so with a positive fire rate the ship cannot shoot again at once; nothing else changes |
| Players.Player.CanShoot | src/games/galactic-assault/Player.ts:63-65 | the ship may fire exactly when its cooldown has run down to zero or below; `OnShoot` makes it false for a positive rate |
| Players.Player.ApplyPowerUp | src/games/galactic-assault/Player.ts:72-78 | the power-up state becomes `Picked` of the old one; position, lives and other timers are unchanged |
| Players.Player.ClearPowerUp | src/games/galactic-assault/Player.ts:80-85 | the timer is zero and the power-up is `Cleared` of the old one; nothing else changes |
| Players.Player.TakeDamage | src/games/galactic-assault/Player.ts:87-99 | the vitals and the result are exactly `Damage` of the old vitals; position, rate, cooldown and power-up timer are unchanged |
| Players.ShieldAbsorbsThreeHits | src/games/galactic-assault/Player.ts:72-99 | a fresh shield absorbs three hits, the fourth hit costs a life and a fifth, during invulnerability, does nothing |
| Input.InputManager.constructor | src/engine/InputManager.ts:2-4 | no key is held, just pressed or just released |
| Input.InputManager.OnKeyDown | src/engine/InputManager.ts:6-14 | the key becomes held, and becomes "just pressed" only if it was not already held (an auto-repeat is no new press); releases are unchanged |
| Input.InputManager.OnKeyUp | src/engine/InputManager.ts:16-19 | the key is no longer held and is "just released"; presses are unchanged |
| Input.InputManager.EndFrame | src/engine/InputManager.ts:39-42 | the edge sets are empty and the held keys are unchanged |
| Input.InputManager.IsDown | src/engine/InputManager.ts:31-33 | a key counts as held exactly while it is in the held set; `OnKeyDown`, `OnKeyUp` and `EndFrame` state how that set changes |
| Input.InputManager.JustPressed | src/engine/InputManager.ts:35-37 | a key counts as just pressed exactly while it is in this frame's press-edge set, which `OnKeyDown` fills and `EndFrame` empties |
| Input.PressScenario | src/engine/InputManager.ts:6-42 | a press of an up key is seen as held and as just pressed; an auto-repeat adds no edge, and the edge is gone after the frame ends (`isDown` and `justPressed` are set membership) |
| Loop.Updates | src/engine/GameLoop.ts:44-47 | every update the loop makes receives exactly the fixed step 1/60 |
| Loop.ClampFrame | src/engine/GameLoop.ts:38-40 | the frame time added is at most 0.25 s and never more than the elapsed time; a shorter frame is kept as it is |
| Loop.StepCount | src/engine/GameLoop.ts:42-47 | the number of whole steps leaves a remainder below one step, non-negative for a non-negative total, and is zero below one step |
| Loop.TickRunsAtMostFifteenUpdates | src/engine/GameLoop.ts:38-47 | a tick that starts with less than one step pending makes at most 15 updates |
| Loop.GameLoop.constructor | src/engine/GameLoop.ts:5-8 | a new loop is stopped with an empty accumulator and has made no calls |
| Loop.GameLoop.Tick | src/engine/GameLoop.ts:31-51 | a stopped loop does nothing; a running one clamps the elapsed time, makes `StepCount` fixed-step updates and then exactly one render, schedules the next frame and keeps the remainder below 1/60, and non-negative when it was non-negative before and the clock did not run backwards |
| Loop.GameLoop.Start | src/engine/GameLoop.ts:15-21 | a running loop is unchanged; otherwise the loop runs from an empty accumulator and its first tick runs the updates of the elapsed time |
| Loop.GameLoop.Stop | src/engine/GameLoop.ts:23-29 | the loop is no longer running and no frame is scheduled |
| Loop.StoppedLoopIsInert | src/engine/GameLoop.ts:23-32 | ticks after a stop make no call |
| Formation.HomeAlienInGrid | src/games/galactic-assault/AlienFormation.ts:58-80 | the alien built for index `k` sits in cell (k / 8, k % 8) at x = (800 - 7*44)/2 + col*44 and y = 60 + row*36, alive and at home, with class min(row, 2) |
| Formation.SettledAboveAim | src/games/galactic-assault/AlienFormation.ts:58-80 | an alien in formation is above the 500 px line shots are aimed at |
| Formation.PointsFor | src/games/galactic-assault/AlienFormation.ts:89-91 | class 0 is worth 30, class 1 is worth 20, and anything else 10 |
| Formation.AliveFlags | src/games/galactic-assault/AlienFormation.ts:85-87 | one flag per alien, telling whether it is alive |
| Formation.AliveCount | src/games/galactic-assault/AlienFormation.ts:85-87 | the count is zero exactly when every alien is dead, and the number of aliens exactly when all are alive |
| Formation.FormationLeft | src/games/galactic-assault/AlienFormation.ts:138-149 | the left edge is the minimum of homeX - width/2 over the aliens in formation, or the canvas width when there are none |
| Formation.FormationRight | src/games/galactic-assault/AlienFormation.ts:138-149 | the right edge is the maximum of homeX + width/2 over the aliens in formation, or 0 when there are none |
| Formation.NextSwayDir | src/games/galactic-assault/AlienFormation.ts:98-106 | a right edge past CANVAS_W - 20 turns the sway left; otherwise a left edge below 20 turns it right; otherwise it keeps its direction |
| Formation.DiveStep | src/games/galactic-assault/AlienFormation.ts:151-183 | phase 0 sinks by diveSpeed dt and advances the weave angle, switching to phase 1 at y = -30 once past 620; in phase 1 the alien keeps diving exactly while it is 5 px or more from its slot, and on arrival it stands on its slot and leaves the dive; its cell, home and speed never change |
| Formation.ReturnSnapsWithinFivePixels | src/games/galactic-assault/AlienFormation.ts:167-182 | a returning alien snaps home exactly when its squared distance to its slot is below 25 |
| Formation.StepAlien | src/games/galactic-assault/AlienFormation.ts:109-121 | a dead alien is untouched; an alien in formation moves to homeX + swayOffset with y unchanged; a diving one takes its `DiveStep`; the hit flash counts down while positive; cell, home row and alive flag are kept |
| Formation.Stepped | src/games/galactic-assault/AlienFormation.ts:109-121 | every alien takes its own step of the frame; the grid stays well placed and the alive count is unchanged |
| Formation.CollectBottoms | src/games/galactic-assault/AlienFormation.ts:203-213 | the Map the loop builds lists each column once; each entry is an alien of that column in formation, and no alien in formation sits lower in its column |
| Formation.AdmitStep | src/games/galactic-assault/AlienFormation.ts:205-211 | one iteration of the loop keeps that promise for the aliens seen so far |
| Formation.NewColumn | src/games/galactic-assault/AlienFormation.ts:207-208 | an alien of a column not yet seen opens its column |
| Formation.KeptAreLowest | src/games/galactic-assault/AlienFormation.ts:203-213 | each returned alien is in formation and as low as any alien of its column |
| Formation.KeptDistinctColumns | src/games/galactic-assault/AlienFormation.ts:203-213 | the returned aliens belong to distinct columns |
| Formation.KeptCoversColumns | src/games/galactic-assault/AlienFormation.ts:203-213 | every column holding an alien in formation has its alien in the result |
| Formation.KeptEmptyIff | src/games/galactic-assault/AlienFormation.ts:203-213 | the result is empty exactly when no alien is in formation |
| Formation.KeptIsBottomRow | src/games/galactic-assault/AlienFormation.ts:203-213 | together these facts say the loop's result is the bottom row |
| Formation.BottomRow | src/games/galactic-assault/AlienFormation.ts:203-213 | the bottom row: one lowest alien in formation for each column that has one, and nothing else |
| Formation.CandidatesFrom | src/games/galactic-assault/AlienFormation.ts:217 | the dive candidates are exactly the aliens in formation, in ascending index order |
| Formation.Launched | src/games/galactic-assault/AlienFormation.ts:221-230 | a launched alien dives in phase 0 from where it stands, at a speed in [180, 280), with the weave angle biased toward the player; nothing else changes |
| Formation.LaunchKeepsPlaces | src/games/galactic-assault/AlienFormation.ts:215-231 | launching one alien keeps every alien in its cell and changes no alive flag |
| Formation.SameAliveCount | src/games/galactic-assault/AlienFormation.ts:85-87 | aliens with the same alive flags have the same alive count |
| Formation.DiveStarted | src/games/galactic-assault/AlienFormation.ts:215-231 | with no alien in formation nothing changes; otherwise exactly the candidate the draw picks starts a dive and every other alien is unchanged; the alive count is kept |
| Formation.AimedShot | src/games/galactic-assault/AlienFormation.ts:189-200 | the shot leaves the shooter's lower edge as an alien bullet |
| Formation.BottomRowAboveAim | src/games/galactic-assault/AlienFormation.ts:189-193 | every alien of the bottom row is above the aiming line |
| Formation.VolleyEffect | src/games/galactic-assault/AlienFormation.ts:185-201 | with no alien in formation the alien pool is unchanged; otherwise at most one bullet is added, and a full pool is unchanged |
| Formation.VolleyShot | src/games/galactic-assault/AlienFormation.ts:185-201 | when there is a bottom row, the volley places the picked bottom-row alien's aimed shot in the lowest free slot |
| Formation.AlienFormation.constructor | src/games/galactic-assault/AlienFormation.ts:36-47 | a new formation has no aliens, zero sway and direction 1 |
| Formation.AlienFormation.Init | src/games/galactic-assault/AlienFormation.ts:49-83 | exactly 40 aliens in row-major order, each the home alien of its cell; sway offset 0, direction 1, shoot timer 0 and dive timer 1.5, whatever the grid held before |
| Formation.AlienFormation.AliveCountOf | src/games/galactic-assault/AlienFormation.ts:85-87 | the number of alive aliens, zero exactly when all are dead |
| Formation.AlienFormation.GetPointsForAlien | src/games/galactic-assault/AlienFormation.ts:89-91 | the points of the alien's class, one of 10, 20 and 30 |
| Formation.AlienFormation.ComputeFormationBounds | src/games/galactic-assault/AlienFormation.ts:138-149 | the stored edges are `FormationLeft` and `FormationRight` of the aliens; nothing else changes |
| Formation.AlienFormation.GetBottomRowAliens | src/games/galactic-assault/AlienFormation.ts:203-213 | the loop returns `BottomRow` of the aliens |
| Formation.AlienFormation.StepAliens | src/games/galactic-assault/AlienFormation.ts:109-121 | the aliens become `Stepped` of the old ones under the current sway offset |
| Formation.AlienFormation.AlienShoot | src/games/galactic-assault/AlienFormation.ts:185-201 | the alien pool becomes `Volley` of the old pool; the player pool is untouched |
| Formation.AlienFormation.StartDive | src/games/galactic-assault/AlienFormation.ts:215-231 | the aliens become `DiveStarted` of the old ones; timers and sway are unchanged |
| Formation.AlienFormation.Sway | src/games/galactic-assault/AlienFormation.ts:95-106 | the offset advances by swaySpeed * dir * dt, the edges are recomputed, and the direction is `NextSwayDir` of the shifted edges |
| Formation.AlienFormation.ShootTick | src/games/galactic-assault/AlienFormation.ts:124-128 | the shoot timer counts down; once it reaches zero it rewinds to the interval and a volley is fired, and otherwise the pool is unchanged |
| Formation.AlienFormation.DiveTick | src/games/galactic-assault/AlienFormation.ts:131-135 | the dive timer counts down; once it reaches zero it rewinds to the interval and a dive starts, and otherwise the aliens are unchanged |
| Formation.AlienFormation.Update | src/games/galactic-assault/AlienFormation.ts:93-136 | one frame: the sway advances and bounces off the 20 px margins, every alien takes its step, and the shoot and dive timers each fire their action and rewind when they run out |
| Game.Salvo | src/games/galactic-assault/index.ts:121-134 | firing adds one bullet to the player pool, or three with the spread power-up, as far as free slots allow |
| Game.PlacedCount | src/engine/ObjectPool.ts:11-20 | placing one item activates one more slot unless the pool is full |
| Game.FirstHit | src/games/galactic-assault/index.ts:169-178 | the alien found is alive and overlaps the bullet, and no earlier alien does; none is found exactly when no alive alien overlaps |
| Game.SweepStep | src/games/galactic-assault/index.ts:161-194 | checking one bullet keeps the number of aliens and slots |
| Game.SweepStepEffect | src/games/galactic-assault/index.ts:161-194 | a bullet that misses changes nothing; one that hits kills its first target (dead, no longer diving), recycles itself, adds exactly the alien's points to the score, keeps the high score at least the score, and rolls for a power-up at the alien |
| Game.SweepStepShots | src/games/galactic-assault/index.ts:161-194 | a bullet check activates no bullet and touches no slot but its own |
| Game.SweepStepCounts | src/games/galactic-assault/index.ts:161-194 | a bullet check kills at most one alien, and a kill lowers the alive count and the active bullet count by exactly one |
| Game.SweepStepScores | src/games/galactic-assault/index.ts:161-194 | a bullet check scores 10 to 30 points for its kill, if any, and never lets the high score fall or drop below the score |
| Game.KillMatches | src/games/galactic-assault/index.ts:178-191 | any state showing those effects of a hit on the first target is the one the step produces |
| Game.KilledCount | src/games/galactic-assault/index.ts:180 | killing an alive alien lowers the alive count by one |
| Game.KilledKeepsPlaces | src/games/galactic-assault/index.ts:180-181 | killing an alien keeps every alien in its cell |
| Game.Swept | src/games/galactic-assault/index.ts:161-194 | the whole player-bullet pass keeps the number of aliens and slots |
| Game.SweptEffect | src/games/galactic-assault/index.ts:161-194 | over the pass, each active bullet destroys at most one alien; each alien destroyed recycles a distinct bullet and lowers the alive count by one, scores 10 to 30 points, and the high score keeps up with the score |
| Game.SweptCounts | src/games/galactic-assault/index.ts:161-194 | each kill lowers the alive count and the active bullet count by exactly one |
| Game.SweptShots | src/games/galactic-assault/index.ts:161-194 | the pass activates no bullet and leaves earlier slots alone |
| Game.SweptScores | src/games/galactic-assault/index.ts:182-185 | the score rises by 10 to 30 per kill and never passes the high score |
| Game.SweptPlaces | src/games/galactic-assault/index.ts:161-194 | the formation keeps its places through the pass |
| Game.HitBox | src/games/galactic-assault/index.ts:198-203 | an alien bullet hits with a box twice its width and height, centred on it |
| Game.Rammers | src/games/galactic-assault/index.ts:212-215 | the rammers are exactly the alive diving aliens that overlap the ship |
| Game.Crashed | src/games/galactic-assault/index.ts:212-225 | the ramming pass keeps one entry per alien; its effect is stated by `CrashedEffect` |
| Game.CrashedUpTo | src/games/galactic-assault/index.ts:212-225 | the pass so far keeps the number of aliens |
| Game.CrashedUpToStep | src/games/galactic-assault/index.ts:212-225 | checking one more alien updates that alien alone |
| Game.CrashedUpToAll | src/games/galactic-assault/index.ts:212-225 | checking every alien is the whole ramming pass |
| Game.CrashedCount | src/games/galactic-assault/index.ts:212-225 | the ramming pass lowers the alive count by the number of rammers |
| Game.CrashedEffect | src/games/galactic-assault/index.ts:212-225 | exactly the rammers change, each of them dies (keeping its dive), and the formation keeps its places |
| Game.MarkedKinds | src/games/galactic-assault/index.ts:228-241 | one kind per collected item, and exactly the kinds of the collected items |
| Game.ReplaceKeepsPlaces | src/games/galactic-assault/index.ts:178-224 | replacing one alien by one that stays in its cell keeps the grid well placed |
| Game.Released | src/engine/ObjectPool.ts:22-28 | after releasing the matching slots seen so far, those are off and the others keep their flags |
| Game.ReleasedStep | src/engine/ObjectPool.ts:22-28 | releasing at one more slot changes that slot alone |
| Game.CollectStep | src/games/galactic-assault/index.ts:228-241 | collecting the next marked item extends the loadout by that item's kind |
| Game.BatteredHits | src/games/galactic-assault/index.ts:244-257 | hits on the ship change its vitals as `Hits` says, and the ship starts to explode exactly when one of them costs a life |
| Game.Blow | src/games/galactic-assault/index.ts:244-257 | one hit changes the vitals as `Damage` says and costs at most one life; exactly a hit that costs a life sets the state to dying with the 1.5 s timer, any other leaves state and timer alone |
| Game.Battered | src/games/galactic-assault/index.ts:244-257 | n hits with no time between them are `Blow` applied n times; `BatteredHits` and `AfterHitsAreBattered` state their effect |
| Game.AfterHits | src/games/galactic-assault/index.ts:244-257 | the closed form of n hits costs at most one life and changes nothing while the ship is invulnerable; `AfterHitsAreBattered` proves it equal to `Battered` |
| Game.Guard | src/games/galactic-assault/Player.ts:89-95 | the hits a shield can still absorb: its charges while it is up, none otherwise, never negative |
| Game.AfterHitsAreBattered | src/games/galactic-assault/index.ts:244-257 | the closed form of `n` hits is the hits taken one after another |
| Game.AfterHitsAdd | src/games/galactic-assault/index.ts:197-225 | the hits of the bullet pass and then the ramming pass add up to one run of hits |
| Game.BatteredCostsAtMostOneLife | src/games/galactic-assault/index.ts:244-257 | however many hits land in a frame, at most one life is lost, and one is lost exactly when the ship starts to explode, with a 1.5 s explosion timer |
| Game.GalacticAssault.constructor | src/games/galactic-assault/index.ts:24-34 | a new controller is on the title screen with no score and no exits |
| Game.GalacticAssault.ResetGame | src/games/galactic-assault/index.ts:48-55 | a new round: the player reset, no bullet or power-up in flight, a full formation at home, score 0; the high score and the state are kept |
| Game.GalacticAssault.Init | src/games/galactic-assault/index.ts:40-46 | the saved high score is loaded, a new round starts and the title screen shows |
| Game.GalacticAssault.SaveHighScore | src/games/galactic-assault/index.ts:390-395 | the high score becomes the larger of itself and the score |
| Game.GalacticAssault.HandlePlayerHit | src/games/galactic-assault/index.ts:244-257 | the ship takes the hit as `Damage` says; only a hit that costs a life sets the state to dying with a 1.5 s timer |
| Game.GalacticAssault.ShootDown | src/games/galactic-assault/index.ts:161-194 | the player-bullet pass leaves the aliens, the pool, the score and the power-ups exactly as `Swept` says |
| Game.GalacticAssault.BulletVsAliens | src/games/galactic-assault/index.ts:162-193 | one bullet's check is exactly `SweepStep` |
| Game.GalacticAssault.Destroy | src/games/galactic-assault/index.ts:178-191 | a hit alien dies, the bullet is recycled, the points are scored and the power-up roll is made |
| Game.GalacticAssault.ShotsAtShip | src/games/galactic-assault/index.ts:197-209 | every alien bullet whose hit box overlaps the ship is recycled and counts as a hit, in slot order |
| Game.GalacticAssault.ShotAt | src/games/galactic-assault/index.ts:198-207 | one bullet: if active and overlapping it is recycled and hits the ship; otherwise nothing changes |
| Game.GalacticAssault.RamShip | src/games/galactic-assault/index.ts:212-225 | every alive diving alien that overlaps the ship dies and counts as a hit, as `Crashed` says |
| Game.GalacticAssault.Rammed | src/games/galactic-assault/index.ts:212-225 | the ramming loop yields `Crashed` of the aliens and the number of rammers |
| Game.GalacticAssault.RamStep | src/games/galactic-assault/index.ts:213-224 | one iteration of the ramming loop extends the result by one alien |
| Game.GalacticAssault.RamAt | src/games/galactic-assault/index.ts:213-224 | one alien: if it rams the ship, the ship takes a hit |
| Game.GalacticAssault.Collect | src/games/galactic-assault/index.ts:228-241 | every power-up overlapping the ship is recycled and applied in slot order |
| Game.GalacticAssault.CollectAt | src/games/galactic-assault/index.ts:229-239 | one power-up: if active and overlapping it is recycled and applied |
| Game.GalacticAssault.HitShip | src/games/galactic-assault/index.ts:197-225 | alien bullets and then diving aliens hit the ship; the ship's fate is the closed form of all those hits |
| Game.GalacticAssault.CheckCollisions | src/games/galactic-assault/index.ts:150-242 | with the ship's rectangle taken once: player bullets destroy aliens as `Swept` says; alien bullets and rammers then hit the ship as `AfterHits` says, seeing the aliens already destroyed; last, the ship collects the power-ups, including those just dropped |
| Game.GalacticAssault.ShipCollisions | src/games/galactic-assault/index.ts:197-241 | the passes against the ship: exactly the hitting bullets are recycled, exactly the rammers die, the vitals take the hits in turn, and the overlapping power-ups are collected |
| Game.GalacticAssault.Shoot | src/games/galactic-assault/index.ts:121-134 | when Space or the up arrow is held and the cooldown is over, the cooldown restarts and the salvo is fired; otherwise nothing changes |
| Game.GalacticAssault.FireSalvo | src/games/galactic-assault/index.ts:127-133 | spawning the bullets one by one leaves the player pool as `Salvo` says |
| Game.GalacticAssault.UpdatePlaying | src/games/galactic-assault/index.ts:117-148 | a playing frame ends playing, dying or in victory; victory exactly when no alien is alive, with a reset state timer; at most one life is lost, and outside victory one is lost exactly when the ship starts to explode; score and high score never drop |
| Game.GalacticAssault.MoveAll | src/games/galactic-assault/index.ts:118-138 | the moving part of the frame keeps the invariants and costs no life |
| Game.GalacticAssault.MoveShip | src/games/galactic-assault/index.ts:118-134 | the ship's part of the frame keeps the invariants and costs no life |
| Game.GalacticAssault.StepFormation | src/games/galactic-assault/index.ts:137 | the formation's part of the frame keeps the invariants |
| Game.GalacticAssault.Resolve | src/games/galactic-assault/index.ts:140-147 | the collisions, then the victory check, with the same promises as `UpdatePlaying` |
| Game.GalacticAssault.Update | src/games/galactic-assault/index.ts:57-115 | Escape just pressed counts one exit request and ends the frame with the state, score and entities untouched; otherwise the state's own step runs as `Ticked` says; the frame's key edges are then cleared |
| Game.GalacticAssault.Dispatch | src/games/galactic-assault/index.ts:69-112 | the title screen starts play on Space or after 3 s; play keeps the promises of `UpdatePlaying`; the explosion counts down and ends the game, saving the high score, when no life is left, or resumes play; the end screens start a new round on Space once 1 s has passed; outside play, except for the new round, the ship, the aliens and all three pools are unchanged |
| Game.GalacticAssault.ReadyTick | src/games/galactic-assault/index.ts:70-75 | the state timer advances by dt, and play starts exactly when Space was just pressed or the timer passed 3 s |
| Game.GalacticAssault.DyingTick | src/games/galactic-assault/index.ts:81-93 | the explosion timer counts down; at zero the game is over, with a reset state timer and the high score saved, when no life is left, and play resumes otherwise |
| Game.GalacticAssault.EndTick | src/games/galactic-assault/index.ts:95-111 | Space, once the state timer has passed 1 s, starts a new round on the title screen; otherwise only the state timer advances, and the ship, the aliens and all three pools are unchanged |
| Game.GalacticAssault.FindTarget | src/games/galactic-assault/index.ts:169-178 | the search finds the first alive alien, in storage order, whose rectangle overlaps the bullet |

## Left out

- Drawing: the game's `render` methods and the alien renderer. They only paint the canvas.
- The HUD: only paints the canvas.
- Audio: sound cues have no effect on game state.
- Visual effects: particles, the star field and screen shake. These are decoration and never feed back into game state, so the collision pass and the tick do not model their calls.
- Key listener plumbing:
  - `InputManager.init` and `cleanup` (src/engine/InputManager.ts:21-29) register and remove the DOM listeners. The key handlers are modelled as methods a caller invokes.
  - `preventDefault` is a browser effect.
- `GameLoop`'s clock and `requestAnimationFrame`:
  - the clock reading is a parameter of `Tick` and `Start`;
  - the pending frame is a `scheduled` flag;
  - the callbacks are a log of `Update(dt)` and `Render` calls.
- `GalacticAssault.cleanup` and the DOM launcher: platform plumbing.
- `loadHighScore` and the storage write of `saveHighScore`:
  - the loaded value is the `saved` argument of `Init`;
  - only the `max` logic of `saveHighScore` is modelled.
- `onExit` / `setOnExit`: the callback is modelled by the `exits` counter.
- `Math.random`: each draw is an explicit value in [0, 1), and no distributional claim is made.
- Floating point: quantities are modelled as reals, with no rounding.
- `Math.sqrt` and `Math.sin` are supplied from outside. Nothing is proved about the dive path's weave or about the direction of aimed shots.
- Release by identity: `ObjectPool.release` finds its item by object identity. The model releases by slot index, and an index that is out of range or inactive is a no-op.
- Dangling references: an item reference held after release, and aliasing between items and callbacks, are not modelled.
- The mystery ship is modelled on its own, because the round controller does not create or use one.
- Maths.Normalize: states only that the zero vector maps to the zero vector, not that other vectors get unit length. With `sqrt` an uninterpreted root, the proof of the unit length is out of reach of the solver's non-linear real arithmetic.
- Formation.AimedShot: states only where the shot starts; its velocity depends on `Math.sqrt` and is not constrained.
- Game.GalacticAssault.UpdatePlaying: states the state transition, the victory condition, the one-life bound and the score order. It does not give the composed contents of the pools after a whole playing frame. Those are stated per part by `Shoot`, `BulletManager.Update`, `AlienFormation.Update`, `PowerUpManager.Update` and `CheckCollisions`.
- Game.GalacticAssault.Resolve: same as `UpdatePlaying`, for the collision-and-victory half of the frame.
- Game.GalacticAssault.MoveAll: states only the invariants and that no life is lost. The effects of its parts are stated by the members it calls.
- Game.GalacticAssault.MoveShip: states only the invariants and that no life is lost. `Players.Player.Update` and `Shoot` state its effect.
- Game.GalacticAssault.StepFormation: states only the invariants. `Formation.AlienFormation.Update` states its effect.
- Game.GalacticAssault.Update: within the playing state it promises what `UpdatePlaying` promises, not the full new contents of the pools.
- Game.GalacticAssault.Dispatch: same as `Update`.
- Formation.AlienFormation.Update: the per-alien step uses the shifted sway offset. The positions are stated through `Stepped`, and the dive path is stated only up to the supplied `sin`.

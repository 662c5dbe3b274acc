# Side-scroller simulation core, modelled in Dafny

`game.js` is a browser arcade game. A player rectangle jumps over enemy
rectangles that scroll in from the right. Clouds drift by and a pelican
stands still. Beneath the canvas, audio and DOM calls sits a small
deterministic simulation. This project models that simulation and proves
properties of it:

- `Bodies` (`bodies.dfy`): body geometry, the collision test `colliding` and
  the pruning test `bodyOnScreen`.
- `Keyboard` (`keyboard.dfy`): the `Keyboarder` key-state map and its two event
  listeners.
- `Players` (`player.dfy`): the `Player` class and its integer jump state
  machine. `Player.Update` is proved against the pure step function `Step`.
  The invariants, the no-double-jump rule and the exact jump arc are proved
  about `Step`.
- `Simulation` (`game.dfy`): the `Game` class. It covers `addBody`,
  `addEnemy`, `addClouds` and `update`. `Game.Update` is proved against the
  pure function `Tick`, and the loop in `UpdateBodies` is proved against
  `Sweep`. The spawning, collision, pruning and layout properties are proved
  about `Tick`. `Frames` and `Session` model the `run` frame loop.

Modelling choices:

- `this.bodies` is a `seq<Entry>`. The player object is shared between the
  array and `this.player`. Its slot is therefore `PlayerEntry`, and its state
  lives in the `Player` object. Enemies and clouds are referenced only from the
  array, so updating their `center.x` in place is the same as replacing the
  value in the sequence.
- The pelican object is referenced twice: from the array and from
  `this.pelican` (game.js:41). The model keeps `Game.pelican` as a constant
  value and `bodies[0] == Actor(pelican)` as part of the invariant. The two
  cannot drift apart: `Pelican.update` changes nothing (`Moved` returns the
  pelican unchanged), the pelican is never pruned (`PruneKeepsLayout`), and
  the code never writes to the object through `this.pelican`.
- JavaScript object identity (`b1 === b2`) is the `id` field of `Body`. The
  pelican has id 0, the player id 1, and each spawned body takes the next
  unused id.
- Coordinates are exact `real`s. The player's height and velocity are `int`s,
  as in the source.
- The `Math.random()` samples of one update are the `Draws` parameter. The
  state of the S key is read from the `Keyboarder`, as `Player.update` does.

Two consequences of the code that are easy to misread:

- A body is pruned once `center.x <= -size.width` (game.js:288-290). A body
  whose right edge has just reached 0 is therefore still kept.
- A jump launched at velocity 15 peaks 120 units above `startingY` after 15
  updates and lands on the 31st update after the launch (game.js:174-189).

## Model

| member | source | states |
|---|---|---|
| `Bodies.Colliding` | game.js:292-303 | defines `colliding`: neither body is safe, they are different objects, and none of the four strict separation tests holds |
| `Bodies.OnScreen` | game.js:288-290 | defines `bodyOnScreen`: the centre is right of `-width` |
| `Bodies.SafeOrSameNeverCollides` | game.js:292-296 | a safe body (cloud, pelican) never collides, and neither does a body compared with itself |
| `Bodies.CollidingSymmetric` | game.js:297-300 | `colliding(a, b)` equals `colliding(b, a)` for all bodies |
| `Bodies.CollidingIffSharedPoint` | game.js:292-303 | two well-formed bodies collide exactly when both are non-safe, they are different objects and their closed boxes share a point |
| `Bodies.IdenticalBoxesCollide` | game.js:297-300 | distinct non-safe bodies with the same centre and size collide |
| `Bodies.TouchingEdgesCollide` | game.js:297-300 | distinct non-safe bodies whose left and right edges coincide collide whenever their vertical extents overlap or touch, corner contact included, because the separation tests are strict |
| `Bodies.SeparatedNeverCollide` | game.js:297-300 | boxes separated on the x or the y axis do not collide, in either argument order |
| `Keyboard.LastEventWins` | game.js:264-277 | after any run of key events, `isDown(k)` holds exactly when the last event for `k` was a key-down; with no event for `k`, the earlier state stands |
| `Keyboard.Keyboarder.IsDown` | game.js:275-277 | defines `isDown`: the key is in the map and mapped to true, so a key never seen is not down |
| `Keyboard.Keyboarder.constructor` | game.js:263-264 | a new key-state map is empty, so no key is down |
| `Keyboard.Keyboarder.OnKeyDown` | game.js:266-268 | a key-down marks that key down and leaves every other key as it was |
| `Keyboard.Keyboarder.OnKeyUp` | game.js:270-272 | a key-up marks that key up and leaves every other key as it was |
| `Players.Player.constructor` | game.js:156-161 | a new player is grounded at its creation height, with zero velocity, and that height becomes `startingY` |
| `Players.Player.Update` | game.js:173-190 | the new (y, velocityY, jumping) is `Step` of the old state and the S-key state; the invariant `Sound` is preserved |
| `Players.Step` | game.js:173-189 | defines one `Player.update` on (y, velocityY, jumping): move by the velocity, lose one unit of velocity and land at `startingY` while airborne, then launch at 15 if the key is held on the ground |
| `Players.StepKeepsSound` | game.js:174-189 | an update keeps the invariant whatever the key does: grounded means velocity 0 at `startingY`; airborne means at or above `startingY` and on the parabola `2*(startingY - y) == (15 - v)*(16 + v)` |
| `Players.KeyMattersOnlyOnGround` | game.js:185-189 | the key changes the outcome of an update exactly when the player is grounded after the landing check; holding it while airborne does nothing (no double jump) |
| `Players.GroundedStep` | game.js:173-189 | a grounded player stays put without the key, and with it launches from `startingY` at velocity 15 |
| `Players.AirborneBounds` | game.js:174-182 | an airborne player is never more than 120 above `startingY`, and its velocity stays within -16..15 |
| `Players.FlightClosedForm` | game.js:174-182 | k < 31 updates after a launch, whatever the keys do, the player is airborne with velocity `15 - k` and `2*(startingY - y) == k*(31 - k)` |
| `Players.FlightLands` | game.js:174-189 | a launched player is airborne for updates 1 to 30 and is exactly 120 up after update 15; on update 31 it lands at `startingY` with velocity 0, or relaunches at once if the key is held |
| `Simulation.Moved` | game.js:225-227 | a body's update changes only `center.x`: enemies move by exactly `-runSpeed`, clouds by `-runSpeed/3` (game.js:140-142), and the pelican does not move (game.js:247-249) |
| `Simulation.KeepOnScreen` | game.js:112 | defines `this.bodies.filter(bodyOnScreen)`; the result is never longer than the input and every entry in it is on screen |
| `Simulation.Sweep` | game.js:104-110 | defines the body loop over a list of bodies: each body is updated in turn (the player's slot runs `Player.update`), then tested against the player as it is at that moment |
| `Simulation.EnemyAt` | game.js:78-80 | defines the enemy `addEnemy` creates; it is not safe, so it can collide, and its size is non-negative |
| `Simulation.CloudAt` | game.js:82-86 | defines the cloud `addClouds` creates from three samples; it is safe, so it never collides |
| `Simulation.Spawn` | game.js:92-102 | defines the spawning half of `update`: an enemy if the sample is below `ticksSinceEnemy * 0.0001` (counter reset to 0.001, else incremented), then a cloud if the next sample is below 0.001 |
| `Simulation.Tick` | game.js:89-113 | defines one `update`: `Spawn`, then `Sweep`, then `KeepOnScreen` with the updated player, and `gameOver` raised by any hit |
| `Simulation.KeepOnScreenConcat` | game.js:112 | pruning distributes over concatenation, so surviving bodies keep their relative order |
| `Simulation.KeepOnScreenMember` | game.js:288-290 | pruning keeps exactly the bodies with `center.x > -size.width` |
| `Simulation.SweepEntries` | game.js:104-105 | the body loop updates every body exactly once, in place and in order |
| `Simulation.SweepHit` | game.js:104-110 | the loop records a hit exactly when some iteration's test holds; that test is the player as it is after that iteration against the body after its own update |
| `Simulation.SweepPlayer` | game.js:104-105 | with the player in slot 1 and nowhere else, iterations 0 and 1 see the old player, and every later iteration sees it after exactly one `Player.update` |
| `Simulation.SpawnAppends` | game.js:92-98 | spawning keeps the old bodies as a prefix; it adds exactly one enemy, at centre (width, groundY-15) with size 30x30 right after them, iff the sample is below `ticksSinceEnemy * 0.0001`; the counter then becomes 0.001, otherwise it grows by exactly 1 |
| `Simulation.SpawnKeepsValid` | game.js:78-86 | spawned enemies and clouds keep the layout invariant and leave the player and `gameOver` alone |
| `Simulation.TickGameOver` | game.js:104-110 | after an update, `gameOver` holds exactly when it held before, or some enemy or cloud, after its move, collides with the updated player |
| `Simulation.StepAllKeepsLayout` | game.js:104-105 | updating every body keeps the layout; the pelican does not move, and the other bodies keep their kind and identity |
| `Simulation.PruneKeepsLayout` | game.js:112 | pruning never removes the pelican or the player, because both start at x >= 0 with positive width; what follows them is still spawned bodies |
| `Simulation.TickKeepsValid` | game.js:89-113 | every update keeps the layout: the pelican unchanged first and the player second (neither is ever pruned), then only spawned bodies, with the player invariant and a non-negative counter |
| `Simulation.TickEntries` | game.js:104-112 | the new bodies are the old ones, each moved once, then filtered by `bodyOnScreen` |
| `Simulation.Session` | game.js:65-75 | defines how many frames `run` updates: one update per frame until the first update that ends the game; never more than the frames given, and at least one if any |
| `Simulation.SessionStops` | game.js:65-75 | with the bounds stated on `Session`: if `run` stops before the frames run out, the last update ended the game, and no earlier update did |
| `Simulation.GameOverIsFinal` | game.js:104-110 | once `gameOver` is set, no later update clears it |
| `Simulation.Game.constructor` | game.js:17-58 | a new game holds the pelican then the player on the ground line at a tenth of the width, with counter 0 and not over |
| `Simulation.Game.AddBody` | game.js:60-62 | `addBody` appends one body at the end and changes nothing else |
| `Simulation.Game.AddEnemy` | game.js:78-80 | `addEnemy` appends one 30x30 enemy at (width, groundY-15) |
| `Simulation.Game.AddClouds` | game.js:82-86 | `addClouds` appends one cloud at the right edge, with height and size drawn from the samples |
| `Simulation.Game.SpawnBodies` | game.js:92-102 | the spawning part of `update` takes the game to `Spawn` of its old state |
| `Simulation.Game.UpdateEntry` | game.js:105-109 | one loop iteration: body `i` becomes `StepEntry` of itself, the player steps only in its own slot, and `gameOver` is raised exactly when the updated body collides with the player as it now is |
| `Simulation.Game.UpdateBodies` | game.js:104-110 | the body loop leaves the bodies, the player and `gameOver` as `Sweep` computes them from the old state |
| `Simulation.Game.Update` | game.js:89-113 | `update` takes the game to `Tick` of its old state; the layout invariant is preserved |

## Left out

- Rendering is left out: `draw` of the game and of every body, the canvas
  lookup and the colours (game.js:116-128, 145-151, 193-213, 230-236,
  252-258). The stray comma in `Clouds.draw` passes five arguments to
  `fillRect`; it affects only drawing.
- Audio is left out: `deathSound.play()` and `jumpSound.play()` have no effect
  on the simulation state. They use the bare globals `deathSound` and
  `jumpSound`, not the fields set at game.js:28-29. The model assumes the page
  has elements with those ids; otherwise the calls would throw and end the
  update early.
- Host scheduling is left out. `requestAnimationFrame` becomes the list of
  frames given to `Frames`/`Session`. Key events between frames become each
  frame's key state.
- `Keyboarder.on` (game.js:279-285) is not modelled. It is never called.
  The two constructor listeners are modelled as `OnKeyDown` and `OnKeyUp`.
- `Math.random()` is not modelled. Its samples are parameters, and no range is
  required of them. The model proves nothing that depends on
  them lying in [0, 1).
- Floating point is not modelled. `real` is exact, so `ticksSinceEnemy`, the
  0.0001, 0.001 and `runSpeed / 3` constants, and the `* 0.8` and `* 0.1`
  of the constructor are computed without IEEE double rounding.
- Simulation.Moved, Simulation.Game.UpdateBodies: in-place mutation of
  `Enemy`, `Clouds` and `Pelican` objects is modelled as replacing values in
  `bodies`. No other reference to an enemy or a cloud exists. The pelican is
  also referenced from `this.pelican`, but its update changes nothing and that
  reference is never used to write, so the value copy in `Game.pelican` stays
  equal to `bodies[0]`.
- The commented-out image-loading code is not modelled.

# Platformer simulation core in Dafny

This project models the simulation core of a browser platformer in the style of
Super Mario. The core is the code behind one call of `update` and the
fixed-step loop of `gameLoop` that calls it:

- **Physics** (`Physics`, `physics.dfy`): axis-aligned box overlap, the
  collision-side classification, snap-out resolution, gravity and friction.
- **Tiles** (`Tiles`, `tiles.dfy`): the tile grid and its bounds-checked
  lookup.
- **Sweep** (`Sweep`, `sweep.dfy`): the 4×4 tile-neighbourhood sweep that both
  enemies and the player run.
- **Enemies** (`Enemies`, `enemy.dfy`): the Goomba / Koopa state machine
  (walking, dead with a countdown, idle shell, kicked shell, inactive) and its
  `hitFromAbove` / `hitFromSide` reactions.
- **Players** (`Players`, `players.dfy`): the player's power tiers, the timed
  invulnerability window, input, jumping, shooting, and the fireball list.
- **Levels** (`Levels`, `levels.dfy`): a level built from level data, its
  per-tick enemy and mushroom updates, and pickup collection.
- **Layouts** (`Layouts`, `layout.dfy`): the level generator. Levels 1 and 2
  are fixed. Level 3 and later are procedural, with the `Math.random()`
  draws taken as a parameter.
- **Games** (`Games`, `games.dfy`): the game session. It holds the
  menu / playing / paused / game-over states, score, lives, coins and the
  camera. It also holds the rules between player, enemies, pickups and
  fireballs in `update`, and the fixed-step accumulator of `gameLoop`.

The source's objects become classes with the same fields. These are `Enemy`,
`Player`, `Fireball`, `Level` and `Game`, and their methods change those
fields step by step as the source does. Each class has a `Model()` that maps
it to a value of a datatype (`EnemyState`, `PlayerState`, `FireballState`,
`LevelState`, `World`). Each method promises that its new `Model()` is a
specification function of the old one, for example
`Model() == Step(old(Model()), g, dt, exitRight)` for `Enemy.Update`. The
source's behaviour is then proved as lemmas about those functions:
transition tables, invariants that a tick preserves, and counting results
over many ticks.

The timing of `gameLoop` (js/game.js:407-416) is modelled as written. The
measured delta is in frame units, one unit per 16.67 ms, capped at 2. Each
`update` takes only `fixedDeltaTime` = 1/60 of a unit out of the
accumulator. So a frame at 60 fps runs 60 updates, not one, and a capped
frame runs 120 (`SixtyUpdatesPerFrame`). Each update still moves bodies by
their full per-update velocities. Of the simulation, only the player's gravity
is scaled by the step. The timers count updates: the 120-update invulnerability
window, the death timer and the shell timer. So the invulnerability window
lasts two frames at 60 fps.

Coordinates and velocities are exact `real`s and `Math.floor` is `.Floor`.
Randomness is passed in as parameters: the Koopa's shell-exit coin flip
(`exitRight`, or `exits(i)` for enemy `i`) and the stream of draws a generated
level consumes (`rand`). Keyboard state is a `Keys` value of four booleans
(left, right, jump, fire). It stands for the source's key bindings (js/player.js:38-56):
left is ←, A or a; right is →, D or d; jump is ↑, W, w or space; fire is X or x.

## Model

| member | source | states |
|---|---|---|
| `Physics.CollisionSymmetric` | js/physics.js:10-15 | the overlap test gives the same answer with its arguments swapped; boxes that only share an edge do not overlap |
| `Physics.CollisionIffCommonPoint` | js/physics.js:10-15 | for boxes of positive size, the strict overlap test holds iff some point lies strictly inside both boxes |
| `Physics.PointInRectInclusive` | js/physics.js:18-21 | all four corners of a box are in it, and so is every interior point |
| `Physics.SideClassification` | js/physics.js:24-33 | the answer is `left`/`right` iff overlapX < overlapY (ties go to the vertical axis); `top` iff the vertical axis is chosen and rect1.y < rect2.y; `left` iff the horizontal axis is chosen and rect1.x < rect2.x |
| `Physics.SideSwap` | js/physics.js:24-33 | swapping the two boxes turns `top` into `bottom` and `left` into `right` |
| `Physics.ResolveCollision` | js/physics.js:36-65 | after resolution the moving box no longer overlaps the static one, and its size is unchanged |
| `Physics.ResolveFlush` | js/physics.js:36-65 | for each side, the moved box is flush with the matching edge of the static box; the velocity on that axis becomes 0 if present (absent stays absent); every other field, including the other axis, is unchanged |
| `Physics.ApplyGravity` | js/physics.js:68-72 | adds exactly `0.8 * dt` to a present vertical velocity; an absent one stays absent; nothing else changes |
| `Physics.GravityAccumulates` | js/physics.js:68-72 | n gravity steps of dt equal one step of n·dt |
| `Physics.FrictionBounds` | js/physics.js:75-82 | friction never increases the speed, strictly decreases any non-zero speed, and leaves 0 at 0; the result is 0 or at least 0.1 in magnitude, and a non-zero result is exactly vx·0.85 |
| `Physics.FrictionDecay` | js/physics.js:75-82 | after n applications the speed is 0 or exactly vx·0.85ⁿ; once it reaches 0 it stays 0 |
| `Physics.CheckTileCollision` | js/physics.js:85-101 | equals the overlap test of the object's box with the box (tx·ts, ty·ts, ts, ts) |
| `Physics.TileTestSelectsCell` | js/physics.js:85-101 | for tiles of positive size, a box that exactly fills cell (tx, ty) overlaps that cell and none of its four neighbours; a box of positive size overlaps a cell iff some point lies strictly inside both |
| `Sweep.ProbeIsTileTest` | js/enemy.js:54-72 | the overlap test that each sweep iteration makes by hand is the tile test `checkTileCollision` with tiles of 32 px |
| `Tiles.GetTile` | js/level.js:54-59 | returns no tile exactly when x<0, x≥width, y<0 or y≥height, and `tiles[y][x]` otherwise |
| `Tiles.SolidOnlyOnGrid` | js/level.js:54-59 | a lookup is solid iff the cell is on the grid and its tile is terrain (not 0, `'c'`, `'m'` or `'f'`) |
| `Sweep.ContactRulesAgree` | js/enemy.js:72-86 | the enemy's turn-around and the player's stop at a wall react identically, because resolution then zeroes the horizontal velocity; after a wall contact the velocity is 0 |
| `Sweep.SweepRulesAgree` | js/enemy.js:49-90 | the whole enemy sweep equals the player's sweep (js/player.js:79-119) on the same body |
| `Sweep.ContactShape` | js/enemy.js:72-86 | one contact keeps the body's size, only ever zeroes a velocity component, and grounds the body only with a zero vertical velocity |
| `Sweep.ProbeShape` | js/enemy.js:54-88 | visiting one cell keeps the shape invariant of `ContactShape`, whether or not the cell reacts |
| `Sweep.SweepShape` | js/enemy.js:49-90 | any prefix of the 16-cell sweep keeps the size and only zeroes velocity components |
| `Sweep.GroundedMeansStill` | js/player.js:73-119 | after a complete sweep starting from a cleared ground flag, a grounded body has vertical velocity 0 |
| `Sweep.WindowOrder` | js/enemy.js:49-52 | the i-th visited cell has offsets (i%4−1, i/4−1): rows `dy` outer, columns `dx` inner, from −1 to 2 |
| `Sweep.WindowCovers` | js/enemy.js:43-52 | every tile that a body at most two tiles wide and tall overlaps lies in the 4×4 window around its tile |
| `Enemies.SpawnWalksLeft` | js/enemy.js:4-22 | a new enemy is active, alive, not in a shell, 32 high, with velocityX −1.5 for a goomba, −2 otherwise, and velocityY 0 |
| `Enemies.Enemy.constructor` | js/enemy.js:4-22 | the new object's state is the spawn state, with this velocity and these flags |
| `Enemies.Enemy.GetBounds` | js/enemy.js:232-239 | the enemy's box at its position and size |
| `Enemies.InactiveStaysPut` | js/enemy.js:25 | updating an inactive enemy changes nothing |
| `Enemies.DeadOnlyCountsDown` | js/enemy.js:27-33 | updating a dead enemy only decrements deathTimer, and it stays active iff the new timer is positive |
| `Enemies.DeathCountdown` | js/enemy.js:27-33 | over n updates a dead enemy's timer drops by n (while n ≤ timer), it stays active iff n < timer, and nothing else changes |
| `Enemies.FreshDeathLastsTenTicks` | js/enemy.js:147-155 | a goomba or kicked shell stomped to death is still active after 9 updates and inactive after 10 |
| `Enemies.StepKeepsFlags` | js/enemy.js:24-132 | an update of a live enemy keeps its kind, liveness, timer and kicked flag; an idle shell counts shellTimer up by one; any other enemy keeps its shell timer, shell flag and height |
| `Enemies.ShellOpens` | js/enemy.js:123-131 | an idle shell counts up; it leaves the shell iff the new count exceeds 300, and then is 32 high and walks at +2 or −2 as the coin flip says |
| `Enemies.StepKeepsShellsStill` | js/enemy.js:24-132 | an update keeps the invariant "an idle shell has velocityX 0" |
| `Enemies.HitsKeepShellsStill` | js/enemy.js:134-167 | both hit reactions keep the invariant "an idle shell has velocityX 0" |
| `Enemies.StepKeepsSpeed` | js/enemy.js:36-113 | apart from leaving the shell, an update keeps a live enemy's horizontal speed or stops it (wall contact); it never speeds up |
| `Enemies.KeepInBoundsHeading` | js/enemy.js:107-113 | the bounds step only changes the sign of velocityX; past the right edge it heads left (≤ 0); past the left edge (and not past the right) it heads right (≥ 0); inside the level nothing changes |
| `Enemies.LedgeTurnExactly` | js/enemy.js:92-105 | velocityX flips sign iff the enemy was grounded this tick and the look-ahead cell is off-grid or not solid; otherwise nothing changes |
| `Enemies.StompTable` | js/enemy.js:134-155 | unshelled koopa → in shell, height 16, vx 0, shellTimer 0, 100 points; idle shell → kicked at vx 5, 0 points; goomba or kicked shell → dead, timer 10, vy −5, vx 0, 100 points; 0 points iff it was an idle shell |
| `Enemies.SideTable` | js/enemy.js:157-167 | 200 iff a kicked koopa shell, which goes inactive; −1 iff not in a shell; otherwise 0; no change except the 200 case |
| `Enemies.KoopaStompedThrice` | js/enemy.js:134-155 | three stomps on a new koopa give 100 (shell), 0 (kick at speed 5) and 100 (dead, timer 10) |
| `Enemies.Enemy.Update` | js/enemy.js:24-132 | the object's new state is one `Step`: the inactive and dead cases, then gravity, move, sweep, ledge, bounds and shell timer |
| `Enemies.Enemy.CollideWithTiles` | js/enemy.js:43-90 | the nested `dy`/`dx` loop leaves the object in the state of the tile sweep with turn-around, and returns its ground flag |
| `Enemies.Enemy.ProbeCell` | js/enemy.js:54-88 | one iteration of the inner loop extends the sweep by the i-th cell and changes only position and velocities |
| `Enemies.Enemy.React` | js/enemy.js:72-86 | the reaction to one cell (ground flag, turn-around, snap-out) agrees with the sweep's cell rule |
| `Enemies.Enemy.AfterSweep` | js/enemy.js:92-131 | ledge check, bounds step and shell timer, in that order |
| `Enemies.Enemy.TurnAtLedge` | js/enemy.js:92-105 | the ledge check as specified by `LedgeTurnExactly` |
| `Enemies.Enemy.StayInBounds` | js/enemy.js:107-113 | the bounds step as specified by `KeepInBoundsHeading` |
| `Enemies.Enemy.TickShell` | js/enemy.js:122-131 | the shell timer as specified by `ShellOpens`, with the coin flip as a parameter |
| `Enemies.Enemy.HitFromAbove` | js/enemy.js:134-155 | the new state and the returned points are the stomp outcome tabulated by `StompTable` |
| `Enemies.Enemy.HitFromSide` | js/enemy.js:157-167 | the new state and the returned signal are the side outcome tabulated by `SideTable` |
| `Players.SteerTable` | js/player.js:38-48 | left held → vx −5, facing left (left wins over right); only right → vx 5, facing right; neither → friction, which never speeds up, and the facing is kept; nothing else changes |
| `Players.JumpRule` | js/player.js:50-53 | a jump sets vy −15 and clears onGround only when jump is held and the player is on the ground, and changes nothing otherwise; gravity is applied after it in the same tick, giving −15 + 0.8·dt |
| `Players.ShootRule` | js/player.js:56-63 | exactly one fireball is appended iff fire is held, the tier is fire and the cooldown is ≤ 0; it starts at x+width (facing right) or x, at y+height/2, with velocity (±8, −2), active and unbounced; the cooldown is then 19; otherwise the list is kept and a positive cooldown drops by one |
| `Players.ClampInside` | js/player.js:121-125 | afterwards 0 ≤ x and x+width ≤ level width in pixels when the level is at least as wide as the player; inside the level nothing changes; only x changes |
| `Players.SurvivorsExactly` | js/player.js:146-150 | the kept list is no longer than before; every kept fireball is active and strictly within 100 px of the level's sides; a fireball is kept iff it is one of the old ones advanced by one flight step and is then in flight |
| `Players.TickInside` | js/player.js:34-151 | after an update the player is inside the level horizontally, and every remaining fireball is in flight |
| `Players.DamageTable` | js/player.js:162-178 | invulnerable → false, no change; fire → big, big → small, each invulnerable for 120 and false; small → true, no change; the height never changes |
| `Players.EmpowerTable` | js/player.js:180-191 | succeeds iff (mushroom and small) or (fire flower and not fire); success sets the tier and height 48; failure changes nothing |
| `Players.RespawnRestores` | js/player.js:193-202 | x, y at the start position, velocities 0, small, height 32, not invulnerable, no fireballs; the invulnerability timer, cooldown and start position are kept |
| `Players.TickCountsWindow` | js/player.js:139-144 | an update touches the invulnerability flag and timer exactly as the countdown step does |
| `Players.WindowStaysTimed` | js/player.js:139-144 | an update keeps the invariant "invulnerable ⇒ timer ≥ 1" |
| `Players.HitsKeepWindowTimed` | js/player.js:162-202 | damage, power-ups and reset keep the invariant "invulnerable ⇒ timer ≥ 1" |
| `Players.WindowCloses` | js/player.js:139-144 | over n ≤ timer updates the timer drops by n, and the player stays invulnerable iff n < timer |
| `Players.DamageGrace` | js/player.js:162-178 | after a survivable hit the player is still invulnerable after 119 updates and no longer after 120 |
| `Players.Fireball.constructor` | js/player.js:273-282 | a new fireball: 12×12, velocity (direction·8, −2), active, no bounces |
| `Players.Fireball.Update` | js/player.js:284-293 | x += vx, y += vy, then vy += 0.5 |
| `Players.Fireball.GetBounds` | js/player.js:310-317 | the fireball's 12×12 box at its position |
| `Players.Player.constructor` | js/player.js:4-32 | a new player at the start position: small, 32 high, at rest, facing right, no fireballs, cooldown 0 |
| `Players.Player.Update` | js/player.js:34-151 | the object's new state is one `Tick`: steer, jump, shoot, gravity and move, sweep, clamp, invulnerability countdown, fireball filter; every fireball kept is an old one or a fresh shot |
| `Players.Player.HandleInput` | js/player.js:38-53 | steering, then the jump, leaving the fireball list alone |
| `Players.Player.ApplyShooting` | js/player.js:56-63 | the shot and the cooldown, as specified by `ShootRule` |
| `Players.Player.ShootFireball` | js/player.js:153-160 | appends exactly one fresh fireball at the muzzle and keeps the earlier ones |
| `Players.Player.ApplyMotion` | js/player.js:65-70 | gravity scaled by dt, then the position moves by the velocity |
| `Players.Player.CollideWithTiles` | js/player.js:72-119 | the nested `dy`/`dx` loop leaves the player in the state of the tile sweep with wall stop, starting from a cleared ground flag |
| `Players.Player.ProbeCell` | js/player.js:84-117 | one iteration of the inner loop extends the sweep by the i-th cell and changes only position, velocities and the ground flag |
| `Players.Player.React` | js/player.js:102-115 | the reaction to one cell (ground flag, wall stop, snap-out) agrees with the sweep's cell rule |
| `Players.Player.StayInBounds` | js/player.js:121-125 | the clamp as specified by `ClampInside` |
| `Players.Player.CountDownInvulnerability` | js/player.js:138-144 | the invulnerability countdown |
| `Players.Player.UpdateFireballs` | js/player.js:146-150 | the loop advances every fireball and then keeps exactly the survivors (see `SurvivorsExactly`); no new fireball appears |
| `Players.Player.FlyOne` | js/player.js:147-150 | one call of the filter callback: the fireball flies, and it is appended to the kept list iff it is then still in flight; the kept list's objects stay distinct |
| `Players.Player.TakeDamage` | js/player.js:162-178 | the new state and the result are as tabulated by `DamageTable` |
| `Players.Player.PowerUp` | js/player.js:180-191 | the new state and the result are as tabulated by `EmpowerTable` |
| `Players.Player.Reset` | js/player.js:193-202 | the respawn state of `RespawnRestores`, with an empty fireball list |
| `Players.Player.GetBounds` | js/player.js:261-268 | the player's box at its position and current height |
| `Levels.Or` | js/level.js:12-14 | JavaScript's `v \|\| d` on a number: the result is the default or the given value, and a given non-zero value wins |
| `Levels.BuildDefaults` | js/level.js:4-18 | the grid is taken as given; startX, startY and endX fall back to 50, 100 and width·32−50 when missing or 0, and otherwise are the given values |
| `Levels.BuildPlacesEach` | js/level.js:20-52 | one enemy, collectible and power-up per entry, in order; each enemy is a spawned enemy at its position; collectibles start uncollected and default to `'coin'`; power-ups are uncollected, active, at rest, and default to mushroom |
| `Levels.Level.constructor` | js/level.js:4-52 | the new level's state is the built level, and its enemies are fresh objects |
| `Levels.LevelCollision` | js/level.js:251-256 | the level's second overlap test agrees with the physics one |
| `Levels.Last` | js/level.js:211-229 | the index of the last hit, if any, lies within the list |
| `Levels.LastExactly` | js/level.js:211-229 | none iff nothing was hit; otherwise the index of a hit after which nothing was hit |
| `Levels.CollectExactly` | js/level.js:211-229 | same length; only the collected flag changes; an item is collected afterwards iff it already was or its 16×16 box overlaps the player's box |
| `Levels.GatherExactly` | js/level.js:231-249 | same length; only the collected flag changes, and it changes iff the power-up was active, uncollected and overlapping the player's box |
| `Levels.Level.CheckCollectibleCollision` | js/level.js:211-229 | marks the collected coins and returns the last one taken, or none iff none was taken; the power-ups are untouched |
| `Levels.Level.CheckPowerUpCollision` | js/level.js:231-249 | marks the collected power-ups and returns the last one taken, or none iff none was taken; the coins are untouched |
| `Levels.AdvanceIsStep` | js/level.js:63-67 | the level updates an enemy with a time step of 1 |
| `Levels.DriftTable` | js/level.js:70-93 | collected, inactive or fire-flower items do not move; an active mushroom gets vy+0.8, then y+vy, then x+1; on a solid tile under it, it snaps to tileY·32−16 with vy 0; it stays active iff 0 ≤ x ≤ level width |
| `Levels.LevelTickKeeps` | js/level.js:61-101 | a level update keeps the grid, the end and the coins, and every enemy's kind; it leaves inactive enemies and fire flowers as they were, and never reactivates an enemy |
| `Levels.Level.Update` | js/level.js:61-101 | the object's new state is one level tick: the enemies, then the power-ups |
| `Levels.Level.UpdateEnemies` | js/level.js:63-67 | the loop updates each active enemy with its own coin flip |
| `Levels.Level.DriftPowerUps` | js/level.js:70-93 | the loop drifts every power-up and leaves the coins alone |
| `Layouts.Blank` | js/level.js:265-271 | a 20×50 grid of empty cells |
| `Layouts.LayGround` | js/level.js:273-279 | rows 17–19 become ground and every other cell is unchanged |
| `Layouts.PaintRun` | js/level.js:284-292 | the cells [lo, hi) of one row take the given tile and every other cell is unchanged |
| `Layouts.Put` | js/level.js:295-296 | one cell takes the given tile and every other cell is unchanged |
| `Layouts.RaisePlatform` | js/level.js:383-395 | the i-th procedural platform extends the grid built so far by that platform's brick run and its possible question block |
| `Layouts.GenerateLevel` | js/level.js:260-431 | the generated level data are exactly the specification `Generated`, for levels 1, 2 and the procedural levels |
| `Layouts.PlaceEnemies` | js/level.js:397-404 | the procedural enemies: 8+n of them, 150 px apart from 200, koopa iff the draw exceeds 0.6 |
| `Layouts.PlaceCoins` | js/level.js:406-413 | the ten procedural coins, 120 px apart from 300, each 4 to 6 rows above the ground as drawn |
| `Layouts.GeneratedShape` | js/level.js:260-329 | every generated level is a rectangular 50×20 grid whose rows 17–19 are ground, with start (50, 512) and end 1536 |
| `Layouts.DrawRange` | js/level.js:385-386 | `Math.floor(Math.random() * n)` lies in [0, n) |
| `Layouts.PlatformRange` | js/level.js:383-395 | a procedural platform is 3 to 6 rows above the ground and 3 to 5 tiles long |
| `Layouts.SkyFitsRows` | js/level.js:281-395 | above the ground, every non-empty cell of every level lies in rows 10–14 |
| `Layouts.StartStandsClear` | js/level.js:319-329 | the player's start box overlaps only cells 1 and 2 of row 16, which are empty in every level and rest on ground |
| `Layouts.PopulationCounts` | js/level.js:298-417 | level 1 has 4 enemies, 3 coins and 2 power-ups; level 2 has 5, 5 and 2; a procedural level n has 8+n enemies, 10 coins and 1 power-up |
| `Games.CameraFor` | js/game.js:246-247 | the camera is clamped to [0, level width − 800] when the level is at least a screen wide (for 50 tiles: [0, 800]); it is level width − 800 otherwise; away from the edges it centres the player |
| `Games.DeathTable` | js/game.js:368-391 | one life less; at ≤ 0 the game ends with highScore = max(highScore, score) and the player untouched; otherwise the player respawns and the camera returns to 0; the score is kept |
| `Games.ToggleTable` | js/game.js:226-234 | playing ↔ paused, menu and game over unchanged, only the state changes, and toggling twice restores the session |
| `Games.StartTable` | js/game.js:186-209 | a new game is playing with score 0, lives 3, coins 0, level 1, camera 0 and the best score kept; the player is new at level 1's start, and the level is level 1 as built |
| `Games.LoadSound` | js/game.js:211-218 | a loaded level's grid is rectangular |
| `Games.TickSound` | js/game.js:236-366 | a tick keeps the level's grid rectangular, including through a level change |
| `Games.CoinTable` | js/game.js:250-257 | the coins touched are marked; if any was taken, coins rise by 1 and the score by 100 (once, however many were taken); otherwise the session is unchanged |
| `Games.PowerUpTable` | js/game.js:260-267 | the power-ups touched are marked; the last one taken, if any, is offered to the player, and only an accepted one adds 500; with none taken nothing else changes |
| `Games.TouchOutcomes` | js/game.js:270-304 | a skipped or non-touching enemy changes nothing; a falling top contact stomps (points, bounce vy −8, or a kick for 0 points with no bounce); otherwise, unless invulnerable, a kicked shell gives 200 and is removed, an idle shell does nothing, and a walking enemy damages the player and possibly kills it |
| `Games.TouchAdvances` | js/game.js:270-304 | one enemy contact never lowers the score, coins, level or best score, never raises the lives, and can only end the game |
| `Games.TouchesAdvance` | js/game.js:270-304 | the whole enemy loop has the same monotonicity |
| `Games.BurnRowExactly` | js/game.js:310-322 | after one fireball meets the enemies, exactly the live enemies it overlapped are stomped; it goes out iff it hit one, and it still hits every enemy it overlaps in the same tick; the score rises by exactly `HitPoints`, the sum of the `hitFromAbove` points (100, or 0 for kicking an idle shell) of the enemies hit |
| `Games.BurnsAdvance` | js/game.js:307-323 | the fireball–enemy loop never lowers the score |
| `Games.MovedAdvances` | js/game.js:240-267 | the player and level updates, the camera and the pickups never lower the score, coins, level or best score, and never raise the lives |
| `Games.FoughtAdvances` | js/game.js:270-350 | the enemy contacts and the fireball loops have the same monotonicity, except that the game may end |
| `Games.JudgedAdvances` | js/game.js:353-360 | the fall check and the end-of-level check have the same monotonicity |
| `Games.TickAdvances` | js/game.js:236-366 | a whole tick never lowers the score, coins, level or best score, never raises the lives, and either keeps the state or ends the game |
| `Games.TickStates` | js/game.js:236-366 | outside `playing` a tick changes nothing; from `playing` it ends in `playing` or `gameOver` |
| `Games.ShootBounded` | js/player.js:153-160 | a shot adds a fireball with bounceCount 0, keeping every bounce count in [0, 3] |
| `Games.SurvivorsBounded` | js/player.js:146-150 | the fireball filter keeps every bounce count in [0, 3] |
| `Games.PlayerTickBounded` | js/player.js:34-151 | a player update keeps every bounce count in [0, 3] |
| `Games.TouchesBounded` | js/game.js:270-304 | the enemy contacts keep every bounce count in [0, 3] |
| `Games.BurnsKeepBounces` | js/game.js:307-323 | the fireball–enemy loop keeps every fireball's bounce count |
| `Games.ScorchBounded` | js/game.js:326-350 | a bounce happens only below 3 bounces, so the count stays in [0, 3] |
| `Games.MovedBounded` | js/game.js:240-267 | the first half of a tick keeps every bounce count in [0, 3] |
| `Games.FoughtBounded` | js/game.js:270-350 | the fights keep every bounce count in [0, 3] |
| `Games.JudgedBounded` | js/game.js:353-360 | death and level change keep every bounce count in [0, 3] |
| `Games.TickBounded` | js/game.js:236-366 | a whole tick keeps every fireball's bounce count in [0, 3] |
| `Games.FrameDelta` | js/game.js:408 | the frame delta is at most 2, and non-negative when time does not run backwards |
| `Games.SixtyUpdatesPerFrame` | js/game.js:408-416 | a frame 16.67 ms after the last has delta exactly 1 and, from an empty accumulator, pays for exactly 60 updates; a frame at the cap of 2 pays for 120 |
| `Games.Drains` | js/game.js:413-416 | for a non-negative accumulator, the number of steps n satisfies n ≤ acc·60 < n+1; below one step it is 0 |
| `Games.PaidOut` | js/game.js:413-416 | when the loop stops, it has run exactly `Drains(a)` updates, and the remainder is a − n/60, in [0, 1/60) for a ≥ 0 |
| `Games.ChainFrom` | js/game.js:413-416 | from any world there is a run of k fixed-step ticks |
| `Games.ChainedAgree` | js/game.js:413-416 | two runs of ticks from the same world agree at every step, so a frame's outcome is determined |
| `Games.Game.constructor` | js/game.js:4-33 | the game starts in the menu with score 0, lives 3, coins 0, level 1, camera 0, the stored best score, clock 0, accumulator 0 and no keys held |
| `Games.Game.LoadLevel` | js/game.js:211-218 | a fresh level from the generator and a fresh player at its start, with the camera at 0 and the session otherwise kept |
| `Games.Game.StartGame` | js/game.js:186-199 | the new session of `StartTable`, with the objects it creates added to the game's footprint; the clock, the accumulator and the keys are unchanged |
| `Games.Game.NewSession` | js/game.js:193-197 | the session fields `startGame` sets: playing, score 0, lives 3, coins 0, level 1; camera and best score kept |
| `Games.Game.RestartGame` | js/game.js:201-209 | the same new session as `StartGame`, again with the clock, the accumulator and the keys unchanged |
| `Games.Game.NextLevel` | js/game.js:220-224 | the level number goes up by one and that level is loaded |
| `Games.Game.TogglePause` | js/game.js:226-234 | the toggle of `ToggleTable` is the only change: the player, the level, the footprint, the clock, the accumulator and the keys are kept, and the world is the old one with the toggled session |
| `Games.Game.GameOver` | js/game.js:382-391 | the game ends and the best score becomes max(best, score) |
| `Games.Game.PlayerDie` | js/game.js:368-380 | the death rule of `DeathTable` |
| `Games.Game.FollowPlayer` | js/game.js:245-247 | the camera of `CameraFor` |
| `Games.Game.CollectCoins` | js/game.js:249-257 | the coin rule of `CoinTable` |
| `Games.Game.CollectPowerUp` | js/game.js:259-267 | the power-up rule of `PowerUpTable` |
| `Games.Game.TouchEnemies` | js/game.js:270-304 | the loop applies the contact rule to each enemy in order |
| `Games.Game.TouchEnemy` | js/game.js:271-303 | one enemy contact, as tabulated by `TouchOutcomes` |
| `Games.Game.StompEnemy` | js/game.js:279-287 | the stomp branch: the enemy takes the stomp outcome, and a stomp that scores adds its points and bounces the player (`Stomped`, the branch `Touch` takes under this guard) |
| `Games.Game.Reward` | js/game.js:282-287 | a positive stomp score is added to the score and sets the player's vertical velocity to the bounce; zero points change nothing |
| `Games.Game.StrikeEnemy` | js/game.js:288-302 | the side branch: damage and maybe death on −1, points on a positive signal |
| `Games.Game.BurnEnemies` | js/game.js:307-323 | the loop runs each fireball that is active when its turn comes against all enemies |
| `Games.Game.BurnWith` | js/game.js:310-322 | one fireball against every enemy in order |
| `Games.Game.BurnEnemy` | js/game.js:311-321 | one fireball against one live enemy: a stomp's points, and the fireball goes out |
| `Games.Game.ScorchFireballs` | js/game.js:326-350 | the loop applies the tile rule to every fireball |
| `Games.Game.ScorchFireball` | js/game.js:326-350 | the tile rule for one fireball |
| `Games.ScorchAgainst` | js/game.js:327-349 | out on a solid in-bounds tile at its top-left cell; a falling fireball with fewer than 3 bounces bounces at vy −5 off a solid tile under its bottom edge |
| `Games.Game.Update` | js/game.js:236-366 | nothing unless playing; otherwise the new state is one `GameTick`; the keys and the clock are kept |
| `Games.Game.Play` | js/game.js:239-360 | the stages of a playing tick in the source's order |
| `Games.Game.Move` | js/game.js:239-267 | the player and level updates, the camera and the pickups |
| `Games.Game.Step` | js/game.js:239-243 | the player's update, then the level's |
| `Games.Game.Pick` | js/game.js:245-267 | the camera, then the coins, then the power-ups |
| `Games.Game.Fight` | js/game.js:269-350 | the enemy contacts, then the fireball–enemy loop, then the fireball–tile loop |
| `Games.Game.Judge` | js/game.js:352-360 | the fall check, then the end-of-level check |
| `Games.Game.GameLoop` | js/game.js:407-420 | the delta (capped at 2) is added; the loop runs exactly `Drains(a)` ticks, each one `GameTick` of the one before, and leaves the accumulator a − n/60 in [0, 1/60) for a ≥ 0; the clock becomes the current time |
| `Games.Game.CatchUp` | js/game.js:413-416 | the `while` loop: it drains the accumulator in whole steps, each step one tick further along the run |
| `Games.Game.Catch` | js/game.js:414 | the update of one iteration: one tick with step 1/60, taking the world one step further along the run and leaving the clock and the accumulator unchanged |

## Left out

- Audio (js/audio.js), the HUD (js/ui.js) and every `draw` and `render` method: they have no simulation state. The score, lives and level notifications are modelled as nothing.
- Canvas setup, the keyboard, resize and load listeners, `init`, `requestAnimationFrame` and the debug `console.log`/`fetch` telemetry: event wiring, not simulation. `GameLoop` is one frame with the current time as a parameter.
- localStorage: `highScore` is a constructor parameter and a plain field, and writing it back is left out.
- The key bindings (several keys per action) are abstracted into the four booleans of `Keys`.
- The animation counters (`animFrame` and `animTimer` of player, enemies and collectibles, the player's `isMoving`), the camera's `y`, `width` and `height`, and the canvas height: they never feed back into the simulation. The canvas width is the constant 800.
- `canShoot` is never cleared in the source, so it is always true and not a field.
- The empty jump-sound block at the end of `update` (js/game.js:362-365) does nothing and is not modelled.
- IEEE floating point: all arithmetic is exact `real`, so rounding of values such as 0.85ⁿ or 1/60 is not modelled.
- Enemy types other than `'goomba'` and `'koopa'` (the generator makes no others), and power-up types other than `'mushroom'` and `'fire'`.
- The level constructor's `||` fallbacks are modelled for a missing value and for 0; other falsy values such as `NaN` are not.
- Physics.ResolveCollision, Physics.ApplyGravity, Physics.ApplyFriction: modelled as functions on a `Body` value rather than as updates in place; the entity methods write the result back into their own fields. A `Body` velocity of `None` stands for an object without that field.
- Games.Game.CatchUp: counts the accumulator down in a local variable and stores it in the field once, after the loop, instead of in the field on every pass (js/game.js:415). `update` neither reads nor writes the accumulator (the contract of `Catch`), so the final state is the same.
- Games.Game.GameLoop: the run of worlds it proves the ticks against is a ghost result, not a value of the source.
- A mushroom that lands on a tile stays active (js/level.js:80-91). A kicked shell that hits a wall stops, because resolution zeroes the turned-around velocity (js/enemy.js:80-85).
- Within one `update`, the stages after a game over still run, as in the source: a player killed by an enemy is still checked against the later enemies, the fireballs, the fall and the level end.

# Quackra gameplay core in Dafny

Quackra is a side-scrolling browser platformer. A duck runs and double-jumps through five
tile-grid levels, eats toasts, cookies and chocolates (a chocolate doubles its speed for
seven seconds), throws eggs at bees that sting it, and wins by swimming into the water at
the end of a level. All of the game lives in one script, `script.js`, as global variables
updated by a fixed-rate game loop (`update`), a level loader (`initGame`), a key handler
(`handleKeyDown`) and a pause-menu action (`performMenuAction`).

This project models that logic and proves what it guarantees:

- `geometry.dfy` covers the rectangle overlap test and point test that every collision uses.
- `lists.dfy` models JavaScript's `splice(i, 1)`.
- `levels.dfy` holds the five level grids and bee-trigger tables, copied from the script.
- `tiles.dfy` turns grid symbols into rectangles:
  - the solid blocks derived on every tick of play, as a nested loop proved against a scan function;
  - the water and pickup rectangles parsed when a level starts.
- `kinematics.dfy` covers horizontal input, the double jump, the horizontal and vertical
  push-out passes over the blocks (loops proved against folds), and the camera clamp.
- `spawning.dfy` covers bee spawning from the trigger table, with the set of trigger positions already fired.
- `bees.dfy` is the bee pass: drift, sting, and removal off the left of the view. It is the
  reverse-index loop that splices in place, modelled as written, double splice included.
- `eggs.dfy` is the egg pass: flight, then a block hit, a bee hit or leaving the view.
- `pickups.dfy` covers pickup collection and the goal test on the last three water tiles.
- `simulation.dfy` defines the game's globals as one value (`State`). It states every entry
  point as a function of the state before: the tick of play, the win tick, `initGame`, the key
  handler and the menu action. It also holds the invariant `Valid` and the lemmas about all of these.
- `game.dfy` is the running program: the class `Engine.Game`, whose fields are the globals.
  - Related globals are grouped into small records: `Screen` (the mode and the three cursors), `Duck` and `Food`.
  - Each method mirrors a block of the script.
  - Each method is proved to leave `Snapshot()` equal to the matching `Simulation` function of the old snapshot.
  - `Update`, `HandleKeyDown` and `PerformMenuAction` (taken from the pause menu) are also proved to keep the invariant.

The clock (`Date.now()`, in milliseconds) is a parameter `now`. The held inputs (arrow keys
or on-screen buttons) are an `Input` value. Two sets of values are a `Config` parameter:
- the platform settings: base speed 6 and gravity 0.9 on desktop, 8 and 1.2 on touch devices;
- the image sizes of bees and pickups, together with the level table.

`Levels.Catalogue()` is the game's own table. `Levels.CatalogueWellFormed` proves that it meets the `Engine.Game` constructor's requirement, so the invariant holds for the game as shipped. Positions and speeds are `real`, since gravity is fractional.

Behaviour kept exactly as the script has it, and proved about:

- **Inert jump cooldown.** Every tick resets `lastJumpTime` to 0, so the 200 ms cooldown
  never blocks a jump at any real clock time. `Kinematics.JumpCooldownInert` proves this.
- **Double splice on bees.** A bee can sting the player and also be off the left of the view
  in the same tick. The script then splices index `i` twice, which also drops the next
  surviving bee.
  - `Bees.DoubleSpliceDropsASurvivor` exhibits a case.
  - `Bees.SweepIsExactWithoutDoubleSplice` shows that this is the only deviation.
  - `Bees.SweepKeepsOnlySurvivors` shows that the pass never invents or duplicates a bee.
- **Repeated trigger positions.** Level 5 lists position 500 four times, and 370 and 430
  twice each. The fired set is keyed by position, so each position spawns once.
  `Spawning.LevelFiveRepeatsPositions` and `Spawning.SpawnOncePerPosition` cover this.
- **The boost ends strictly after its end time.** The test is `now / 1000 > chocoBoostEnd`,
  so at exactly seven seconds the boost is still on.
- **The same tick can be lost and then won, and won and then lost again.** The fall test
  comes before the goal test, and the bee pass after both. `Simulation.FallingLoses` and
  `Simulation.GoalWins` state the precedence.

## Model

| member | source | states |
|---|---|---|
| `Geometry.CollidingSymmetric` | script.js:1217-1224 | the overlap test gives the same answer with its arguments swapped |
| `Geometry.TouchingEdgesDoNotCollide` | script.js:1217-1224 | rectangles that only share an edge (on either axis) do not collide, in either order |
| `Geometry.CollidingIffSharedInterior` | script.js:1217-1224 | for rectangles with area, colliding holds exactly when their open interiors share a point (both directions) |
| `Geometry.PointCollisionIsStrict` | script.js:893-900 | a point collides with a rectangle exactly when strictly inside it; the point test is closed, so a corner is in the rectangle but does not collide |
| `Lists.SpliceRemoves` | script.js:1177 | splicing at the index of an element removes exactly that element |
| `Lists.SpliceShifts` | script.js:1112-1114 | splicing again at an index whose element is gone removes the element that moved into that index |
| `Lists.SpliceMultiset` | script.js:1160 | a splice removes one occurrence of the element at the index, or nothing past the end |
| `Levels.CatalogueWellFormed` | script.js:223-284 | the game's table has five levels, each grid with at least one row |
| `Tiles.RowScanCount` | script.js:1008-1028 | a row yields exactly one rectangle per tile of the symbols the layer collects |
| `Tiles.ScanCount` | script.js:1701-1739 | the grid yields exactly one rectangle per tile of the collected symbols (one water per 'W', one toast per 'T', ...) |
| `Tiles.RowScanContains` | script.js:1008-1028 | every collected tile of a row contributes its rectangle |
| `Tiles.ScanContains` | script.js:1008-1028 | every collected tile of the grid contributes its rectangle to the scan |
| `Tiles.RowScanOrigin` | script.js:1008-1028 | every rectangle of a row's scan comes from one of that row's tiles |
| `Tiles.ScanOrigin` | script.js:1008-1028 | every rectangle of the scan comes from a tile of the grid, at that tile's place |
| `Tiles.GrassTileYieldsBlock` | script.js:1012-1018 | a '1' tile at (row, col) yields the block (col·60, row·60+15, 60, 45) |
| `Tiles.FullTileYieldsBlock` | script.js:1019-1025 | a '2' or '3' tile at (row, col) yields the block (col·60, row·60, 60, 60) |
| `Tiles.BlocksComeFromSolidTiles` | script.js:1008-1028 | every block is the collider of a '1', '2' or '3' tile; no other symbol yields geometry |
| `Tiles.DeriveBlocks` | script.js:1006-1028 | the per-tick nested loop builds exactly the scan of the solid tiles, in grid order |
| `Tiles.ParseTilemap` | script.js:1701-1739 | the level-start loop builds exactly the water, toast, cookie and chocolate scans, with pickups 10 below the cell top at their image size |
| `Kinematics.MoveX` | script.js:969-981 | right alone gives +speed, left alone −speed, both or neither give 0 |
| `Kinematics.Jump` | script.js:984-998 | a jump sets velocity to −20 boosted or −15, takes exactly one jump and releases the button; with the clock past 200 ms it happens exactly when up or the button is held, a jump is left and velocity ≥ 0; the budget stays in 0..2 |
| `Kinematics.JumpCooldownInert` | script.js:984-990 | past 200 ms of clock the cooldown test never blocks: the jump equals the one without a cooldown |
| `Kinematics.HorizontalPushOut` | script.js:1030-1040 | with no motion nothing moves; otherwise the player is only pushed back against its direction, exactly when the moved box overlaps a block, and ends where it moved or flush with a block's near edge |
| `Kinematics.ResolveHorizontal` | script.js:1031-1040 | the loop over the blocks computes the horizontal pass |
| `Kinematics.Landing` | script.js:1047-1053 | moving down, the player lands exactly when the moved box overlaps a block; a landing gives velocity 0, exactly 2 jumps and the bottom on a block's top; never moved further down |
| `Kinematics.Bump` | script.js:1054-1057 | moving up, jumps and ground flag are untouched; the player is pushed down exactly when overlapping a block, then has velocity 0 and its top at a block's underside |
| `Kinematics.FallRefillsBudget` | script.js:1047-1059 | the vertical pass either leaves the jump budget alone or sets it to exactly 2 |
| `Kinematics.ResolveVertical` | script.js:1043-1059 | the loop over the blocks computes the vertical pass |
| `Kinematics.CameraX` | script.js:1212-1213 | the camera lies in [0, max(0, cols·60 − 900)], is 0 or the maximum when clamped, and centres the player otherwise |
| `Kinematics.PlayerInView` | script.js:1212-1213 | a player inside the level is inside the 900-wide view |
| `Spawning.SpawnFiresReached` | script.js:1086-1096 | after the spawn pass the fired set is the old one plus every position the player has reached |
| `Spawning.SpawnAppendsOnePerPosition` | script.js:1086-1096 | the pass keeps the old bees in front and appends one new bee, at the spawn column and with the bee's size, per newly fired position |
| `Spawning.ReachedAreTriggers` | script.js:1087 | only positions of the table can fire |
| `Spawning.FiredTriggersAreInert` | script.js:1087-1095 | once every position has fired the pass changes nothing, wherever the player is |
| `Spawning.SpawnOncePerPosition` | script.js:1086-1096 | over any number of ticks the fired set only grows, within the table, and the bees spawned are one per fired position, never more than the table's distinct positions |
| `Spawning.PositionsAtMostEntries` | script.js:1510-1674 | a table has at most as many positions as entries |
| `Spawning.RepeatedPositionSpawnsOnce` | script.js:1087-1094 | two entries at one position make fewer positions than entries |
| `Spawning.LevelFiveRepeatsPositions` | script.js:1582-1585 | level 5 lists position 500 four times, so it has fewer positions than entries |
| `Spawning.SpawnFromTriggers` | script.js:1086-1096 | the loop over the trigger table computes the spawn pass |
| `Bees.BeeStepIsExact` | script.js:1099-1114 | unless a bee is hit while off the left of the view, visiting it removes only that bee, and only if hit or off the left |
| `Bees.BeeStepKeepsNoNewBee` | script.js:1103-1114 | visiting a bee never adds a bee |
| `Bees.SweepCountsHits` | script.js:1103-1104 | the pass costs exactly one life per bee touching the player after drifting |
| `Bees.SweepKeepsOnlySurvivors` | script.js:1099-1119 | every bee the pass keeps is a drifted survivor: none invented or duplicated |
| `Bees.SweepIsExactWithoutDoubleSplice` | script.js:1099-1119 | with no bee hit while off the left of the view, the pass keeps exactly the survivors, in order |
| `Bees.DoubleSpliceDropsASurvivor` | script.js:1106-1114 | a concrete case where one sting also drops a far, on-screen bee |
| `Bees.VisitIsBeeStep` | script.js:1100-1114 | the loop body's drift and two splices at index i do what one step of the pass does |
| `Bees.UpdateBees` | script.js:1099-1119 | the reverse loop computes the pass: the bees left, lives minus the hits, and the loss exactly when a hit leaves no life |
| `Eggs.LastHit` | script.js:1157-1165 | the index found is of a bee the egg touches, with no touched bee after it, or −1 when none is touched |
| `Eggs.HitsAnyBlock` | script.js:1147-1153 | the block loop reports exactly whether the egg touches some block |
| `Eggs.FindHitBee` | script.js:1157-1165 | the reverse bee loop finds the last bee the egg touches |
| `Eggs.EggStepFacts` | script.js:1140-1171 | visiting an egg removes at most one bee, and none when the egg is kept; the egg is kept exactly when it touches no block and no bee and is in view |
| `Eggs.EggSweepOnlyRemovesBees` | script.js:1139-1172 | the egg pass never adds or duplicates a bee |
| `Eggs.EggSweepKeepsFlyingEggs` | script.js:1139-1172 | each removed egg takes at most one bee, kept eggs take none; kept eggs are clear of blocks and in view |
| `Eggs.TwoEggsOneBee` | script.js:1155-1165 | two eggs into one bee: the bee goes once, the other egg flies on |
| `Eggs.UpdateEggs` | script.js:1139-1172 | the reverse loop, splicing eggs and bees in place, computes the egg pass |
| `Pickups.CollectedPlusLeft` | script.js:1175-1200 | pickups collected plus pickups left make up the list |
| `Pickups.LeftAreUntouched` | script.js:1175-1181 | a pickup is left exactly when it is in the list and the player does not touch it |
| `Pickups.UntouchedStay` | script.js:1175-1181 | a list the player does not touch is left as it is |
| `Pickups.CollectionIsIdempotent` | script.js:1175-1181 | standing still, a second pass collects nothing |
| `Pickups.CollectPickups` | script.js:1175-1189 | the reverse loop leaves the untouched pickups and counts the touched ones |
| `Pickups.CheckGoal` | script.js:1069-1083 | the win test holds exactly when the player's bottom is a third of a tile into one of the last three water tiles |
| `Pickups.EarlierPondIsNotGoal` | script.js:1071 | a player touching none of the last three water tiles does not win, whatever other water it is in |
| `Pickups.LastPondsAreGoal` | script.js:1071-1081 | being in any of the last three water tiles wins |
| `Simulation.ExpireBoost` | script.js:962-966 | boost expiry changes only the speed and the boost flag |
| `Simulation.Steer` | script.js:983-1001 | the jump, facing and gravity step changes only velocity, jumps, the button latch and the facing |
| `Simulation.MovePlayer` | script.js:968-1067 | movement changes only the player's position, velocity, jumps, button latch, facing and the screen |
| `Simulation.EnterWater` | script.js:1069-1083 | the goal test changes only the screen and the swim timer |
| `Simulation.Sting` | script.js:1085-1119 | the bee part changes only the bees, the fired set, lives and the screen |
| `Simulation.FlyEggs` | script.js:1139-1172 | the egg pass changes only the eggs and the bees |
| `Simulation.Collect` | script.js:1175-1200 | collection changes only the pickup lists, their counters and the boost |
| `Simulation.JsRem` | script.js:473-490 | JavaScript's `%`: the dividend less n times the quotient truncated toward zero, so it is in [0, n) for a non-negative dividend and in (−n, 0] for a negative one |
| `Simulation.StartIsValid` | script.js:31-87 | the globals as the page loads them (home screen, level 1) satisfy the invariant |
| `Simulation.InitResets` | script.js:1676-1739 | after `initGame(n)`: 3 lives, counters 0, camera 0, player at (200, 365) with 2 jumps, base speed and no boost, no bees, eggs or fired positions, level n's grid and table, and one water/toast/cookie/chocolate per 'W'/'T'/'C'/'H' tile |
| `Simulation.InitKeepsValid` | script.js:1509-1740 | a level start keeps the invariant |
| `Simulation.MovePlayerFacts` | script.js:1061-1062 | after movement the player is at x ≥ 0 (the clamp of the pushed box), at the box's y, with 0..2 jumps |
| `Simulation.StingFacts` | script.js:1086-1110 | the fired set grows by exactly the reached positions; lives drop by exactly the bees touching the player |
| `Simulation.CollectConserves` | script.js:1175-1200 | collecting moves pickups from each list to its counter, one for one |
| `Simulation.PlayTickCamera` | script.js:1212-1213 | after a tick of play the camera is the clamped follow of the player, within the level; level and cursors unchanged |
| `Simulation.PlayTickKeepsJumpBudget` | script.js:984-1062 | after a tick of play x ≥ 0 and the jumps stay in 0..2 |
| `Simulation.PlayTickSpawnsAndStings` | script.js:1086-1110 | in a tick of play the fired set grows by exactly the reached positions and lives drop by the stings |
| `Simulation.PlayTickConservesPickups` | script.js:1175-1200 | across a tick of play each pickup is still listed or counted |
| `Simulation.ChocolateBoosts` | script.js:1191-1199 | eating a chocolate gives double base speed until now + 7 s |
| `Simulation.BoostExpires` | script.js:963-966 | a boost strictly past its end, with no chocolate eaten, is over |
| `Simulation.FallingLoses` | script.js:1064-1067 | falling below the screen loses, unless the goal is reached in the same tick |
| `Simulation.GoalWins` | script.js:1069-1083 | reaching the goal wins with the swim timer at 0, unless a sting takes the last life |
| `Simulation.IdleTickChangesNothing` | script.js:956-960 | outside play and the win sequence a tick changes nothing of the game's logic |
| `Simulation.PlayTickKeepsValid` | script.js:962-1213 | a tick of play keeps the invariant |
| `Simulation.TickKeepsValid` | script.js:927-1214 | every tick keeps the invariant |
| `Simulation.WinTickIsTick` | script.js:928-954 | on the win screen the tick is the win tick |
| `Simulation.WinSequence` | script.js:928-954 | for 120 ticks the game stays on the win screen; the duck swims in place for 59 ticks, then 4 units right per tick, with the camera following |
| `Simulation.WinReturnsToLevelSelect` | script.js:949-952 | the 121st tick of the win sequence returns to level select |
| `Simulation.LevelSelectKeyKeepsValid` | script.js:455-467 | level-select keys keep the invariant |
| `Simulation.LoseKeyKeepsValid` | script.js:471-485 | lose-screen keys keep the invariant |
| `Simulation.MenuKeyKeepsValid` | script.js:486-504 | pause-menu keys keep the invariant |
| `Simulation.CatalogueKeepsValid` | script.js:223-284 | with the game's own level table, every tick and every key press keeps the invariant |
| `Simulation.MenuActionKeepsValid` | script.js:811-827 | every menu action taken from the pause menu keeps the invariant |
| `Simulation.KeyDownKeepsValid` | script.js:452-517 | every key press keeps the invariant |
| `Simulation.LevelCursorClamps` | script.js:456-459 | the level cursor moves by one and stops at 1 and 5 (both directions of each step) |
| `Simulation.MenuCursorWraps` | script.js:487-490 | the menu cursor wraps 0 → 3 upward and 3 → 0 downward; up then down is the identity |
| `Simulation.LoseCursorWraps` | script.js:472-475 | the lose cursor wraps 0 → 2 and 2 → 0; up then down is the identity |
| `Simulation.EscapePausesAndResumes` | script.js:502-507 | Escape pauses play, and a second Escape resumes exactly the same state |
| `Simulation.MenuEnterIsMenuAction` | script.js:491-501 | Enter on the pause menu does what the menu action for the highlighted option does |
| `Simulation.SpaceThrowsEgg` | script.js:508-515 | space adds one egg beside the duck flying the way it faces, and nothing else changes |
| `Simulation.LevelOneHasTutorial` | script.js:460-466 | Enter on level 1 shows the tutorial; on any other level it starts play with 3 lives on that level's grid |
| `Engine.Game.constructor` | script.js:31-87 | the globals as the page loads them, satisfying the invariant |
| `Engine.Game.InitGame` | script.js:1509-1740 | `initGame(n)` leaves the globals as the level-start function says |
| `Engine.Game.LoadLevel` | script.js:1510-1677 | level n's trigger table and grid, nothing fired; nothing else changes |
| `Engine.Game.ResetDuck` | script.js:1679-1685 | the duck back at the start at base speed, at rest, 2 jumps, no boost; nothing else changes |
| `Engine.Game.ResetRun` | script.js:1687-1691 | no bees or eggs, camera 0, 3 lives, the run's start time; nothing else changes |
| `Engine.Game.ParseLevel` | script.js:1692-1739 | the grid's water and pickup scans, counters 0; nothing else changes |
| `Engine.Game.Update` | script.js:927-1214 | one tick leaves the globals as the tick function says, and keeps the invariant |
| `Engine.Game.Swim` | script.js:928-954 | one tick of the win sequence |
| `Engine.Game.Play` | script.js:962-1213 | one tick of play, the passes in the script's order |
| `Engine.Game.ExpireBoostStep` | script.js:963-966 | boost expiry |
| `Engine.Game.Move` | script.js:968-1067 | the movement part, returning the player's box and this tick's blocks |
| `Engine.Game.Steer` | script.js:983-1001 | jump, facing and gravity |
| `Engine.Game.TryJump` | script.js:984-998 | the jump step on the duck's velocity, jumps and button latch; nothing else changes |
| `Engine.Game.Turn` | script.js:1000-1001 | facing follows the displacement (kept when still); gravity added; nothing else changes |
| `Engine.Game.Settle` | script.js:1061-1067 | the vertical pass's outcome, the clamp at x = 0 and the loss below the screen; nothing else changes |
| `Engine.Game.EnterWaterStep` | script.js:1069-1083 | the goal test |
| `Engine.Game.StingStep` | script.js:1085-1119 | the spawn and the bee pass |
| `Engine.Game.SpawnStep` | script.js:1086-1096 | the spawn pass on the bees and the fired set; nothing else changes |
| `Engine.Game.BeePass` | script.js:1099-1119 | the bee pass on the bees, lives and screen; nothing else changes |
| `Engine.Game.FlyEggsStep` | script.js:1139-1172 | the egg pass |
| `Engine.Game.CollectStep` | script.js:1175-1200 | the three collection passes and the boost |
| `Engine.Game.EatToasts` | script.js:1175-1181 | touched toasts removed and counted; nothing else changes |
| `Engine.Game.EatCookies` | script.js:1183-1189 | touched cookies removed and counted; nothing else changes |
| `Engine.Game.EatChocolates` | script.js:1191-1200 | touched chocolates removed and counted; any eaten starts the 7 s double-speed boost |
| `Engine.Game.FollowCameraStep` | script.js:1211-1213 | the camera follows the duck |
| `Engine.Game.PerformMenuAction` | script.js:811-827 | continue, replay, change level or home, as the menu-action function says; taken from the pause menu, it keeps the invariant |
| `Engine.Game.ApplyMenuAction` | script.js:811-827 | the state change of the menu action, as the menu-action function says |
| `Engine.Game.HandleKeyDown` | script.js:452-517 | a key press leaves the globals as the key function says, and keeps the invariant |
| `Engine.Game.DispatchKey` | script.js:452-517 | the key goes to the handler of the screen that shows |
| `Engine.Game.LevelSelectKeyDown` | script.js:455-467 | the level-select keys |
| `Engine.Game.LoseKeyDown` | script.js:471-485 | the lose-screen keys |
| `Engine.Game.MenuKeyDown` | script.js:486-504 | the pause-menu keys |
| `Engine.Game.PlayingKeyDown` | script.js:505-516 | Escape pauses, space throws an egg |

## Left out

- Rendering and the HUD, asset loading and frame slicing, resize and orientation handling: drawing and DOM plumbing with no game logic.
- Sound: the sound prompt, `playSound`, the looping bee sound and the `beeOnScreen` flag that drives it, and `winSoundPlayed`. They are calls into the browser's audio.
- Touch and pointer routing, including double-tap detection and menu touch timing. They depend on screen-space hit boxes and wall-clock taps.
  - The buttons' effect is still modelled: `Input` carries the held state.
  - The jump button's latch is a field.
  - `performMenuAction` is modelled.
  - The invariant's cursor ranges rely on leaving this routing out. The touch listeners (script.js:539-549) call `handleMenuTouch` on every screen. A touch start that hits no option sets `menuSelectedOption` to -1 (script.js:778-797), outside 0..3. A touch end on the home screen can call `performMenuAction`, and option 0 then enters play with no grid loaded.
- The `gameLoop` frame throttle: scheduling by the browser. `Update` is one call of `update`.
- Cosmetic state: the animation `frameIndex`/`frameTimer` and the `moving` flag; the home and lose screens' `duckBobAngle` and `loseDuckAngle`.
- The `keydown`/`keyup` bookkeeping of the `keys` map is not modelled. The held keys reach a tick as `Input`.
- The platform detection: it chooses base speed and gravity, and these arrive as `Config`. The image sizes of bees and pickups also arrive as `Config`.
- `Date.now()`: the clock is the parameter `now`.
- Floating point: positions, velocities and the boost end time are exact `real`s. The script computes them in IEEE doubles: the fall and push-out arithmetic (script.js:1001-1006) and `Date.now() / 1000 + 7` (script.js:1197), compared at script.js:963. Double rounding is not modelled, and every property is stated over exact reals.
- An empty grid reads as 0 columns (`Simulation.Cols`). The script would fail reading the first row, but no screen that ticks ever has an empty grid (`Simulation.Loaded`).
- Engine.Game.InitGame: requires a level number 1..5. The script's only callers pass the level cursor, which is always 1..5; any other number would leave the grid undefined.
- The class groups the globals into three records: `Screen`, `Duck` and `Food`. This makes no difference to what is stated: `Snapshot` flattens them to the script's globals.

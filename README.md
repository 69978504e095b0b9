# Shadow of the Shinobi: a verified model of the game kernel

Shadow of the Shinobi is a top-down browser action game. A ninja fights
waves of samurai guards and vampires on an 800 × 600 board. The board is
either the village of Kyoto, with houses, lanterns and trees, or the
wilderness, with rocks and trees. This project models, in Dafny, the part
of the game that decides what happens, and proves properties of that model.

- **Collision primitives.** The strict axis-aligned box tests and the
  line-of-sight probe.
- **Grid and route finding.** The 40-pixel walkability grid and the A*
  route search that guards and vampires use to reach the player; with unit
  steps and the Manhattan heuristic it returns a shortest route.
- **The frame.** `update` of the game canvas, phase by phase in the
  component's order:
  - chakra regeneration and the wave-clear latch;
  - the cooldown and timer refs;
  - the Lightning Blade cast and rush;
  - walking, and the dash;
  - movement resolution against the board and the obstacles;
  - the sword swing, the fireball and the shuriken;
  - projectiles and explosions (`triggerExplosion`), and the fire zones;
  - the enemies: death countdown and reward, swing, lunge and bolt,
    re-routing and walking;
  - experience orbs and level-ups;
  - particles.
- **Level setup.** `setupLevel` and `spawnWave`: the bounded-retry
  placement of houses, rocks, lanterns and trees, the grid build, and the
  spawning of guards and vampires.
- **Progression.** The upgrade chosen on the level-up screen, the restart
  state, the application's handlers, and the merchant's five items,
  with their prices, disabled conditions and effects.

The modules follow the source files:

| module | models |
|---|---|
| `Constants`, `Types` | the tuning table and the record shapes |
| `Collision` | the box tests and the line-of-sight probe |
| `Grid`, `Pathfinding` | the walkability grid and `findPath` |
| `Rules` | the small per-frame rules |
| `CanvasState`, `PlayerPhases`, `ProjectilePhase`, `EnemyPhase`, `PickupPhase`, `FrameStep` | each phase of `update` as a function of the canvas state |
| `Level` | level setup |
| `Simulation` | the component as a class |
| `Shop` | the merchant |
| `App` | the application shell |

The pure functions are the specification. Each source loop, and each
in-place update of `stateRef` and the refs, is a method of the class
`Simulation.GameCanvas`. Each such method is proved to leave exactly the
state its phase function describes. Properties of the phases are proved
as lemmas about those functions.

- **`Math.random()`** is an injected stream of draws in [0, 1): the value
  `Rng`.
- **`Math.sqrt`** is an injected function `root`, and no property of it is
  assumed.
  - Wherever the source only compares a distance with a threshold, the
    model compares squared distances. `WithinMatchesDistance`,
    `BeyondMatchesDistance` and `ConeMatchesDot` prove that this is the
    same test.
  - The root is used only where the source divides by a distance.
- **The time step `dt`** and the sampled input state are parameters of the
  frame.

## Model

| member | source | states |
|---|---|---|
| Collision.CheckCollision | components/GameCanvas.tsx:146-153 | the entity test is the rectangle test on the two bounding boxes |
| Collision.CollisionIsSharedInterior | components/GameCanvas.tsx:155-157 | for positive extents, the strict test holds iff the rectangles share an interior point; the test is symmetric |
| Collision.TouchingEdgesDoNotCollide | components/GameCanvas.tsx:146-157 | rectangles whose edges only touch do not collide, in either order |
| Collision.CollidesWithAny | components/GameCanvas.tsx:448 | the obstacle scan with `break` reports a hit iff some obstacle's box overlaps the rectangle |
| Collision.HasLineOfSight | components/GameCanvas.tsx:159-173 | clear iff no probe square at sample points 1 .. steps-1 overlaps an obstacle |
| Grid.WaypointCell | components/GameCanvas.tsx:112-115 | getGridPos of a cell's waypoint is that cell again |
| Grid.BuildGrid | components/GameCanvas.tsx:321-331 | the grid is 15 rows of 20, and grid[y][x] is true iff no obstacle strictly overlaps the cell rectangle (40x, 40y, 40, 40) |
| Pathfinding.InsertSorted | components/GameCanvas.tsx:105 | inserting into an open list sorted by f keeps it sorted |
| Pathfinding.SortByF | components/GameCanvas.tsx:105 | the sort is a permutation of the open list (same multiset of nodes) |
| Pathfinding.ConsSorted | components/GameCanvas.tsx:105 | a sorted open list stays sorted behind a head whose f bounds every entry from below |
| Pathfinding.SortSorted | components/GameCanvas.tsx:105 | the sorted open list is ordered by f, so its head has the least f |
| Pathfinding.FindOpen | components/GameCanvas.tsx:131 | -1 iff no open node lies on the cell; otherwise an open node on that cell |
| Pathfinding.PopPreserves | components/GameCanvas.tsx:105-120 | shifting the head of the sorted list and closing its cell keeps the search invariant |
| Pathfinding.UpdatePreserves | components/GameCanvas.tsx:132-137 | an in-place update of an open node with a better g and the current parent keeps the invariant |
| Pathfinding.PushPreserves | components/GameCanvas.tsx:138-140 | pushing a newly seen neighbour keeps the invariant |
| Pathfinding.ExpandDone | components/GameCanvas.tsx:121-141 | once all four neighbours are handled, the main loop invariant holds again |
| Pathfinding.ExhaustedMeansUnreachable | components/GameCanvas.tsx:104-143 | when the open list is empty, no route of walkable orthogonal steps leads from the start cell to the goal cell |
| Pathfinding.Reversed | components/GameCanvas.tsx:118 | element k of the result is element size-1-k of the input |
| Pathfinding.ReversedChainIsRoute | components/GameCanvas.tsx:109-118 | the reversed waypoints of a parent chain form a route from start to goal |
| Pathfinding.Reconstruct | components/GameCanvas.tsx:108-119 | the rebuilt path is non-empty, starts at the start cell, ends at the goal node's cell, is a route, and has one waypoint more than the goal node's g (one waypoint when the goal is the start node) |
| Pathfinding.HeuristicSlack | components/GameCanvas.tsx:129 | along a route of orthogonal steps the Manhattan distance to the goal falls by at most one per step, so it never overestimates the steps left |
| Pathfinding.ExpandFacts | components/GameCanvas.tsx:121-141 | during the neighbour loop the nodes lie on distinct cells, open nodes lie on walkable cells that are not closed, every node but the start has a closed parent, the start node is off the open list and the current cell is closed |
| Pathfinding.PushFacts | components/GameCanvas.tsx:126-139 | a walkable cell that is neither closed nor on the open list has no closed neighbour but the current cell, and is none of the current cell's earlier neighbours |
| Pathfinding.ExitPoint | components/GameCanvas.tsx:104-141 | a route from a closed cell to a cell that is not closed steps, somewhere, from a closed cell onto the cell of an open node |
| Pathfinding.PrefixIsRoute | components/GameCanvas.tsx:121-127 | the first steps of a route form a route with the same first cell |
| Pathfinding.ExitBound | components/GameCanvas.tsx:128-137 | the open node where a route first leaves the closed set has a g no larger than the number of steps the route took to get there |
| Pathfinding.PopOptimal | components/GameCanvas.tsx:105-106 | the head of the open list sorted by f has a g no larger than the number of steps of any route from the start cell to its cell |
| Pathfinding.PopNoShorter | components/GameCanvas.tsx:105-106 | the g of the node shifted off the sorted open list is the length of a shortest route to its cell |
| Pathfinding.OptPop | components/GameCanvas.tsx:106-120 | closing the shifted node keeps f = g + h, g one more than the parent's, a node on every closed cell and an optimal g on every closed node |
| Pathfinding.SkipPreserves | components/GameCanvas.tsx:125-133 | a neighbour off the grid, blocked, closed, or already open without a better g leaves the neighbour-loop invariant in place for one more neighbour |
| Pathfinding.OptSkip | components/GameCanvas.tsx:125-133 | such a neighbour keeps every open node on it within one step of the current node |
| Pathfinding.UpdateCosts | components/GameCanvas.tsx:128-137 | updating an open node's g, f and parent from the current node keeps the cost invariant |
| Pathfinding.UpdateRelaxed | components/GameCanvas.tsx:132-137 | after the update every open node stays within one step of each closed neighbour, the updated one of the current node too |
| Pathfinding.PushCosts | components/GameCanvas.tsx:138-140 | pushing a new node with g one more than the current node's and f = g + h keeps the cost invariant |
| Pathfinding.PushRelaxed | components/GameCanvas.tsx:138-140 | the pushed node is within one step of its only closed neighbour, the current node |
| Pathfinding.OptDone | components/GameCanvas.tsx:121-141 | once all four neighbours are done, every open node is within one step of every closed neighbour |
| Pathfinding.Improve | components/GameCanvas.tsx:132-137 | the open node's g, f and parent change in place and nothing else; both invariants hold for one more neighbour |
| Pathfinding.Discover | components/GameCanvas.tsx:138-140 | the new node is appended to the nodes and its index to the open list; both invariants hold for one more neighbour |
| Pathfinding.ExpandOne | components/GameCanvas.tsx:122-140 | one neighbour is handled and both invariants hold for one more neighbour; the current node's cell stays put |
| Pathfinding.ExpandNeighbors | components/GameCanvas.tsx:121-141 | the neighbour loop leaves all four neighbours handled (off-grid, blocked, closed or open), keeps the arena sound and keeps the costs and their relaxation |
| Pathfinding.CloseAndExpand | components/GameCanvas.tsx:106-141 | a turn that does not reach the goal adds the head's cell, not closed before, to the closed set, and keeps both invariants |
| Pathfinding.Shortest | components/GameCanvas.tsx:108-119 | a path one waypoint longer than an optimal g is no longer than any route from the start cell to the goal cell |
| Pathfinding.Found | components/GameCanvas.tsx:108-119 | the path rebuilt from the goal node is a route from the start cell to the goal cell, one waypoint when they are the same, and no route between them is shorter |
| Pathfinding.Exhausted | components/GameCanvas.tsx:104-143 | when the open list is empty no route leads from the start cell to the goal cell |
| Pathfinding.Search | components/GameCanvas.tsx:101-143 | from a start cell on the grid to a walkable goal cell: a shortest route, or [] exactly when no route exists |
| Pathfinding.FindPath | components/GameCanvas.tsx:95-144 | [] iff an endpoint is off the grid, the goal cell is blocked, or no route exists; otherwise the path maps to the start cell first and the goal cell last, takes single orthogonal steps over walkable cells, uses (40cx+4, 40cy+4) waypoints, has one waypoint when start equals goal, and no route from the start cell to the goal cell has fewer cells |
| Rules.WithinMatchesDistance | components/GameCanvas.tsx:455 | the squared test decides `d < r` for the Euclidean length d |
| Rules.BeyondMatchesDistance | components/GameCanvas.tsx:490 | the squared test decides `d > r` for the Euclidean length d |
| Rules.Regen | components/GameCanvas.tsx:376 | with both chakra values defined, chakra becomes min(max, chakra + 5·dt); otherwise nothing changes |
| Rules.RegenStaysBetween | components/GameCanvas.tsx:376 | regeneration never lowers chakra within its maximum and never passes the maximum |
| Rules.StepTransition | components/GameCanvas.tsx:377-387 | the latch arms on a clear room with the game live, counts down while pending, and fires (disarming) when the timer reaches 0 |
| Rules.PendingIsNotRearmed | components/GameCanvas.tsx:377-387 | while pending, the timer keeps falling and is never reset |
| Rules.ClearRoomFiresAfterDelay | components/GameCanvas.tsx:377-387 | a frame of at least 0.1 s on a clear room fires at once |
| Rules.NoDoubleFire | components/GameCanvas.tsx:377-387 | two firings in consecutive frames need the room clear and the game live again in the second |
| Rules.CastBlade | components/GameCanvas.tsx:404-406 | fires iff key, cooldown ≤ 0 and chakra ≥ 40; then chakra drops by exactly 40 and the cooldown is 6; otherwise unchanged |
| Rules.CastFireball | components/GameCanvas.tsx:457-458 | fires iff key, cooldown ≤ 0 and defined chakra ≥ 50; then chakra drops by exactly 50 and the cooldown is 4 + modifier; otherwise unchanged |
| Rules.FireballAtExactCost | components/GameCanvas.tsx:457-458 | chakra 50 fires and leaves 0 |
| Rules.FireballBelowCost | components/GameCanvas.tsx:457 | chakra 49 does not fire and is unchanged |
| Rules.BladeAtExactCost | components/GameCanvas.tsx:404-406 | chakra 40 fires the blade and leaves 0 |
| Rules.ThrowShuriken | components/GameCanvas.tsx:465-466 | throws iff button, cooldown ≤ 0 and ammo > 0; then ammo drops by exactly 1 and the cooldown is 0.3 |
| Rules.NoAmmoNoThrow | components/GameCanvas.tsx:465 | with 0 ammo nothing is thrown and the ammo stays 0 |
| Rules.KeyDirection | components/GameCanvas.tsx:434 | each axis is negative or positive exactly when one of its two keys alone is held |
| Rules.FacingVector | components/GameCanvas.tsx:454 | the facing vector has unit length |
| Rules.NextFacing | components/GameCanvas.tsx:435 | vertical movement wins over horizontal; no movement keeps the facing |
| Rules.Heading | components/GameCanvas.tsx:441-442 | the key direction, or the facing when no key is held; never the zero vector |
| Rules.Clamp | components/GameCanvas.tsx:447 | the clamped box lies on the board; a box already on the board is not moved |
| Rules.Resolve | components/GameCanvas.tsx:447-449 | the clamped target when its box is clear of every obstacle, otherwise exactly the old position (no partial-axis move) |
| Rules.ResolveKeepsInvariant | components/GameCanvas.tsx:447-449 | a player on the board and clear of obstacles stays so |
| Rules.AxisStep | components/GameCanvas.tsx:494-495 | each axis either moves by its step or reverts; an enemy clear of obstacles stays clear |
| Rules.ConeMatchesDot | components/GameCanvas.tsx:455 | the root-free cone test decides `dot > 0.3` |
| Rules.DeathCountdown | components/GameCanvas.tsx:487 | an unset (or 0) death timer starts from 0.8; otherwise the timer runs down by dt |
| Rules.Drop | components/GameCanvas.tsx:487 | the orb is worth 30 for a vampire and 10 otherwise, placed at pos + 11 with the orb size |
| Rules.FreshDeathWaits | components/GameCanvas.tsx:487 | a newly killed enemy is not removed in a frame shorter than 0.8 s |
| Rules.GainXp | components/GameCanvas.tsx:501 | xp grows by the orb's value (default 10); at the threshold, the threshold is subtracted, the level rises by one and the threshold becomes floor(1.5·threshold) |
| Rules.OneLevelPerOrb | components/GameCanvas.tsx:501 | one orb raises the level at most once, whatever its value |
| Rules.XpStaysBelowThreshold | components/GameCanvas.tsx:501 | with 0 ≤ xp < threshold and an orb worth at most the threshold, 0 ≤ xp < threshold again |
| Rules.LargeOrbLeavesExcess | components/GameCanvas.tsx:501 | xp 0, threshold 50 and an orb of 200 leave xp 150 over the new threshold 75 |
| Rules.Ceil | components/GameCanvas.tsx:161 | the integer ceiling: n ≥ x > n - 1 |
| Rules.Filter | components/GameCanvas.tsx:483 | the kept elements are exactly those of the input satisfying the predicate |
| CanvasState.FreshId | components/GameCanvas.tsx:175 | an identifier spends one draw and changes nothing else |
| CanvasState.Sparks | components/GameCanvas.tsx:509 | count particles at pos + 16, each from its own three draws |
| CanvasState.Spawn | components/GameCanvas.tsx:509 | the sparks are appended, 3·count draws are spent, nothing else changes |
| CanvasState.HitPlayer | components/GameCanvas.tsx:481 | unless invulnerable: one health point lost, 2 s invulnerability, game over iff health reaches 0; nothing else changes |
| CanvasState.InvulnerabilityAbsorbsSecondHit | components/GameCanvas.tsx:490 | two hits in a row cost one health point |
| PlayerPhases.Prelude | components/GameCanvas.tsx:376-387 | regeneration, then the latch; a firing reports the world with the wave one higher, and only on a clear room or a pending latch |
| PlayerPhases.Cooldowns | components/GameCanvas.tsx:390-398 | the timers tick while positive; the fireball cooldown stops at 0; the HUD cooldowns mirror the refs |
| PlayerPhases.BladeCast | components/GameCanvas.tsx:404-416 | a failed cast changes nothing; a cast pays 40, restarts the cooldown, starts a 0.15 s rush along the heading and 0.25 s of invulnerability |
| PlayerPhases.BladeStrike | components/GameCanvas.tsx:425-430 | one step of the rush's sweep changes only enemy j, by the blade's strike |
| PlayerPhases.BladeSweep | components/GameCanvas.tsx:425-430 | the sweep changes only the enemies, the particles and the draws |
| PlayerPhases.BladeSweepEffect | components/GameCanvas.tsx:425-430 | exactly the touched enemies lose 5 health; 8 sparks per enemy touched |
| PlayerPhases.Move | components/GameCanvas.tsx:418-438 | the target is the rush step during a rush, the dash glide during a dash, otherwise the walk, which turns the player |
| PlayerPhases.Dash | components/GameCanvas.tsx:440-445 | no dash unless ready; a dash sets the heading at 600 for 0.2 s, a cooldown of 3 + modifier, and ten sparks |
| PlayerPhases.NoDashDuringRush | components/GameCanvas.tsx:440 | no dash starts during a rush or another dash |
| PlayerPhases.Settle | components/GameCanvas.tsx:447-449 | only the player's position changes, to the resolved target |
| PlayerPhases.MeleeStruck | components/GameCanvas.tsx:455 | a reached enemy loses exactly one point; others are unchanged |
| PlayerPhases.MeleeStrike | components/GameCanvas.tsx:455 | one step of the swing changes only enemy j, by the strike |
| PlayerPhases.MeleeSweep | components/GameCanvas.tsx:455 | the swing changes only the enemies, the particles and the draws |
| PlayerPhases.MeleeSweepEffect | components/GameCanvas.tsx:455 | exactly the reached enemies are struck; 5 sparks per enemy reached |
| PlayerPhases.Melee | components/GameCanvas.tsx:452-456 | the cooldown ticks; a ready attack restarts it at 0.5 and swings; otherwise only the tick |
| PlayerPhases.Aim | components/GameCanvas.tsx:459-460 | aiming at the player's own centre gives (1, 0) |
| PlayerPhases.FireballCast | components/GameCanvas.tsx:457-463 | a cast pays 50, restarts the cooldown, adds one fireball remembering its start, ten sparks; otherwise nothing |
| PlayerPhases.ShurikenThrow | components/GameCanvas.tsx:464-469 | a throw uses exactly one shuriken and adds one projectile; otherwise only the cooldown ticks |
| PlayerPhases.EmptyPouchThrowsNothing | components/GameCanvas.tsx:465-468 | with 0 ammo no projectile is added and ammo stays 0 |
| ProjectilePhase.Fly | components/GameCanvas.tsx:473-474 | moved by velocity·dt; dead iff it left the board or was dead |
| ProjectilePhase.Blast | components/GameCanvas.tsx:508 | a living enemy in the blast loses 2 health; others are unchanged |
| ProjectilePhase.Blasted | components/GameCanvas.tsx:508 | the blast is applied to every enemy |
| ProjectilePhase.Explosion | components/GameCanvas.tsx:508 | twenty sparks, the blast around pos + 10, one new fire zone; nothing else changes |
| ProjectilePhase.StarStrike | components/GameCanvas.tsx:480 | one try changes only the enemies, projectiles, particles and draws, keeping their counts |
| ProjectilePhase.StarFold | components/GameCanvas.tsx:480 | the shuriken's sweep keeps the counts and touches nothing else |
| ProjectilePhase.FirstHit | components/GameCanvas.tsx:480 | the least index of an enemy the shuriken strikes, or -1 when none |
| ProjectilePhase.StarOutcome | components/GameCanvas.tsx:480 | the enemy struck loses one point, the shuriken is spent and three sparks are spawned; with no enemy struck, nothing changes |
| ProjectilePhase.StarFoldOutcome | components/GameCanvas.tsx:480 | the forEach over the first j enemies has the outcome of its first living overlapped enemy among them |
| ProjectilePhase.StarStrikesFirstOnly | components/GameCanvas.tsx:480 | a shuriken strikes only the first living enemy it overlaps: one point, the shuriken spent, three sparks; no such enemy, no change |
| ProjectilePhase.BoltStep | components/GameCanvas.tsx:481 | a flying bolt on the player strikes the player and is spent; a dead bolt changes nothing |
| ProjectilePhase.FireballStep | components/GameCanvas.tsx:475-479 | a live fireball that explodes is spent and triggers the explosion at its position; otherwise nothing changes; the number of projectiles is kept, and the grid and the player are untouched |
| ProjectilePhase.ProjectileStep | components/GameCanvas.tsx:472-482 | one projectile's step keeps the counts and the kept fields |
| ProjectilePhase.ProjectileFold | components/GameCanvas.tsx:472-482 | the forEach keeps the counts and the kept fields |
| ProjectilePhase.Projectiles | components/GameCanvas.tsx:472-483 | afterwards every projectile is live, none is added, the enemy count is kept |
| ProjectilePhase.Scorch | components/GameCanvas.tsx:484 | a living enemy near the zone's centre loses exactly one point |
| ProjectilePhase.Scorched | components/GameCanvas.tsx:484 | the scorch is applied to every enemy |
| ProjectilePhase.ZoneStep | components/GameCanvas.tsx:484 | the zone ages by dt; an expired tick timer restarts at 0.5 and scorches |
| ProjectilePhase.ZoneFold | components/GameCanvas.tsx:484 | the forEach keeps the zone and enemy counts |
| ProjectilePhase.Zones | components/GameCanvas.tsx:484-485 | afterwards every zone is burning, none is added, the other collections are kept |
| ProjectilePhase.ZoneFoldEffect | components/GameCanvas.tsx:484 | only the enemies' health and the zones' timers change; each zone ages by exactly dt |
| ProjectilePhase.ZonesSpareTheDying | components/GameCanvas.tsx:484 | fire never touches an enemy at 0 health or below |
| EnemyPhase.Expire | components/GameCanvas.tsx:487 | the countdown advances; when it runs out, the enemy is marked, the score rises by 10 and its orb is dropped |
| EnemyPhase.GuardEngage | components/GameCanvas.tsx:490 | a guard within 70 with its attack ready swings (0.3 s, next in 1.5 s) and strikes the player; the lunge speed is set while lunging |
| EnemyPhase.Repath | components/GameCanvas.tsx:492 | only the route and its timer change, with at most one draw |
| EnemyPhase.Advance | components/GameCanvas.tsx:493-495 | only the position and route change; the route loses at most its head; an enemy clear of obstacles stays clear |
| EnemyPhase.Engage | components/GameCanvas.tsx:489-491 | guards engage as above; a vampire that sees the player adds one bolt and reloads |
| EnemyPhase.ActFrame | components/GameCanvas.tsx:488-495 | a living enemy's step leaves the score, the orbs, the other enemies and its own health alone |
| EnemyPhase.EnemyStep | components/GameCanvas.tsx:486-496 | one enemy's step changes only that enemy; +10 score and its orb exactly when it expires |
| EnemyPhase.EnemyFold | components/GameCanvas.tsx:486-496 | the forEach keeps the player's box, the obstacles and the particles |
| EnemyPhase.Enemies | components/GameCanvas.tsx:486-497 | afterwards every enemy is unmarked, and the player's box and the obstacles are kept |
| EnemyPhase.Drops | components/GameCanvas.tsx:487 | one orb per enemy removed |
| EnemyPhase.EnemyFoldEffect | components/GameCanvas.tsx:486-496 | dying enemies advance their countdown and are marked exactly when it runs out; living ones keep their health |
| EnemyPhase.EnemyFoldRewards | components/GameCanvas.tsx:487 | score +10 and one orb, in order, per enemy whose countdown ran out |
| EnemyPhase.FilterAliveLength | components/GameCanvas.tsx:497 | the filter drops exactly the marked enemies |
| EnemyPhase.EnemyRewards | components/GameCanvas.tsx:486-497 | over the phase, the enemies removed are exactly those expiring, +10 score each, and their orbs (30 or 10) |
| EnemyPhase.LivingEnemiesStay | components/GameCanvas.tsx:486-497 | an enemy with health left is never removed and keeps its health |
| PickupPhase.Attract | components/GameCanvas.tsx:499-500 | only the position changes, and only within 150 of the player |
| PickupPhase.PickupStep | components/GameCanvas.tsx:498-502 | an orb overlapping the player is marked and credited; a level gained is reported with the world at that moment |
| PickupPhase.PickupFold | components/GameCanvas.tsx:498-502 | only the orbs and the player's xp, level and threshold change |
| PickupPhase.Pickups | components/GameCanvas.tsx:498-503 | afterwards no orb is collected, none is added, and only xp fields of the player change |
| PickupPhase.LevelUpsReported | components/GameCanvas.tsx:501 | the i-th report shows level l + i + 1; the level rises by the number of reports |
| PickupPhase.XpStaysBelowThresholdOverPhase | components/GameCanvas.tsx:498-502 | xp stays in [0, threshold) through the phase for orbs worth at most the threshold |
| PickupPhase.ReportsShowPlayer | components/GameCanvas.tsx:501 | every report holds the phase's player, changed only in xp, level and threshold |
| PickupPhase.Aged | components/GameCanvas.tsx:504 | every particle is aged by dt |
| PickupPhase.Particles | components/GameCanvas.tsx:504-505 | afterwards every particle is glowing; nothing else changes |
| PickupPhase.ParticleSurvival | components/GameCanvas.tsx:504-505 | a particle survives, aged, iff it had more than dt of life |
| PickupPhase.ParticlesComeFromBefore | components/GameCanvas.tsx:504-505 | every surviving particle is an aged particle of before |
| FrameStep.FrameKeepsFooting | components/GameCanvas.tsx:447-449 | a frame keeps the grid well shaped and a 32 × 32 player on the board, clear of every obstacle |
| FrameStep.FrameLeavesLivingEnemies | components/GameCanvas.tsx:486-497 | only living enemies are left after a frame |
| FrameStep.FramePrunes | components/GameCanvas.tsx:483-505 | no spent projectile, collected orb, burnt-out zone or faded particle is left after a frame |
| FrameStep.FrameKeepsLive | components/GameCanvas.tsx:374-506 | every frame keeps the invariant: well-shaped grid, a 32 × 32 player on the board and clear of obstacles, no pruned entity left |
| FrameStep.ReportsKeepPlayerSize | components/GameCanvas.tsx:385 | every snapshot reported from a live canvas holds a 32 × 32 player |
| Level.Snap | components/GameCanvas.tsx:281 | the snapped value is at most the input and less than 40 below it, and not negative for a non-negative input |
| Level.HouseCandidate | components/GameCanvas.tsx:286 | a house attempt is on the board, 80–160 wide and 80–120 high |
| Level.RockCandidate | components/GameCanvas.tsx:307 | a rock attempt is on the board with sides in [50, 110) |
| Level.Candidate | components/GameCanvas.tsx:286 | an attempt of either kind is well shaped |
| Level.Try | components/GameCanvas.tsx:284-290 | an accepted rectangle is well shaped, outside the safe zone and clear of the grown walls; giving up spends four draws per attempt |
| Level.Place | components/GameCanvas.tsx:291-296 | nothing is pushed when no rectangle was accepted; otherwise the wall is pushed after the earlier ones, and for a house its lantern follows exactly when the next draw is over 0.4 |
| Level.Share | components/GameCanvas.tsx:286 | a draw times a positive length lies in [0, length) |
| Level.Blocks | components/GameCanvas.tsx:282-297 | n iterations push at most n rocks, or at most 2n walls (houses and their lanterns); no house or rock overlaps an earlier wall grown by 40 (house) or 10 (rock); no wall covers the starting box; only the random source advances |
| Level.Iteration | components/GameCanvas.tsx:284-296 | one iteration of the house (or rock) loop pushes at most one rock, or one house and maybe its lantern, after the earlier walls |
| Level.Trees | components/GameCanvas.tsx:298-301 | the tree loop spends exactly two draws per tree |
| Level.BlockSparesStart | components/GameCanvas.tsx:287 | an accepted house or rock does not cover the player's starting box |
| Level.LanternSparesStart | components/GameCanvas.tsx:293-295 | a lantern by an accepted house does not cover it either |
| Level.IterationSpares | components/GameCanvas.tsx:284-296 | an iteration that starts with walls sparing the starting box ends with walls that spare it |
| Level.TreesSpareStart | components/GameCanvas.tsx:298-301 | no kept tree covers the starting box |
| Level.LayoutSparesStart | components/GameCanvas.tsx:278-318 | no wall of a level covers the player's starting box |
| Level.PlaceSpaced | components/GameCanvas.tsx:288-296 | pushing an accepted rectangle keeps the walls spaced: it fits by the margin, and a lantern is of another kind |
| Level.IterationSpaced | components/GameCanvas.tsx:284-296 | an iteration keeps spaced walls spaced |
| Level.VampireChance | components/GameCanvas.tsx:336 | never above 0.5, 0 from the first wave down, not negative from it up, exactly 0.5 from wave 6 |
| Level.Spot | components/GameCanvas.tsx:338-344 | an accepted spot lies in [0, 760) × [0, 560), the canvas less 40 pixels at the right and bottom edges, outside the ±200 box around the player and clear of every wall |
| Level.Recruit | components/GameCanvas.tsx:345-348 | a vampire iff the first draw is below the chance; 3 health for a vampire, 2 for a guard; attack timer in [0, 2.5); three draws |
| Level.Recruits | components/GameCanvas.tsx:336-350 | at most n enemies; each spawned enemy is unmarked at full health (3 or 2), outside the ±200 box around the player, clear of every wall and in [0, 760) × [0, 560); the first wave spawns guards only; only the random source advances |
| Level.Muster | components/GameCanvas.tsx:338-349 | one iteration of the spawn loop adds at most one enemy, after the earlier ones |
| Level.Enlist | components/GameCanvas.tsx:345-349 | an accepted spot appends exactly one recruit there and spends three draws; no spot changes nothing |
| Level.MusterPlaced | components/GameCanvas.tsx:338-349 | an iteration adds only a placed enemy |
| Level.MusterGuards | components/GameCanvas.tsx:336-349 | in the first wave an iteration adds only a guard |
| Level.EnlistGuards | components/GameCanvas.tsx:345-347 | with a chance of at most 0, an accepted spot gets a guard |
| Level.Seeded | components/GameCanvas.tsx:262-269 | the initial state's score, player and shurikens (0 becoming 10) over the fresh state |
| Level.Merged | components/GameCanvas.tsx:264-268 | with no initial state the state is unchanged; otherwise only score, player and shurikens change, to the initial state's (shurikens 0 becoming 10) |
| Level.MergeIdempotent | components/GameCanvas.tsx:264-268 | merging the same initial state twice is merging it once |
| Level.StartWave | components/GameCanvas.tsx:270 | the initial state's wave, or 1 when there is none or it is 0 |
| Level.CrowdsAny | components/GameCanvas.tsx:288 | the scan with `break` reports overlap iff some grown wall overlaps |
| Level.PlaceBlock | components/GameCanvas.tsx:284-290 | the retry loop (with `continue` on the safe zone) computes Try with 50 attempts |
| Level.PlaceOne | components/GameCanvas.tsx:284-296 | one iteration of the house (or rock) loop, retries and placement, computes Iteration |
| Level.BuildBlocks | components/GameCanvas.tsx:282-297 | the house (or rock) loop computes Blocks |
| Level.PlantTrees | components/GameCanvas.tsx:298-301 | the tree loop computes Trees |
| Level.BuildLayout | components/GameCanvas.tsx:278-319 | the wall placement computes Layout |
| Level.FindSpot | components/GameCanvas.tsx:338-344 | the spawn retry loop computes Spot with 50 attempts |
| Level.SpawnOne | components/GameCanvas.tsx:338-349 | one iteration of the spawn loop, retries and enlisting, computes Muster |
| Level.SpawnWave | components/GameCanvas.tsx:335-351 | spawnWave computes Recruits |
| Simulation.StartIsLive | components/GameCanvas.tsx:273-333 | a freshly set-up level satisfies the frame invariant |
| Simulation.GameCanvas.constructor | components/GameCanvas.tsx:202-212 | mounting seeds the fresh state from the initial state, sets up its wave, and leaves a canvas satisfying the invariant |
| Simulation.GameCanvas.Populate | components/GameCanvas.tsx:278-332 | the walls Layout draws, the grid built from them and the wave Recruits spawns, with every other collection emptied and the player centred and stopped |
| Simulation.GameCanvas.Reseed | components/GameCanvas.tsx:262-271 | a new initial state is merged into the current state and the level is set up at its wave: fresh walls and grid, a new wave of enemies, other collections emptied, the player centred and stopped; the invariant holds for a 32 × 32 player |
| Simulation.GameCanvas.SetupLevel | components/GameCanvas.tsx:273-333 | collections emptied, player centred and stopped, walls laid out, grid built from them, wave spawned; the invariant holds for a 32 × 32 player |
| Simulation.GameCanvas.SpawnParticles | components/GameCanvas.tsx:509 | the loop leaves the state Spawn describes |
| Simulation.GameCanvas.GenerateId | components/GameCanvas.tsx:175 | one draw is spent |
| Simulation.GameCanvas.Prelude | components/GameCanvas.tsx:376-387 | the state and report Prelude describes |
| Simulation.GameCanvas.Cooldowns | components/GameCanvas.tsx:390-398 | the state Cooldowns describes |
| Simulation.GameCanvas.BladeCast | components/GameCanvas.tsx:404-416 | the state BladeCast describes |
| Simulation.GameCanvas.BladeHit | components/GameCanvas.tsx:426-429 | the state BladeStrike describes for one enemy |
| Simulation.GameCanvas.RushThrough | components/GameCanvas.tsx:425-430 | the rush's forEach leaves BladeSweep's state |
| Simulation.GameCanvas.Move | components/GameCanvas.tsx:418-438 | the state and target Move describes |
| Simulation.GameCanvas.WalkTo | components/GameCanvas.tsx:434-437 | the turn and target Walk describes |
| PlayerPhases.Walk | components/GameCanvas.tsx:434-437 | the player turns to the keys; with no key held it neither turns nor moves |
| Simulation.GameCanvas.Dash | components/GameCanvas.tsx:440-445 | the state Dash describes |
| Simulation.GameCanvas.Settle | components/GameCanvas.tsx:447-449 | the state Settle describes |
| Simulation.GameCanvas.MeleeHit | components/GameCanvas.tsx:455 | the state MeleeStrike describes for one enemy |
| Simulation.GameCanvas.Swing | components/GameCanvas.tsx:455 | the swing's forEach leaves MeleeSweep's state |
| Simulation.GameCanvas.Melee | components/GameCanvas.tsx:452-456 | the state Melee describes |
| Simulation.GameCanvas.FireballCast | components/GameCanvas.tsx:457-463 | the state FireballCast describes |
| Simulation.GameCanvas.ShurikenThrow | components/GameCanvas.tsx:464-469 | the state ShurikenThrow describes |
| Simulation.GameCanvas.OverlapsAnyEnemy | components/GameCanvas.tsx:478 | the scan reports a hit iff some enemy's box overlaps |
| Simulation.GameCanvas.TriggerExplosion | components/GameCanvas.tsx:508 | the state Explosion describes |
| Simulation.GameCanvas.ShurikenHit | components/GameCanvas.tsx:480 | the state StarStrike describes for one enemy |
| Simulation.GameCanvas.StrikeWithShuriken | components/GameCanvas.tsx:480 | the shuriken's forEach leaves StarFold's state |
| Simulation.GameCanvas.StrikeWithBolt | components/GameCanvas.tsx:481 | the state BoltStep describes |
| Simulation.GameCanvas.FlyProjectile | components/GameCanvas.tsx:473-474 | the projectile moves by its velocity and is spent once off the board; nothing else changes |
| Simulation.GameCanvas.Detonate | components/GameCanvas.tsx:475-479 | the state FireballStep describes |
| Simulation.GameCanvas.StepProjectile | components/GameCanvas.tsx:473-481 | the state ProjectileStep describes |
| Simulation.GameCanvas.StepProjectiles | components/GameCanvas.tsx:472-482 | the state ProjectileFold describes over every projectile |
| Simulation.GameCanvas.FlyProjectiles | components/GameCanvas.tsx:472-483 | the state Projectiles describes |
| Simulation.GameCanvas.StepZone | components/GameCanvas.tsx:484 | the state ZoneStep describes |
| Simulation.GameCanvas.BurnZones | components/GameCanvas.tsx:484-485 | the state Zones describes |
| Simulation.GameCanvas.StrikePlayer | components/GameCanvas.tsx:490 | the state HitPlayer describes |
| Simulation.GameCanvas.ExpireEnemy | components/GameCanvas.tsx:487 | the state Expire describes |
| Simulation.GameCanvas.EngageEnemy | components/GameCanvas.tsx:488-491 | the enemy, state and speed Engage describes |
| Simulation.GameCanvas.RepathEnemy | components/GameCanvas.tsx:492 | what Repath describes, with the route meeting findPath's contract |
| Simulation.GameCanvas.ActEnemy | components/GameCanvas.tsx:488-495 | the state Act describes for a living enemy (the frame facts ActFrame proves), for the route findPath returned, which meets findPath's contract |
| Simulation.GameCanvas.StepEnemy | components/GameCanvas.tsx:486-496 | the state EnemyStep describes, for the route findPath returned |
| Simulation.GameCanvas.StepEnemies | components/GameCanvas.tsx:486-496 | the state EnemyFold describes over every enemy; every route meets findPath's contract |
| Simulation.GameCanvas.MoveEnemies | components/GameCanvas.tsx:486-497 | the state Enemies describes; every route meets findPath's contract |
| Simulation.GameCanvas.StepPickup | components/GameCanvas.tsx:499-501 | the state and report PickupStep describes |
| Simulation.GameCanvas.StepPickups | components/GameCanvas.tsx:498-502 | the state and reports PickupFold describes over every orb |
| Simulation.GameCanvas.CollectPickups | components/GameCanvas.tsx:498-503 | the state and reports Pickups describes |
| Simulation.GameCanvas.AgeParticles | components/GameCanvas.tsx:504-505 | the state Particles describes |
| Simulation.GameCanvas.Update | components/GameCanvas.tsx:374-506 | the outcome Frame describes, and the invariant is kept |
| Simulation.GameCanvas.AnimationFrame | components/GameCanvas.tsx:366-370 | nothing while game over or paused; otherwise one frame |
| Shop.Effect | components/Shop.tsx:82-134 | Rice Ball: min(max, health + 1); Spirit Heart: max + 1, full health; Bundle: +5 shurikens; Incense: chakra := max when max is defined and nonzero; Ancient Scroll: a nonzero max + 20, then chakra := max; each keeps health and chakra within their maxima |
| Shop.Buy | components/Shop.tsx:14-20 | no update iff score < price; otherwise score − price (never negative), then the effect; an enabled item is always bought |
| Shop.EnabledPurchases | components/Shop.tsx:87-121 | an enabled Rice Ball heals exactly one point; an enabled Incense fills chakra; with no (or zero) maximum it only costs its price |
| Shop.Purchase | components/Shop.tsx:14-20 | the in-place buy returns Buy's update |
| App.Restarted | App.tsx:59-67 | health 3/3, chakra 100/100, level 1, xp 0, threshold 50, 10 shurikens, score 0, wave 1, speed 1, modifiers 0, empty world |
| App.RestartMatchesCanvasDefault | App.tsx:14-24 | the restart state equals the canvas's default state except for the player's position |
| App.AddChakra | App.tsx:85 | +25 on a defined maximum; an undefined one stays undefined |
| App.Upgraded | App.tsx:83-91 | HEALTH: max + 1 and full health; CHAKRA: max + 25 and full; SHURIKEN: +15; SPEED: +0.15; DASH, FIREBALL: −0.5; HEAL: both refilled, maxima unchanged; score and wave never change; health and chakra stay within their maxima |
| App.App.constructor | App.tsx:14-35 | the application starts with the restart state and nothing pending |
| App.App.HandleRestart | App.tsx:55-69 | the key is bumped, every screen closed, nothing pending, the HUD reset |
| App.App.HandleLevelComplete | App.tsx:71-73 | the final state becomes the HUD and the pending state; the shop opens |
| App.App.HandleLevelUp | App.tsx:75-77 | the final state becomes the HUD and the pending state; the level-up screen opens |
| App.App.HandleUpgradeSelect | App.tsx:79-93 | a no-op with nothing pending; otherwise the pending state upgraded becomes the HUD and the pending state, and the screen closes |
| App.App.ShopSelect | App.tsx:105 | an enabled item in an open shop makes Buy's update the HUD and the pending state; anything else changes nothing |
| App.App.CloseShop | App.tsx:105 | the shop closes and the canvas key is bumped |
| App.App.Mount | App.tsx:102 | the canvas mounted from the pending state starts its wave with its score, shurikens and player, and satisfies the frame invariant |

## Left out

- `Math.sqrt`: modelled as an arbitrary injected function, with no property assumed. Facts about square-root geometry (unit directions, exact knockback distances) are therefore not stated. Comparisons with a threshold use squared distances.
- Division by a zero distance (`dx / d` with d = 0): the source produces NaN or Infinity; the model takes 0 (`Div`). In every such place the later comparisons give the same outcome as NaN.
- Floating point: coordinates, timers and chakra are exact reals; rounding is not modelled.
- Rendering, sprites and procedural textures, the vignette, the lightning trail, the HUD, the menu, the spirit guide and the level-up screen: presentation only.
- The keyboard and mouse listeners and the `requestAnimationFrame` loop: `dt` and the sampled `InputState` are parameters; `dt` is not derived from timestamps.
- The ambient particles: cosmetic.
- Entity identifiers: `generateId` only spends its draw; the id strings and the `id`, `type` and `color` fields are not modelled.
- The player's `weight`: the simulation never reads it.
- The advice service (services/geminiService.ts): a network call to a language model. The spirit guide state in App.tsx goes with it, and so does the manual pause key handler.
- The shuffle of the upgrade cards (components/LevelUp.tsx): a random UI choice. The chosen card is a parameter of `HandleUpgradeSelect`.
- Aliasing: the copies `{...state}` share the player object with the state they copy. The model treats every snapshot as a value.
- Upgraded: a CHAKRA card on a player with an undefined maxChakra gives NaN in the source; the model keeps both values undefined.
- Simulation.GameCanvas.constructor: it requires a 32 × 32 player in the initial state. Every state the application hands in has one (see `FrameStep.ReportsKeepPlayerSize`), but the source does not check it.
- Pathfinding.FindPath: when start and goal are the same cell, it returns one waypoint.
- App.App.HandleLevelComplete, App.App.HandleLevelUp, App.App.HandleUpgradeSelect and App.App.ShopSelect: the App model does not hold the mounted canvas, so these handlers do not themselves re-seed it with the new pending state. That re-seed is `Simulation.GameCanvas.Reseed`.
- The enemy fold takes the routes `findPath` returned as an argument, because a function cannot call a method. `Simulation.GameCanvas.MoveEnemies` proves that each route it passes meets findPath's contract; how routes beyond that contract are chosen among equal-f ties is not stated.

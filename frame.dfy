/**
 * One frame of the game canvas (components/GameCanvas.tsx, `update`): the
 * phases in the component's order, as one function of the canvas state,
 * and the invariant every frame keeps.
 */
module FrameStep {
  import opened Types
  import opened Constants
  import opened Collision
  import opened Grid
  import opened Rules
  import opened CanvasState
  import opened PlayerPhases
  import opened ProjectilePhase
  import opened EnemyPhase
  import opened PickupPhase

  /**
   * What a frame leaves: the new canvas state, the snapshot handed to
   * onLevelComplete when the wave-clear latch fired, and the snapshots
   * handed to onLevelUp, in order.
   */
  datatype Outcome = Outcome(c: Canvas, levelComplete: Option<GameState>, levelUps: seq<GameState>)

  /**
   * The frame, phase by phase. found[k] is the route findPath returned to
   * enemy k during the enemy phase, if it asked for one.
   */
  function Frame(c: Canvas, i: InputState, dt: real, found: seq<Option<seq<Vec2>>>, root: real -> real): (r: Outcome)
    requires |found| == |c.state.enemies|
  {
    var (c1, done) := Prelude(c, dt);
    var c2 := Cooldowns(c1, dt);
    var c3 := BladeCast(c2, i, root);
    var (c4, nP) := Move(c3, i, dt, root);
    var c5 := Dash(c4, i, root);
    var c6 := Settle(c5, nP);
    var c7 := Melee(c6, i, dt, root);
    var c8 := FireballCast(c7, i, root);
    var c9 := ShurikenThrow(c8, i, dt, root);
    var c10 := Projectiles(c9, dt, root);
    var c11 := Zones(c10, dt);
    var c12 := Enemies(c11, found, dt, root);
    var (c13, ups) := Pickups(c12, dt, root);
    Outcome(Particles(c13, dt), done, ups)
  }

  /**
   * The invariant between frames: a well-shaped grid, a 32 x 32 player on
   * the board and clear of every obstacle, and no collection holding an
   * entity the frame's pruning would have removed.
   */
  ghost predicate Live(c: Canvas)
  {
    Footing(c) &&
    (forall e | e in c.state.enemies :: Alive(e)) &&
    (forall p | p in c.state.projectiles :: Flying(p)) &&
    (forall p | p in c.state.pickups :: Uncollected(p)) &&
    (forall z | z in c.state.fireZones :: Burning(z)) &&
    (forall p | p in c.state.particles :: Glowing(p))
  }

  /** The part of the invariant about the grid and the player. */
  ghost predicate Footing(c: Canvas)
  {
    WellShaped(c.grid) &&
    c.state.player.size == Size(32.0, 32.0) && OnBoard(c.state.player.pos, c.state.player.size) &&
    !Blocked(ToRect(c.state.player.Bounds()), c.state.obstacles)
  }

  /** Every frame keeps the invariant, whatever the input, the time step and the routes found. */
  lemma FrameKeepsLive(c: Canvas, i: InputState, dt: real, found: seq<Option<seq<Vec2>>>, root: real -> real)
    requires |found| == |c.state.enemies| && Live(c)
    ensures Live(Frame(c, i, dt, found, root).c)
  {
    FrameKeepsFooting(c, i, dt, found, root);
    FrameLeavesLivingEnemies(c, i, dt, found, root);
    FramePrunes(c, i, dt, found, root);
  }

  /** The grid stays well shaped, and the player keeps its size, stays on the board and clear of obstacles. */
  lemma FrameKeepsFooting(c: Canvas, i: InputState, dt: real, found: seq<Option<seq<Vec2>>>, root: real -> real)
    requires |found| == |c.state.enemies| && Footing(c)
    ensures Footing(Frame(c, i, dt, found, root).c)
  {
  }

  /** Only living enemies are left after a frame. */
  lemma FrameLeavesLivingEnemies(c: Canvas, i: InputState, dt: real, found: seq<Option<seq<Vec2>>>, root: real -> real)
    requires |found| == |c.state.enemies|
    ensures forall e | e in Frame(c, i, dt, found, root).c.state.enemies :: Alive(e)
  {
  }

  /** No spent projectile, collected orb, burnt-out zone or faded particle is left after a frame. */
  lemma FramePrunes(c: Canvas, i: InputState, dt: real, found: seq<Option<seq<Vec2>>>, root: real -> real)
    requires |found| == |c.state.enemies|
    ensures var r := Frame(c, i, dt, found, root).c;
            (forall p | p in r.state.projectiles :: Flying(p)) &&
            (forall p | p in r.state.pickups :: Uncollected(p)) &&
            (forall z | z in r.state.fireZones :: Burning(z)) &&
            (forall p | p in r.state.particles :: Glowing(p))
  {
  }

  /**
   * Every snapshot a frame reports from a live canvas, on wave clear or on
   * a level gained, holds a player of the player's size: the state the
   * application passes back to the next canvas.
   */
  lemma ReportsKeepPlayerSize(c: Canvas, i: InputState, dt: real, found: seq<Option<seq<Vec2>>>, root: real -> real)
    requires |found| == |c.state.enemies| && Live(c)
    ensures var o := Frame(c, i, dt, found, root);
            (o.levelComplete.Some? ==> o.levelComplete.value.player.size == Size(32.0, 32.0)) &&
            forall s | s in o.levelUps :: s.player.size == Size(32.0, 32.0)
  {
    FrameKeepsLive(c, i, dt, found, root);
    var (c1, done) := Prelude(c, dt);
    var c2 := Cooldowns(c1, dt);
    var c3 := BladeCast(c2, i, root);
    var (c4, nP) := Move(c3, i, dt, root);
    var c5 := Dash(c4, i, root);
    var c6 := Settle(c5, nP);
    var c7 := Melee(c6, i, dt, root);
    var c8 := FireballCast(c7, i, root);
    var c9 := ShurikenThrow(c8, i, dt, root);
    var c10 := Projectiles(c9, dt, root);
    var c11 := Zones(c10, dt);
    var c12 := Enemies(c11, found, dt, root);
    ReportsShowPlayer(c12, |c12.state.pickups|, dt, root);
  }
}

/**
 * The game canvas component as an object (components/GameCanvas.tsx): the
 * world (stateRef), the random source, the walkability grid (gridRef), the
 * facing and the latch, cooldown, timer and velocity refs are its fields,
 * and `update` runs as methods that change them step by step, each loop
 * proved to leave exactly the state the matching function of the phase
 * modules describes.
 */
module Simulation {
  import opened Types
  import opened Constants
  import opened Collision
  import opened Grid
  import opened Pathfinding
  import opened Rules
  import opened CanvasState
  import opened PlayerPhases
  import opened ProjectilePhase
  import opened EnemyPhase
  import opened PickupPhase
  import opened FrameStep
  import opened Level

  /**
   * A freshly set-up level satisfies the frame invariant: the grid is well
   * shaped, the centred player is on the board and, thanks to the safe
   * zone, clear of every wall, and every spawned enemy is alive.
   */
  lemma StartIsLive(c: Canvas, scenario: ScenarioType, wave: int, g: Rng)
    requires c.state.obstacles == Layout(scenario, wave, g).0
    requires c.state.enemies == Recruits(SpawnCount(wave), wave, START, c.state.obstacles, Layout(scenario, wave, g).1).0
    requires c.state.projectiles == [] && c.state.pickups == [] && c.state.particles == [] && c.state.fireZones == []
    requires c.state.player.pos == START && c.state.player.size == Size(PLAYER_W, PLAYER_H)
    requires WellShaped(c.grid)
    ensures Live(c)
  {
    var walls := c.state.obstacles;
    LayoutSparesStart(scenario, wave, g);
    assert ToRect(c.state.player.Bounds()) == StartBox();
    assert !Blocked(StartBox(), walls) by {
      forall k | 0 <= k < |walls|
        ensures !CheckRectCollision(StartBox(), ToRect(walls[k].Bounds()))
      {
        assert walls[k] in walls;
        assert Spares(walls[k]);
      }
    }
    assert forall e | e in c.state.enemies :: Alive(e);
  }

  class GameCanvas {
    var state: GameState
    var rng: Rng
    var grid: seq<seq<bool>>
    var facing: Facing
    var transition: Transition
    var attackCooldown: real
    var shootCooldown: real
    var fireballCooldown: real
    var dashCooldown: real
    var dashTime: real
    var dashVelocity: Vec2
    var bladeCooldown: real
    var bladeTime: real
    var bladeVelocity: Vec2
    /** Math.sqrt. */
    const root: real -> real
    const scenario: ScenarioType

    /** The fields as one value. */
    function Snapshot(): Canvas
      reads this
    {
      Canvas(state, rng, grid, facing, transition, attackCooldown, shootCooldown, fireballCooldown,
             dashCooldown, dashTime, dashVelocity, bladeCooldown, bladeTime, bladeVelocity)
    }

    ghost predicate Valid()
      reads this
    {
      Live(Snapshot())
    }

    /**
     * The component mounting: the fresh state seeded from the initial state
     * handed in (if any), then setupLevel for its wave. The player handed in
     * has the player's size, as every state the application builds does.
     */
    constructor(scenario: ScenarioType, root: real -> real, init: Option<GameState>, g: Rng)
      requires init.Some? ==> init.value.player.size == Size(PLAYER_W, PLAYER_H)
      ensures this.scenario == scenario && this.root == root
      ensures state.score == Seeded(init).score && state.shurikens == Seeded(init).shurikens
      ensures state.wave == StartWave(init)
      ensures state.player == Seeded(init).player.(pos := START, velocity := Vec2(0.0, 0.0))
      ensures facing == Down && transition == Transition(false, 0.0)
      ensures Valid()
    {
      this.scenario := scenario;
      this.root := root;
      state := Seeded(init);
      rng := g;
      grid := [];
      facing := Down;
      transition := Transition(false, 0.0);
      attackCooldown, shootCooldown, fireballCooldown, dashCooldown, dashTime := 0.0, 0.0, 0.0, 0.0, 0.0;
      dashVelocity := Vec2(0.0, 0.0);
      bladeCooldown, bladeTime := 0.0, 0.0;
      bladeVelocity := Vec2(0.0, 0.0);
      new;
      SetupLevel(StartWave(init));
    }

    /**
     * The seeding effect re-run on a mounted canvas, as it is whenever the
     * initial state handed in changes: the initial state's score, shurikens
     * and player are merged into the current state, and setupLevel lays out
     * and spawns its wave afresh. The timers, the facing and the latch stay.
     */
    method Reseed(init: Option<GameState>)
      modifies this
      ensures var wave := StartWave(init);
              var layout := Layout(scenario, wave, old(rng));
              var spawned := Recruits(SpawnCount(wave), wave, START, layout.0, layout.1);
              var s := Merged(old(state), init);
              Snapshot() == old(Snapshot()).(
                state := s.(wave := wave, enemies := spawned.0, obstacles := layout.0,
                            projectiles := [], pickups := [], particles := [], fireZones := [],
                            player := s.player.(pos := START, velocity := Vec2(0.0, 0.0))),
                rng := spawned.1, grid := grid)
      ensures WellShaped(grid)
      ensures Merged(old(state), init).player.size == Size(PLAYER_W, PLAYER_H) ==> Valid()
    {
      state := Merged(state, init);
      SetupLevel(StartWave(init));
    }

    /**
     * `setupLevel(wave)`: the collections emptied, the player centred and
     * stopped, the walls laid out, the grid built from them and the wave
     * spawned around the player's new position. When the player has the
     * player's size the canvas then satisfies the frame invariant: the safe
     * zone keeps the player clear of every wall.
     */
    method SetupLevel(wave: int)
      modifies this
      ensures var layout := Layout(scenario, wave, old(rng));
              var spawned := Recruits(SpawnCount(wave), wave, START, layout.0, layout.1);
              Snapshot() == old(Snapshot()).(
                state := old(state).(wave := wave, enemies := spawned.0, obstacles := layout.0,
                                     projectiles := [], pickups := [], particles := [], fireZones := [],
                                     player := old(state.player).(pos := START, velocity := Vec2(0.0, 0.0))),
                rng := spawned.1, grid := grid)
      ensures WellShaped(grid)
      ensures forall y, x | 0 <= y < GRID_ROWS && 0 <= x < GRID_COLS ::
                grid[y][x] <==> !Blocked(CellRect(x, y), state.obstacles)
      ensures old(state.player.size) == Size(PLAYER_W, PLAYER_H) ==> Valid()
    {
      ghost var g := rng;
      Populate(wave);
      if old(state.player.size) == Size(PLAYER_W, PLAYER_H) {
        StartIsLive(Snapshot(), scenario, wave, g);
      }
    }

    /** The walls, the grid over them and the wave, with every other collection emptied. */
    method Populate(wave: int)
      modifies this
      ensures var layout := Layout(scenario, wave, old(rng));
              var spawned := Recruits(SpawnCount(wave), wave, START, layout.0, layout.1);
              Snapshot() == old(Snapshot()).(
                state := old(state).(wave := wave, enemies := spawned.0, obstacles := layout.0,
                                     projectiles := [], pickups := [], particles := [], fireZones := [],
                                     player := old(state.player).(pos := START, velocity := Vec2(0.0, 0.0))),
                rng := spawned.1, grid := grid)
      ensures WellShaped(grid)
      ensures forall y, x | 0 <= y < GRID_ROWS && 0 <= x < GRID_COLS ::
                grid[y][x] <==> !Blocked(CellRect(x, y), state.obstacles)
    {
      var walls, enemies;
      walls, rng := BuildLayout(scenario, wave, rng);
      enemies, rng := SpawnWave(SpawnCount(wave), wave, START, walls, rng);
      grid := BuildGrid(walls);
      state := state.(wave := wave, enemies := enemies, obstacles := walls,
                      projectiles := [], pickups := [], particles := [], fireZones := [],
                      player := state.player.(pos := START, velocity := Vec2(0.0, 0.0)));
    }

    // -------------------------------------------------------------------
    // Shared effects.

    /** `spawnParticles(pos, count)`: per particle, one draw for its identifier and two for its velocity. */
    method SpawnParticles(pos: Vec2, count: nat)
      modifies this
      ensures Snapshot() == Spawn(old(Snapshot()), pos, count)
    {
      ghost var c0 := Snapshot();
      var i := 0;
      while i < count
        invariant 0 <= i <= count
        invariant Snapshot() == c0.(state := c0.state.(particles := c0.state.particles + Sparks(pos, i, c0.rng)),
                                    rng := Skip(c0.rng, 3 * i))
      {
        rng := Next(rng).1;
        var (a, g1) := Next(rng);
        var (b, g2) := Next(g1);
        rng := g2;
        state := state.(particles := state.particles + [Spark(pos, a, b)]);
        assert Sparks(pos, i + 1, c0.rng) == Sparks(pos, i, c0.rng) + [Spark(pos, a, b)];
        i := i + 1;
      }
    }

    /** `generateId()`: one draw. */
    method GenerateId()
      modifies this
      ensures Snapshot() == FreshId(old(Snapshot()))
    {
      rng := Next(rng).1;
    }

    // -------------------------------------------------------------------
    // Regeneration, the latch and the cooldowns.

    /** Chakra regenerates; the wave-clear latch arms, counts down and fires with the next wave's snapshot. */
    method Prelude(dt: real) returns (levelComplete: Option<GameState>)
      modifies this
      ensures (Snapshot(), levelComplete) == PlayerPhases.Prelude(old(Snapshot()), dt)
    {
      var s, t := state, transition;
      var p := s.player;
      if p.chakra.Some? && p.maxChakra.Some? {
        s := s.(player := p.(chakra := Some(Min(p.maxChakra.value, p.chakra.value + CHAKRA_REGEN * dt))));
      }
      if |s.enemies| == 0 && !t.pending && !s.isGameOver {
        t := Transition(true, TRANSITION_DELAY);
      }
      levelComplete := None;
      if t.pending {
        t := t.(timer := t.timer - dt);
        if t.timer <= 0.0 {
          t := t.(pending := false);
          levelComplete := Some(s.(wave := s.wave + 1));
        }
      }
      state, transition := s, t;
    }

    method Cooldowns(dt: real)
      modifies this
      ensures Snapshot() == PlayerPhases.Cooldowns(old(Snapshot()), dt)
    {
      var fb := if fireballCooldown > 0.0 then Max(0.0, fireballCooldown - dt) else fireballCooldown;
      var blade := Tick(bladeCooldown, dt);
      dashCooldown, dashTime, bladeCooldown, bladeTime, fireballCooldown :=
        Tick(dashCooldown, dt), Tick(dashTime, dt), blade, Tick(bladeTime, dt), fb;
      state := state.(player := state.player.(invulnerableTimer := Tick(state.player.invulnerableTimer, dt)),
                      fireballCooldown := fb, lightningBladeCooldown := blade);
    }

    // -------------------------------------------------------------------
    // The player's abilities and movement.

    method BladeCast(i: InputState)
      modifies this
      ensures Snapshot() == PlayerPhases.BladeCast(old(Snapshot()), i, root)
    {
      var cast := CastBlade(i.skill1, bladeCooldown, state.player.chakra);
      if cast.fired {
        bladeCooldown := cast.cooldown;
        bladeTime := LIGHTNING_BLADE_DURATION;
        bladeVelocity := Scale(NormalizeIfPositive(Heading(i, facing), root), LIGHTNING_BLADE_SPEED);
        state := state.(player := state.player.(chakra := cast.chakra, invulnerableTimer := LIGHTNING_BLADE_DURATION + 0.1));
      }
    }

    /** The rush's forEach body for enemy j. */
    method BladeHit(nP: Vec2, j: nat)
      requires j < |state.enemies|
      modifies this
      ensures Snapshot() == BladeStrike(old(Snapshot()), nP, j)
    {
      var e := state.enemies[j];
      if CheckCollision(Box(nP, state.player.size), e.Bounds()) {
        state := state.(enemies := state.enemies[j := e.(health := e.health - LIGHTNING_BLADE_DAMAGE)]);
        SpawnParticles(e.pos, 8);
      }
    }

    /** The rush's forEach: each enemy the player's box at nP overlaps takes the blade's damage and 8 sparks. */
    method RushThrough(nP: Vec2)
      modifies this
      ensures Snapshot() == BladeSweep(old(Snapshot()), nP, |old(state.enemies)|)
    {
      ghost var c0 := Snapshot();
      var n := |state.enemies|;
      var j := 0;
      while j < n
        invariant 0 <= j <= n == |c0.state.enemies|
        invariant Snapshot() == BladeSweep(c0, nP, j)
      {
        BladeSweepNext(c0, nP, j);
        BladeHit(nP, j);
        j := j + 1;
      }
    }

    /** The target position: the rush step, the dash glide, or the walk (which also turns the player). */
    method Move(i: InputState, dt: real) returns (nP: Vec2)
      modifies this
      ensures (Snapshot(), nP) == PlayerPhases.Move(old(Snapshot()), i, dt, root)
    {
      var pos := state.player.pos;
      if bladeTime > 0.0 {
        nP := Glide(pos, bladeVelocity, dt);
        RushThrough(nP);
      } else if dashTime > 0.0 {
        nP := Glide(pos, dashVelocity, dt);
      } else {
        nP := WalkTo(i, dt);
      }
    }

    /** The walk: the player turns to the keys and steps at its speed. */
    method WalkTo(i: InputState, dt: real) returns (nP: Vec2)
      modifies this
      ensures (Snapshot(), nP) == Walk(old(Snapshot()), i, dt, root)
    {
      ghost var c0 := Snapshot();
      var pos := state.player.pos;
      var k := KeyDirection(i);
      facing := NextFacing(facing, k);
      var m := NormalizeWalk(k, root);
      var f := SpeedFactor(state.player.speedMult);
      nP := Vec2(pos.x + m.x * PLAYER_SPEED * f * dt, pos.y + m.y * PLAYER_SPEED * f * dt);
      assert Snapshot() == c0.(facing := NextFacing(c0.facing, k)) == Walk(c0, i, dt, root).0;
      assert nP == Walk(c0, i, dt, root).1;
    }

    method Dash(i: InputState)
      modifies this
      ensures Snapshot() == PlayerPhases.Dash(old(Snapshot()), i, root)
    {
      if i.dash && dashCooldown <= 0.0 && dashTime <= 0.0 && bladeTime <= 0.0 {
        dashVelocity := Scale(NormalizeIfPositive(Heading(i, facing), root), PLAYER_DASH_SPEED);
        dashTime := DASH_DURATION;
        dashCooldown := DASH_COOLDOWN + state.player.dashCooldownMod;
        SpawnParticles(state.player.pos, 10);
      }
    }

    /** The target is clamped to the board and taken only when the box there overlaps no obstacle. */
    method Settle(nP: Vec2)
      modifies this
      ensures Snapshot() == PlayerPhases.Settle(old(Snapshot()), nP)
    {
      var size := state.player.size;
      var target := Vec2(Max(0.0, Min(CANVAS_WIDTH - size.w, nP.x)), Max(0.0, Min(CANVAS_HEIGHT - size.h, nP.y)));
      var col := CollidesWithAny(ToRect(Box(target, size)), state.obstacles);
      if !col {
        state := state.(player := state.player.(pos := target));
      }
    }

    /** The swing's forEach body for enemy j. */
    method MeleeHit(f: Vec2, j: nat)
      requires j < |state.enemies|
      modifies this
      ensures Snapshot() == MeleeStrike(old(Snapshot()), f, root, j)
    {
      var e := state.enemies[j];
      if MeleeReaches(e, state.player.pos, f) {
        var e1 := MeleeStruck(e, state.player.pos, f, root);
        state := state.(enemies := state.enemies[j := e1]);
        SpawnParticles(e1.pos, 5);
      }
    }

    /** The swing's forEach: each enemy in reach loses a point, is knocked back and sheds 5 sparks. */
    method Swing(f: Vec2)
      modifies this
      ensures Snapshot() == MeleeSweep(old(Snapshot()), f, root, |old(state.enemies)|)
    {
      ghost var c0 := Snapshot();
      var n := |state.enemies|;
      var j := 0;
      while j < n
        invariant 0 <= j <= n == |c0.state.enemies|
        invariant Snapshot() == MeleeSweep(c0, f, root, j)
      {
        MeleeSweepNext(c0, f, root, j);
        MeleeHit(f, j);
        j := j + 1;
      }
    }

    method Melee(i: InputState, dt: real)
      modifies this
      ensures Snapshot() == PlayerPhases.Melee(old(Snapshot()), i, dt, root)
    {
      if attackCooldown > 0.0 { attackCooldown := attackCooldown - dt; }
      if i.attack && attackCooldown <= 0.0 {
        attackCooldown := 0.5;
        Swing(FacingVector(facing));
      }
    }

    method FireballCast(i: InputState)
      modifies this
      ensures Snapshot() == PlayerPhases.FireballCast(old(Snapshot()), i, root)
    {
      var p := state.player;
      var cast := CastFireball(i.special, fireballCooldown, p.chakra, p.fireballCooldownMod);
      if cast.fired {
        fireballCooldown := cast.cooldown;
        state := state.(player := p.(chakra := cast.chakra));
        var ball := FireballShot(Centre(p.pos), i.mousePos, root);
        GenerateId();
        state := state.(projectiles := state.projectiles + [ball]);
        SpawnParticles(state.player.pos, 10);
      }
    }

    method ShurikenThrow(i: InputState, dt: real)
      modifies this
      ensures Snapshot() == PlayerPhases.ShurikenThrow(old(Snapshot()), i, dt, root)
    {
      if shootCooldown > 0.0 { shootCooldown := shootCooldown - dt; }
      if i.shoot && shootCooldown <= 0.0 && state.shurikens > 0 {
        shootCooldown := 0.3;
        state := state.(shurikens := state.shurikens - 1);
        var star := ShurikenShot(Centre(state.player.pos), i.mousePos, root);
        GenerateId();
        state := state.(projectiles := state.projectiles + [star]);
      }
    }
    // -------------------------------------------------------------------
    // Projectiles.

    /** Some enemy's box overlaps b: the fireball's `for (const e of s.enemies)` scan. */
    method OverlapsAnyEnemy(b: Box) returns (hit: bool)
      ensures hit <==> OverEnemy(b, state.enemies)
    {
      hit := false;
      var j := 0;
      while j < |state.enemies|
        invariant 0 <= j <= |state.enemies|
        invariant forall m | 0 <= m < j :: !CheckCollision(b, state.enemies[m].Bounds())
      {
        if CheckCollision(b, state.enemies[j].Bounds()) {
          hit := true;
          return;
        }
        j := j + 1;
      }
    }

    /** `triggerExplosion(pos)`: twenty sparks, the blast's forEach over the enemies, then a fire zone. */
    method TriggerExplosion(pos: Vec2)
      modifies this
      ensures Snapshot() == Explosion(old(Snapshot()), pos, root)
    {
      SpawnParticles(pos, 20);
      var cx, cy := pos.x + 10.0, pos.y + 10.0;
      var es := state.enemies;
      var qs := es;
      var j := 0;
      while j < |es|
        invariant |qs| == |es| && 0 <= j <= |es|
        invariant forall m | 0 <= m < j :: qs[m] == Blast(es[m], cx, cy, root)
        invariant forall m | j <= m < |es| :: qs[m] == es[m]
      {
        qs := qs[j := Blast(qs[j], cx, cy, root)];
        j := j + 1;
      }
      assert qs == Blasted(es, cx, cy, root);
      state := state.(enemies := qs);
      GenerateId();
      state := state.(fireZones := state.fireZones + [Blaze(cx, cy)]);
    }

    /** The shuriken's forEach body for enemy j. */
    method ShurikenHit(k: nat, j: nat)
      requires k < |state.projectiles| && j < |state.enemies|
      modifies this
      ensures Snapshot() == StarStrike(old(Snapshot()), k, j)
    {
      var p, e := state.projectiles[k], state.enemies[j];
      if !p.isDead && e.health > 0 && CheckCollision(p.Bounds(), e.Bounds()) {
        state := state.(enemies := state.enemies[j := e.(health := e.health - 1)],
                        projectiles := state.projectiles[k := p.(isDead := true)]);
        SpawnParticles(e.pos, 3);
      }
    }

    /** A shuriken's forEach over the enemies: the first living one it overlaps loses a point and spends it. */
    method StrikeWithShuriken(k: nat)
      requires k < |state.projectiles|
      modifies this
      ensures Snapshot() == StarFold(old(Snapshot()), k, |old(state.enemies)|)
    {
      ghost var c0 := Snapshot();
      var n := |state.enemies|;
      var j := 0;
      while j < n
        invariant 0 <= j <= n == |c0.state.enemies|
        invariant Snapshot() == StarFold(c0, k, j)
      {
        StarFoldNext(c0, k, j);
        ShurikenHit(k, j);
        j := j + 1;
      }
    }

    /** A vampire bolt strikes the player (unless invulnerable) and is spent; a bolt still flying is spent on an obstacle. */
    method StrikeWithBolt(k: nat)
      requires k < |state.projectiles|
      modifies this
      ensures Snapshot() == BoltStep(old(Snapshot()), k)
    {
      var p := state.projectiles[k];
      if !p.isDead && CheckCollision(p.Bounds(), state.player.Bounds()) {
        if state.player.invulnerableTimer <= 0.0 {
          state := state.(player := state.player.(health := state.player.health - 1, invulnerableTimer := 2.0));
          if state.player.health <= 0 {
            state := state.(isGameOver := true);
          }
        }
        p := p.(isDead := true);
      }
      if !p.isDead {
        var hit := CollidesWithAny(ToRect(p.Bounds()), state.obstacles);
        if hit {
          p := p.(isDead := true);
        }
      }
      state := state.(projectiles := state.projectiles[k := p]);
    }

    /** The projectile moves by its velocity and is spent once off the board. */
    method FlyProjectile(k: nat, dt: real)
      requires k < |state.projectiles|
      modifies this
      ensures Snapshot() == old(Snapshot()).(state := old(state).(projectiles := old(state.projectiles)[k := Fly(old(state.projectiles[k]), dt)]))
    {
      var p := state.projectiles[k];
      p := p.(pos := Glide(p.pos, p.velocity, dt));
      if p.pos.x < 0.0 || p.pos.x > CANVAS_WIDTH || p.pos.y < 0.0 || p.pos.y > CANVAS_HEIGHT {
        p := p.(isDead := true);
      }
      state := state.(projectiles := state.projectiles[k := p]);
    }

    /** A live fireball explodes past its range, on an obstacle or on an enemy: it is spent and triggers the explosion. */
    method Detonate(k: nat)
      requires k < |state.projectiles|
      modifies this
      ensures Snapshot() == FireballStep(old(Snapshot()), k, root)
    {
      var p := state.projectiles[k];
      if !p.isDead {
        var explode := OutOfRange(p);
        if !explode {
          explode := CollidesWithAny(ToRect(p.Bounds()), state.obstacles);
        }
        if !explode {
          explode := OverlapsAnyEnemy(p.Bounds());
        }
        if explode {
          state := state.(projectiles := state.projectiles[k := p.(isDead := true)]);
          TriggerExplosion(p.pos);
        }
      }
    }

    /** The projectile forEach's body for projectile k. */
    method StepProjectile(k: nat, dt: real)
      requires k < |state.projectiles|
      modifies this
      ensures Snapshot() == ProjectileStep(old(Snapshot()), k, dt, root)
    {
      FlyProjectile(k, dt);
      match state.projectiles[k].kind {
        case Fireball => Detonate(k);
        case Shuriken => StrikeWithShuriken(k);
        case EnemyBolt => StrikeWithBolt(k);
      }
    }

    /** The projectile forEach. */
    method StepProjectiles(dt: real)
      modifies this
      ensures Snapshot() == ProjectileFold(old(Snapshot()), |old(state.projectiles)|, dt, root)
    {
      ghost var c0 := Snapshot();
      var n := |state.projectiles|;
      var k := 0;
      while k < n
        invariant 0 <= k <= n == |c0.state.projectiles|
        invariant Snapshot() == ProjectileFold(c0, k, dt, root)
      {
        ProjectileFoldNext(c0, k, dt, root);
        StepProjectile(k, dt);
        k := k + 1;
      }
    }

    /** The projectile forEach, then `filter(p => !p.isDead)`. */
    method FlyProjectiles(dt: real)
      modifies this
      ensures Snapshot() == Projectiles(old(Snapshot()), dt, root)
    {
      StepProjectiles(dt);
      ghost var c1 := Snapshot();
      state := state.(projectiles := Filter(state.projectiles, Flying));
      assert Snapshot() == c1.(state := c1.state.(projectiles := Filter(c1.state.projectiles, Flying)));
    }

    // -------------------------------------------------------------------
    // Fire zones.

    /** The fire-zone forEach's body for zone k. */
    method StepZone(k: nat, dt: real)
      requires k < |state.fireZones|
      modifies this
      ensures Snapshot() == ZoneStep(old(Snapshot()), k, dt)
    {
      var z := state.fireZones[k];
      z := z.(lifeTime := z.lifeTime - dt, tickTimer := z.tickTimer - dt);
      if z.tickTimer <= 0.0 {
        z := z.(tickTimer := FIRE_ZONE_TICK_RATE);
        var cx, cy := z.pos.x + z.size.w / 2.0, z.pos.y + z.size.h / 2.0;
        var es := state.enemies;
        var qs := es;
        var j := 0;
        while j < |es|
          invariant |qs| == |es| && 0 <= j <= |es|
          invariant forall m | 0 <= m < j :: qs[m] == Scorch(es[m], cx, cy)
          invariant forall m | j <= m < |es| :: qs[m] == es[m]
        {
          var e := qs[j];
          if e.health > 0 && Within((e.pos.x + 16.0) - cx, (e.pos.y + 16.0) - cy, EXPLOSION_RADIUS + 16.0) {
            qs := qs[j := e.(health := e.health - FIRE_ZONE_DAMAGE)];
          }
          j := j + 1;
        }
        assert qs == Scorched(es, cx, cy);
        state := state.(enemies := qs);
      }
      state := state.(fireZones := state.fireZones[k := z]);
    }

    /** The fire-zone forEach, then `filter(z => z.lifeTime > 0)`. */
    method BurnZones(dt: real)
      modifies this
      ensures Snapshot() == Zones(old(Snapshot()), dt)
    {
      ghost var c0 := Snapshot();
      var n := |state.fireZones|;
      var k := 0;
      while k < n
        invariant 0 <= k <= n == |c0.state.fireZones|
        invariant Snapshot() == ZoneFold(c0, k, dt)
      {
        StepZone(k, dt);
        k := k + 1;
      }
      state := state.(fireZones := Filter(state.fireZones, Burning));
    }
    // -------------------------------------------------------------------
    // Enemies.

    /** The player is struck: unless invulnerable, one health point, two seconds of invulnerability, game over at 0. */
    method StrikePlayer()
      modifies this
      ensures Snapshot() == old(Snapshot()).(state := HitPlayer(old(state)))
    {
      if state.player.invulnerableTimer <= 0.0 {
        state := state.(player := state.player.(health := state.player.health - 1, invulnerableTimer := 2.0));
        if state.player.health <= 0 {
          state := state.(isGameOver := true);
        }
      }
    }

    /** The forEach body for an enemy at 0 health or below. */
    method ExpireEnemy(k: nat, dt: real)
      requires k < |state.enemies| && state.enemies[k].health <= 0
      modifies this
      ensures Snapshot() == Expire(old(Snapshot()), k, dt)
    {
      var e0 := state.enemies[k];
      var t := DeathCountdown(e0.deathTimer, dt);
      var e := e0.(deathTimer := Some(t));
      if t <= 0.0 {
        e := e.(isDead := true);
        state := state.(score := state.score + 10);
        GenerateId();
        state := state.(pickups := state.pickups + [Drop(e0)]);
      }
      state := state.(enemies := state.enemies[k := e]);
    }

    /**
     * Guards swing and lunge, vampires fire at a player they can see; the
     * result is the enemy after it and the walking speed it leaves.
     */
    method EngageEnemy(e0: Enemy, dt: real) returns (e: Enemy, speed: real)
      modifies this
      ensures Behaviour(e, Snapshot(), speed) == Engage(e0, old(Snapshot()), dt, root)
    {
      var dx, dy := state.player.pos.x - e0.pos.x, state.player.pos.y - e0.pos.y;
      e := e0;
      match e.kind {
        case Guard =>
          if Within(dx, dy, 70.0) && e.attackTimer <= 0.0 {
            e := e.(swingTimer := 0.3, attackTimer := 1.5);
            StrikePlayer();
          }
          if e.lungeTimer > 0.0 {
            e := e.(lungeTimer := e.lungeTimer - dt);
            speed := ENEMY_LUNGE_SPEED;
          } else {
            speed := ENEMY_SPEED;
            if Beyond(dx, dy, 70.0) && Within(dx, dy, ENEMY_LUNGE_RANGE) && e.lungeCooldown <= 0.0 {
              e := e.(lungeTimer := ENEMY_LUNGE_DURATION, lungeCooldown := ENEMY_LUNGE_COOLDOWN);
            }
          }
        case Vampire =>
          speed := VAMPIRE_SPEED;
          if e.attackTimer <= 0.0 && Within(dx, dy, 500.0) {
            var a, b := Centre(e.pos), Centre(state.player.pos);
            var clear := HasLineOfSight(a, b, SightSteps(a, b, root), state.obstacles);
            if clear {
              var bolt := VampireBolt(e, state, root);
              e := e.(attackTimer := VAMPIRE_ATTACK_COOLDOWN);
              state := state.(projectiles := state.projectiles + [bolt]);
              GenerateId();
            }
          }
      }
    }

    /**
     * Unless lunging, the route timer runs down; when it runs out, findPath
     * is asked for a route to the player (the ghost result, which meets
     * findPath's contract) and the timer restarts with one draw.
     */
    method RepathEnemy(e0: Enemy, dt: real) returns (e: Enemy, ghost found: Option<seq<Vec2>>)
      requires WellShaped(grid)
      modifies this
      ensures (e, Snapshot()) == Repath(e0, old(Snapshot()), found, dt)
      ensures found.Some? ==> PathContract(e0.pos, state.player.pos, grid, found.value)
    {
      e := e0;
      found := None;
      if e.lungeTimer <= 0.0 {
        e := e.(pathTimer := e.pathTimer - dt);
        if e.pathTimer <= 0.0 {
          var path := FindPath(e.pos, state.player.pos, grid);
          found := Some(path);
          var (u, g) := Next(rng);
          rng := g;
          e := e.(path := path, pathTimer := 0.5 + u * 0.5);
        }
      }
    }

    /**
     * The enemy forEach's body for enemy k. The route findPath returned, if
     * the enemy asked for one, is the ghost result; it meets findPath's
     * contract for the enemy's and the player's positions.
     */
    method StepEnemy(k: nat, dt: real) returns (ghost found: Option<seq<Vec2>>)
      requires k < |state.enemies| && WellShaped(grid)
      modifies this
      ensures Snapshot() == EnemyStep(old(Snapshot()), k, found, dt, root)
      ensures found.Some? ==> PathContract(old(state.enemies[k].pos), old(state.player.pos), grid, found.value)
    {
      if state.enemies[k].health <= 0 {
        found := None;
        ExpireEnemy(k, dt);
      } else {
        found := ActEnemy(k, dt);
      }
    }

    /** The enemy forEach's body for a living enemy k: timers, engagement, route, walk. */
    method ActEnemy(k: nat, dt: real) returns (ghost found: Option<seq<Vec2>>)
      requires k < |state.enemies| && WellShaped(grid)
      modifies this
      ensures Snapshot() == Act(old(Snapshot()), k, found, dt, root)
      ensures found.Some? ==> PathContract(old(state.enemies[k].pos), old(state.player.pos), grid, found.value)
    {
      ghost var c0 := Snapshot();
      var e0 := state.enemies[k];
      var dx, dy := state.player.pos.x - e0.pos.x, state.player.pos.y - e0.pos.y;
      var e, speed := EngageEnemy(Rested(e0, dt), dt);
      ghost var b := Engage(Rested(e0, dt), c0, dt, root);
      assert e == b.e && Snapshot() == b.c && speed == b.speed;
      e, found := RepathEnemy(e, dt);
      e := Advance(e, dx, dy, speed, dt, state.obstacles, root);
      state := state.(enemies := state.enemies[k := e]);
    }

    /** The enemy forEach; the ghost result holds the routes found. */
    method StepEnemies(dt: real) returns (ghost found: seq<Option<seq<Vec2>>>)
      requires WellShaped(grid)
      modifies this
      ensures |found| == |old(state.enemies)|
      ensures Snapshot() == EnemyFold(old(Snapshot()), found, dt, root)
      ensures forall k | 0 <= k < |found| :: found[k].Some? ==>
                PathContract(old(state.enemies[k].pos), old(state.player.pos), grid, found[k].value)
    {
      ghost var c0 := Snapshot();
      found := [];
      var n := |state.enemies|;
      var k := 0;
      while k < n
        invariant 0 <= k <= n == |c0.state.enemies| && |found| == k
        invariant Snapshot() == EnemyFold(c0, found, dt, root)
        invariant forall m | 0 <= m < k :: found[m].Some? ==>
                    PathContract(c0.state.enemies[m].pos, c0.state.player.pos, c0.grid, found[m].value)
      {
        assert state.enemies[k] == c0.state.enemies[k];
        ghost var f := StepEnemy(k, dt);
        EnemyFoldNext(c0, found, f, dt, root);
        found := found + [f];
        k := k + 1;
      }
    }

    /** The enemy forEach, then `filter(e => !e.isDead)`; the ghost result holds the routes found. */
    method MoveEnemies(dt: real) returns (ghost found: seq<Option<seq<Vec2>>>)
      requires WellShaped(grid)
      modifies this
      ensures |found| == |old(state.enemies)|
      ensures Snapshot() == Enemies(old(Snapshot()), found, dt, root)
      ensures forall k | 0 <= k < |found| :: found[k].Some? ==>
                PathContract(old(state.enemies[k].pos), old(state.player.pos), grid, found[k].value)
    {
      found := StepEnemies(dt);
      ghost var c1 := Snapshot();
      state := state.(enemies := Filter(state.enemies, Alive));
      assert Snapshot() == c1.(state := c1.state.(enemies := Filter(c1.state.enemies, Alive)));
    }

    // -------------------------------------------------------------------
    // Experience orbs and particles.

    /** The pickup forEach's body for orb k; a level gained is reported with a copy of the world. */
    method StepPickup(k: nat, dt: real) returns (levelUp: Option<GameState>)
      requires k < |state.pickups|
      modifies this
      ensures (Snapshot(), levelUp) == PickupStep(old(Snapshot()), k, dt, root)
    {
      var p := Attract(state.pickups[k], state.player, dt, root);
      levelUp := None;
      if CheckCollision(p.Bounds(), state.player.Bounds()) {
        p := p.(isDead := true);
        state := state.(pickups := state.pickups[k := p]);
        var pl := state.player.(xp := state.player.xp + OrbValue(p.value));
        if pl.xp >= pl.maxXp {
          pl := pl.(xp := pl.xp - pl.maxXp, level := pl.level + 1, maxXp := ((pl.maxXp as real) * 1.5).Floor);
          state := state.(player := pl);
          levelUp := Some(state);
        } else {
          state := state.(player := pl);
        }
      } else {
        state := state.(pickups := state.pickups[k := p]);
      }
    }

    /** The pickup forEach; the results are the onLevelUp snapshots in order. */
    method StepPickups(dt: real) returns (levelUps: seq<GameState>)
      modifies this
      ensures (Snapshot(), levelUps) == PickupFold(old(Snapshot()), |old(state.pickups)|, dt, root)
    {
      ghost var c0 := Snapshot();
      levelUps := [];
      var n := |state.pickups|;
      var k := 0;
      while k < n
        invariant 0 <= k <= n == |c0.state.pickups|
        invariant (Snapshot(), levelUps) == PickupFold(c0, k, dt, root)
      {
        PickupFoldNext(c0, k, dt, root);
        var up := StepPickup(k, dt);
        levelUps := if up.Some? then levelUps + [up.value] else levelUps;
        k := k + 1;
      }
    }

    /** The pickup forEach, then `filter(p => !p.isDead)`; the results are the onLevelUp snapshots in order. */
    method CollectPickups(dt: real) returns (levelUps: seq<GameState>)
      modifies this
      ensures (Snapshot(), levelUps) == Pickups(old(Snapshot()), dt, root)
    {
      levelUps := StepPickups(dt);
      ghost var c1 := Snapshot();
      state := state.(pickups := Filter(state.pickups, Uncollected));
      assert Snapshot() == c1.(state := c1.state.(pickups := Filter(c1.state.pickups, Uncollected)));
    }

    /** The particle forEach (age and drift), then `filter(p => p.lifeTime > 0)`. */
    method AgeParticles(dt: real)
      modifies this
      ensures Snapshot() == Particles(old(Snapshot()), dt)
    {
      var ps := state.particles;
      var qs := ps;
      var j := 0;
      while j < |ps|
        invariant |qs| == |ps| && 0 <= j <= |ps|
        invariant forall m | 0 <= m < j :: qs[m] == Age(ps[m], dt)
        invariant forall m | j <= m < |ps| :: qs[m] == ps[m]
      {
        var p := qs[j];
        p := p.(lifeTime := p.lifeTime - dt);
        p := p.(pos := Vec2(p.pos.x + p.velocity.x * dt, p.pos.y + p.velocity.y * dt));
        qs := qs[j := p];
        j := j + 1;
      }
      assert qs == Aged(ps, dt);
      state := state.(particles := Filter(qs, Glowing));
    }

    // -------------------------------------------------------------------
    // The frame.

    /**
     * `update(dt)`: the phases in order. The results are the snapshot
     * handed to onLevelComplete, if the latch fired, and those handed to
     * onLevelUp; the ghost result holds the routes findPath returned.
     * The frame keeps the invariant.
     */
    method Update(i: InputState, dt: real) returns (levelComplete: Option<GameState>, levelUps: seq<GameState>,
                                                    ghost found: seq<Option<seq<Vec2>>>)
      requires Valid()
      modifies this
      ensures |found| == |old(state.enemies)|
      ensures Outcome(Snapshot(), levelComplete, levelUps) == Frame(old(Snapshot()), i, dt, found, root)
      ensures Valid()
    {
      levelComplete := Prelude(dt);
      Cooldowns(dt);
      BladeCast(i);
      var nP := Move(i, dt);
      Dash(i);
      Settle(nP);
      Melee(i, dt);
      FireballCast(i);
      ShurikenThrow(i, dt);
      FlyProjectiles(dt);
      BurnZones(dt);
      found := MoveEnemies(dt);
      levelUps := CollectPickups(dt);
      AgeParticles(dt);
      FrameKeepsLive(old(Snapshot()), i, dt, found, root);
    }

    /**
     * One tick of the animation loop: nothing happens while the game is
     * over or paused; otherwise the frame runs.
     */
    method AnimationFrame(paused: bool, i: InputState, dt: real) returns (levelComplete: Option<GameState>, levelUps: seq<GameState>)
      requires Valid()
      modifies this
      ensures Valid()
      ensures old(state.isGameOver) || paused ==> Snapshot() == old(Snapshot()) && levelComplete == None && levelUps == []
      ensures !old(state.isGameOver) && !paused ==>
                exists found | |found| == |old(state.enemies)| ::
                  Outcome(Snapshot(), levelComplete, levelUps) == Frame(old(Snapshot()), i, dt, found, root)
    {
      if state.isGameOver || paused {
        return None, [];
      }
      ghost var found;
      levelComplete, levelUps, found := Update(i, dt);
    }
  }
}

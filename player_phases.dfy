/**
 * The player-side phases of one frame (components/GameCanvas.tsx, update,
 * from chakra regeneration to the shuriken throw), each as a function of the
 * canvas state before it. The forEach sweeps over the enemies are folds
 * over the enemy index; the component's loops are proved equal to them
 * in the Simulation module.
 */
module PlayerPhases {
  import opened Types
  import opened Constants
  import opened Collision
  import opened Rules
  import opened CanvasState

  // ---------------------------------------------------------------------
  // Regeneration and the wave-clear latch.

  /**
   * Chakra regenerates, then the latch steps; when it fires, the second
   * component is the snapshot handed to onLevelComplete: the world as it is
   * at that point, with the wave number one higher.
   */
  function Prelude(c: Canvas, dt: real): (r: (Canvas, Option<GameState>))
    ensures r.0 == c.(state := c.state.(player := Regen(c.state.player, dt)), transition := r.0.transition)
    ensures r.1.Some? <==> StepTransition(c.transition, |c.state.enemies|, c.state.isGameOver, dt).1
    ensures r.1.Some? ==> r.1.value == r.0.state.(wave := c.state.wave + 1)
    ensures r.1.Some? ==> |c.state.enemies| == 0 || c.transition.pending
    ensures Keeps(c, r.0)
  {
    var s := c.state.(player := Regen(c.state.player, dt));
    var (t, fired) := StepTransition(c.transition, |s.enemies|, s.isGameOver, dt);
    (c.(state := s, transition := t), if fired then Some(s.(wave := s.wave + 1)) else None)
  }

  // ---------------------------------------------------------------------
  // Cooldowns.

  /**
   * The dash, blade and invulnerability timers run down while positive; the
   * fireball cooldown runs down to 0 and no further; the world's two HUD
   * cooldowns mirror the fireball and blade refs.
   */
  function Cooldowns(c: Canvas, dt: real): (r: Canvas)
    ensures c.fireballCooldown >= 0.0 ==> r.fireballCooldown >= 0.0
    ensures c.fireballCooldown > 0.0 && dt >= 0.0 ==> r.fireballCooldown <= c.fireballCooldown
    ensures r.state.fireballCooldown == r.fireballCooldown && r.state.lightningBladeCooldown == r.bladeCooldown
    ensures r.state.player == c.state.player.(invulnerableTimer := Tick(c.state.player.invulnerableTimer, dt))
    ensures r == c.(dashCooldown := Tick(c.dashCooldown, dt), dashTime := Tick(c.dashTime, dt),
                    bladeCooldown := Tick(c.bladeCooldown, dt), bladeTime := Tick(c.bladeTime, dt),
                    fireballCooldown := r.fireballCooldown, state := r.state)
    ensures r.state == c.state.(player := r.state.player, fireballCooldown := r.fireballCooldown,
                                lightningBladeCooldown := r.bladeCooldown)
    ensures Keeps(c, r)
  {
    var fb := if c.fireballCooldown > 0.0 then Max(0.0, c.fireballCooldown - dt) else c.fireballCooldown;
    var blade := Tick(c.bladeCooldown, dt);
    var p := c.state.player.(invulnerableTimer := Tick(c.state.player.invulnerableTimer, dt));
    c.(dashCooldown := Tick(c.dashCooldown, dt), dashTime := Tick(c.dashTime, dt),
       bladeCooldown := blade, bladeTime := Tick(c.bladeTime, dt), fireballCooldown := fb,
       state := c.state.(player := p, fireballCooldown := fb, lightningBladeCooldown := blade))
  }

  // ---------------------------------------------------------------------
  // The lightning blade.

  /**
   * Casting the blade pays its chakra, restarts its cooldown, starts a
   * 0.15 s rush along the heading at LIGHTNING_BLADE_SPEED and makes the
   * player invulnerable for 0.25 s. Nothing changes when the cast fails.
   */
  function BladeCast(c: Canvas, i: InputState, root: real -> real): (r: Canvas)
    ensures !CastBlade(i.skill1, c.bladeCooldown, c.state.player.chakra).fired ==> r == c
    ensures CastBlade(i.skill1, c.bladeCooldown, c.state.player.chakra).fired ==>
              r.bladeTime == LIGHTNING_BLADE_DURATION && r.bladeCooldown == LIGHTNING_BLADE_COOLDOWN &&
              r.state.player.chakra.Some? &&
              r.state.player.chakra.value == c.state.player.chakra.value - LIGHTNING_BLADE_COST &&
              r.state.player.invulnerableTimer == LIGHTNING_BLADE_DURATION + 0.1 &&
              r.bladeVelocity == Scale(NormalizeIfPositive(Heading(i, c.facing), root), LIGHTNING_BLADE_SPEED)
    ensures r == c.(bladeCooldown := r.bladeCooldown, bladeTime := r.bladeTime, bladeVelocity := r.bladeVelocity,
                    state := c.state.(player := c.state.player.(chakra := r.state.player.chakra,
                                                                invulnerableTimer := r.state.player.invulnerableTimer)))
    ensures Keeps(c, r)
  {
    var cast := CastBlade(i.skill1, c.bladeCooldown, c.state.player.chakra);
    if cast.fired then
      var h := NormalizeIfPositive(Heading(i, c.facing), root);
      c.(bladeCooldown := cast.cooldown, bladeTime := LIGHTNING_BLADE_DURATION,
         bladeVelocity := Scale(h, LIGHTNING_BLADE_SPEED),
         state := c.state.(player := c.state.player.(chakra := cast.chakra,
                                                     invulnerableTimer := LIGHTNING_BLADE_DURATION + 0.1)))
    else c
  }

  /** The player's box at the rushing position nP overlaps the enemy. */
  predicate BladeTouches(nP: Vec2, size: Size, e: Enemy)
  {
    CheckCollision(Box(nP, size), e.Bounds())
  }

  /** What the rush does to one enemy: LIGHTNING_BLADE_DAMAGE if touched. */
  function BladeStruck(e: Enemy, nP: Vec2, size: Size): Enemy
  {
    if BladeTouches(nP, size, e) then e.(health := e.health - LIGHTNING_BLADE_DAMAGE) else e
  }

  /** How many of es the rush touches. */
  function Touched(es: seq<Enemy>, nP: Vec2, size: Size): nat
  {
    if es == [] then 0
    else Touched(es[..|es| - 1], nP, size) + (if BladeTouches(nP, size, es[|es| - 1]) then 1 else 0)
  }

  /** The sweep's step for enemy j: damage it and spawn 8 sparks at it when touched. */
  function BladeStrike(c: Canvas, nP: Vec2, j: nat): (r: Canvas)
    requires j < |c.state.enemies|
    ensures r == c.(state := c.state.(enemies := r.state.enemies, particles := r.state.particles), rng := r.rng)
    ensures r.state.enemies == c.state.enemies[j := BladeStruck(c.state.enemies[j], nP, c.state.player.size)]
    ensures |r.state.particles| == |c.state.particles| + (if BladeTouches(nP, c.state.player.size, c.state.enemies[j]) then 8 else 0)
  {
    var e := c.state.enemies[j];
    if BladeTouches(nP, c.state.player.size, e) then
      Spawn(c.(state := c.state.(enemies := c.state.enemies[j := BladeStruck(e, nP, c.state.player.size)])), e.pos, 8)
    else c
  }

  /** The forEach over the first k enemies. */
  function BladeSweep(c: Canvas, nP: Vec2, k: nat): (r: Canvas)
    requires k <= |c.state.enemies|
    ensures |r.state.enemies| == |c.state.enemies|
    ensures r == c.(state := c.state.(enemies := r.state.enemies, particles := r.state.particles), rng := r.rng)
    decreases k
  {
    if k == 0 then c else BladeStrike(BladeSweep(c, nP, k - 1), nP, k - 1)
  }

  /** One more enemy of the rush's forEach. */
  lemma BladeSweepNext(c: Canvas, nP: Vec2, k: nat)
    requires k < |c.state.enemies|
    ensures BladeSweep(c, nP, k + 1) == BladeStrike(BladeSweep(c, nP, k), nP, k)
  {
  }

  /**
   * After the sweep over the first k enemies, exactly those that the rush
   * touches have lost LIGHTNING_BLADE_DAMAGE and the rest are untouched, and
   * eight sparks were spawned per enemy touched.
   */
  lemma {:induction false} BladeSweepEffect(c: Canvas, nP: Vec2, k: nat)
    requires k <= |c.state.enemies|
    ensures forall j | 0 <= j < k ::
              BladeSweep(c, nP, k).state.enemies[j] == BladeStruck(c.state.enemies[j], nP, c.state.player.size)
    ensures forall j | k <= j < |c.state.enemies| :: BladeSweep(c, nP, k).state.enemies[j] == c.state.enemies[j]
    ensures |BladeSweep(c, nP, k).state.particles| ==
            |c.state.particles| + 8 * Touched(c.state.enemies[..k], nP, c.state.player.size)
  {
    if k > 0 {
      BladeSweepEffect(c, nP, k - 1);
      BladeNext(c.state, BladeSweep(c, nP, k - 1).state, BladeSweep(c, nP, k).state, nP, k);
    }
  }

  /** The rush's effect over k enemies from its effect over k - 1 and the step of enemy k - 1. */
  lemma BladeNext(s: GameState, p: GameState, r: GameState, nP: Vec2, k: nat)
    requires 0 < k <= |s.enemies| == |p.enemies| && p.player.size == s.player.size
    requires forall j | 0 <= j < k - 1 :: p.enemies[j] == BladeStruck(s.enemies[j], nP, s.player.size)
    requires forall j | k - 1 <= j < |s.enemies| :: p.enemies[j] == s.enemies[j]
    requires |p.particles| == |s.particles| + 8 * Touched(s.enemies[..k - 1], nP, s.player.size)
    requires r.enemies == p.enemies[k - 1 := BladeStruck(p.enemies[k - 1], nP, p.player.size)]
    requires |r.particles| == |p.particles| + (if BladeTouches(nP, p.player.size, p.enemies[k - 1]) then 8 else 0)
    ensures forall j | 0 <= j < k :: r.enemies[j] == BladeStruck(s.enemies[j], nP, s.player.size)
    ensures forall j | k <= j < |s.enemies| :: r.enemies[j] == s.enemies[j]
    ensures |r.particles| == |s.particles| + 8 * Touched(s.enemies[..k], nP, s.player.size)
  {
    assert s.enemies[..k][..k - 1] == s.enemies[..k - 1];
  }

  // ---------------------------------------------------------------------
  // Movement.

  /**
   * The target position of the player this frame, and the state after
   * choosing it: during the blade rush, the rush step (sweeping the enemies
   * it passes); during a dash, the dash step; otherwise the walk, which
   * also turns the player.
   */
  function Move(c: Canvas, i: InputState, dt: real, root: real -> real): (r: (Canvas, Vec2))
    ensures c.bladeTime > 0.0 ==>
              r == (BladeSweep(c, r.1, |c.state.enemies|), Glide(c.state.player.pos, c.bladeVelocity, dt))
    ensures c.bladeTime <= 0.0 && c.dashTime > 0.0 ==> r == (c, Glide(c.state.player.pos, c.dashVelocity, dt))
    ensures c.bladeTime <= 0.0 && c.dashTime <= 0.0 ==> r.0 == c.(facing := NextFacing(c.facing, KeyDirection(i)))
    ensures c.bladeTime <= 0.0 && c.dashTime <= 0.0 && KeyDirection(i) == Vec2(0.0, 0.0) ==>
              r == (c, c.state.player.pos)
    ensures Keeps(c, r.0)
  {
    var pos := c.state.player.pos;
    if c.bladeTime > 0.0 then
      var nP := Glide(pos, c.bladeVelocity, dt);
      (BladeSweep(c, nP, |c.state.enemies|), nP)
    else if c.dashTime > 0.0 then
      (c, Glide(pos, c.dashVelocity, dt))
    else
      Walk(c, i, dt, root)
  }

  /**
   * The walk: the player turns to the keys' direction, and the target is
   * the normalised key direction at PLAYER_SPEED times the speed factor;
   * with no key held the player neither turns nor moves.
   */
  function Walk(c: Canvas, i: InputState, dt: real, root: real -> real): (r: (Canvas, Vec2))
    ensures r.0 == c.(facing := NextFacing(c.facing, KeyDirection(i)))
    ensures KeyDirection(i) == Vec2(0.0, 0.0) ==> r == (c, c.state.player.pos)
  {
    var pos := c.state.player.pos;
    var k := KeyDirection(i);
    var m := NormalizeWalk(k, root);
    var f := SpeedFactor(c.state.player.speedMult);
    assert k == Vec2(0.0, 0.0) ==> m.x == 0.0 && m.y == 0.0 && NextFacing(c.facing, k) == c.facing;
    assert k == Vec2(0.0, 0.0) ==> c.(facing := NextFacing(c.facing, k)) == c;
    assert k == Vec2(0.0, 0.0) ==>
             Vec2(pos.x + m.x * PLAYER_SPEED * f * dt, pos.y + m.y * PLAYER_SPEED * f * dt) == Vec2(pos.x, pos.y) == pos;
    (c.(facing := NextFacing(c.facing, k)),
     Vec2(pos.x + m.x * PLAYER_SPEED * f * dt, pos.y + m.y * PLAYER_SPEED * f * dt))
  }

  /**
   * Starting a dash: the heading at PLAYER_DASH_SPEED for DASH_DURATION, a
   * cooldown of DASH_COOLDOWN plus the player's modifier, and ten sparks.
   */
  function Dash(c: Canvas, i: InputState, root: real -> real): (r: Canvas)
    ensures !DashReady(i.dash, c.dashCooldown, c.dashTime, c.bladeTime) ==> r == c
    ensures DashReady(i.dash, c.dashCooldown, c.dashTime, c.bladeTime) ==>
              r == Spawn(c.(dashVelocity := Scale(NormalizeIfPositive(Heading(i, c.facing), root), PLAYER_DASH_SPEED),
                            dashTime := DASH_DURATION,
                            dashCooldown := DASH_COOLDOWN + c.state.player.dashCooldownMod),
                         c.state.player.pos, 10)
    ensures Keeps(c, r)
  {
    if DashReady(i.dash, c.dashCooldown, c.dashTime, c.bladeTime) then
      var h := NormalizeIfPositive(Heading(i, c.facing), root);
      Spawn(c.(dashVelocity := Scale(h, PLAYER_DASH_SPEED), dashTime := DASH_DURATION,
               dashCooldown := DASH_COOLDOWN + c.state.player.dashCooldownMod),
            c.state.player.pos, 10)
    else c
  }

  /** A dash never starts while the blade rush is running, nor during another dash. */
  lemma NoDashDuringRush(c: Canvas, i: InputState, root: real -> real)
    requires c.bladeTime > 0.0 || c.dashTime > 0.0
    ensures Dash(c, i, root) == c
  {
  }

  /** The player takes the resolved position. */
  function Settle(c: Canvas, nP: Vec2): (r: Canvas)
    ensures r == c.(state := c.state.(player := c.state.player.(pos := r.state.player.pos)))
    ensures r.state.player.pos == Resolve(c.state.player.pos, nP, c.state.player.size, c.state.obstacles)
  {
    var p := c.state.player;
    c.(state := c.state.(player := p.(pos := Resolve(p.pos, nP, p.size, c.state.obstacles))))
  }

  // ---------------------------------------------------------------------
  // The sword.

  /** The offset from the player's centre to the enemy's centre. */
  function MeleeOffset(e: Enemy, p: Vec2): Vec2
  {
    Vec2((e.pos.x + 16.0) - (p.x + 16.0), (e.pos.y + 16.0) - (p.y + 16.0))
  }

  /** The sword facing f from the player at p reaches e. */
  predicate MeleeReaches(e: Enemy, p: Vec2, f: Vec2)
  {
    MeleeHits(MeleeOffset(e, p).x, MeleeOffset(e, p).y, f)
  }

  /** A reached enemy loses one health point and is knocked back 60 pixels along the offset. */
  function MeleeStruck(e: Enemy, p: Vec2, f: Vec2, root: real -> real): (r: Enemy)
    ensures MeleeReaches(e, p, f) ==> r.health == e.health - 1
    ensures !MeleeReaches(e, p, f) ==> r == e
    ensures r == e.(health := r.health, pos := r.pos)
  {
    if MeleeReaches(e, p, f) then
      var o := MeleeOffset(e, p);
      var d := root(o.x * o.x + o.y * o.y);
      e.(health := e.health - 1, pos := Vec2(e.pos.x + Div(o.x, d) * 60.0, e.pos.y + Div(o.y, d) * 60.0))
    else e
  }

  /** How many of es the sword reaches. */
  function Reached(es: seq<Enemy>, p: Vec2, f: Vec2): nat
  {
    if es == [] then 0
    else Reached(es[..|es| - 1], p, f) + (if MeleeReaches(es[|es| - 1], p, f) then 1 else 0)
  }

  /** The swing's step for enemy j: strike it and spawn five sparks where it lands. */
  function MeleeStrike(c: Canvas, f: Vec2, root: real -> real, j: nat): (r: Canvas)
    requires j < |c.state.enemies|
    ensures r == c.(state := c.state.(enemies := r.state.enemies, particles := r.state.particles), rng := r.rng)
    ensures r.state.enemies == c.state.enemies[j := MeleeStruck(c.state.enemies[j], c.state.player.pos, f, root)]
    ensures |r.state.particles| == |c.state.particles| + (if MeleeReaches(c.state.enemies[j], c.state.player.pos, f) then 5 else 0)
  {
    var e := c.state.enemies[j];
    if MeleeReaches(e, c.state.player.pos, f) then
      var e1 := MeleeStruck(e, c.state.player.pos, f, root);
      Spawn(c.(state := c.state.(enemies := c.state.enemies[j := e1])), e1.pos, 5)
    else c
  }

  /** The swing's forEach over the first k enemies. */
  function MeleeSweep(c: Canvas, f: Vec2, root: real -> real, k: nat): (r: Canvas)
    requires k <= |c.state.enemies|
    ensures |r.state.enemies| == |c.state.enemies|
    ensures r == c.(state := c.state.(enemies := r.state.enemies, particles := r.state.particles), rng := r.rng)
    decreases k
  {
    if k == 0 then c else MeleeStrike(MeleeSweep(c, f, root, k - 1), f, root, k - 1)
  }

  /** One more enemy of the swing's forEach. */
  lemma MeleeSweepNext(c: Canvas, f: Vec2, root: real -> real, k: nat)
    requires k < |c.state.enemies|
    ensures MeleeSweep(c, f, root, k + 1) == MeleeStrike(MeleeSweep(c, f, root, k), f, root, k)
  {
  }

  /**
   * After the swing over the first k enemies, exactly the reached ones
   * have been struck and the rest are untouched, and five sparks were
   * spawned per enemy reached.
   */
  lemma {:induction false} MeleeSweepEffect(c: Canvas, f: Vec2, root: real -> real, k: nat)
    requires k <= |c.state.enemies|
    ensures forall j | 0 <= j < k ::
              MeleeSweep(c, f, root, k).state.enemies[j] == MeleeStruck(c.state.enemies[j], c.state.player.pos, f, root)
    ensures forall j | k <= j < |c.state.enemies| :: MeleeSweep(c, f, root, k).state.enemies[j] == c.state.enemies[j]
    ensures |MeleeSweep(c, f, root, k).state.particles| ==
            |c.state.particles| + 5 * Reached(c.state.enemies[..k], c.state.player.pos, f)
  {
    if k > 0 {
      MeleeSweepEffect(c, f, root, k - 1);
      MeleeNext(c.state, MeleeSweep(c, f, root, k - 1).state, MeleeSweep(c, f, root, k).state, f, root, k);
    }
  }

  /** The swing's effect over k enemies from its effect over k - 1 and the step of enemy k - 1. */
  lemma MeleeNext(s: GameState, p: GameState, r: GameState, f: Vec2, root: real -> real, k: nat)
    requires 0 < k <= |s.enemies| == |p.enemies| && p.player.pos == s.player.pos
    requires forall j | 0 <= j < k - 1 :: p.enemies[j] == MeleeStruck(s.enemies[j], s.player.pos, f, root)
    requires forall j | k - 1 <= j < |s.enemies| :: p.enemies[j] == s.enemies[j]
    requires |p.particles| == |s.particles| + 5 * Reached(s.enemies[..k - 1], s.player.pos, f)
    requires r.enemies == p.enemies[k - 1 := MeleeStruck(p.enemies[k - 1], p.player.pos, f, root)]
    requires |r.particles| == |p.particles| + (if MeleeReaches(p.enemies[k - 1], p.player.pos, f) then 5 else 0)
    ensures forall j | 0 <= j < k :: r.enemies[j] == MeleeStruck(s.enemies[j], s.player.pos, f, root)
    ensures forall j | k <= j < |s.enemies| :: r.enemies[j] == s.enemies[j]
    ensures |r.particles| == |s.particles| + 5 * Reached(s.enemies[..k], s.player.pos, f)
  {
    assert s.enemies[..k][..k - 1] == s.enemies[..k - 1];
  }

  /** The attack cooldown runs down; a ready attack restarts it at 0.5 s and swings along the facing. */
  function Melee(c: Canvas, i: InputState, dt: real, root: real -> real): (r: Canvas)
    ensures i.attack && Tick(c.attackCooldown, dt) <= 0.0 ==>
              r == MeleeSweep(c.(attackCooldown := 0.5), FacingVector(c.facing), root, |c.state.enemies|)
    ensures !(i.attack && Tick(c.attackCooldown, dt) <= 0.0) ==> r == c.(attackCooldown := Tick(c.attackCooldown, dt))
    ensures Keeps(c, r)
  {
    var cd := Tick(c.attackCooldown, dt);
    if i.attack && cd <= 0.0 then
      MeleeSweep(c.(attackCooldown := 0.5), FacingVector(c.facing), root, |c.state.enemies|)
    else c.(attackCooldown := cd)
  }

  // ---------------------------------------------------------------------
  // Fireball and shuriken.

  /** The unit aim from `from` towards `to`, or (1, 0) when they coincide. */
  function Aim(from: Vec2, to: Vec2, root: real -> real): (dir: Vec2)
    ensures to == from ==> dir == Vec2(1.0, 0.0)
  {
    var dx := to.x - from.x;
    var dy := to.y - from.y;
    if dx * dx + dy * dy > 0.0 then
      var d := root(dx * dx + dy * dy);
      Vec2(Div(dx, d), Div(dy, d))
    else Vec2(1.0, 0.0)
  }

  /** The fireball launched from the player's centre pc towards the mouse. */
  function FireballShot(pc: Vec2, mouse: Vec2, root: real -> real): Projectile
  {
    Projectile(Fireball, Vec2(pc.x - 10.0, pc.y - 10.0), Size(20.0, 20.0),
               Scale(Aim(pc, mouse, root), FIREBALL_SPEED), 1, 1, false, Some(pc))
  }

  /**
   * Casting the fireball pays FIREBALL_COST, restarts the cooldown, adds one
   * fireball that remembers its start point, and spawns ten sparks.
   */
  function FireballCast(c: Canvas, i: InputState, root: real -> real): (r: Canvas)
    ensures !CastFireball(i.special, c.fireballCooldown, c.state.player.chakra, c.state.player.fireballCooldownMod).fired ==>
              r == c
    ensures CastFireball(i.special, c.fireballCooldown, c.state.player.chakra, c.state.player.fireballCooldownMod).fired ==>
              r.state.projectiles == c.state.projectiles + [FireballShot(Centre(c.state.player.pos), i.mousePos, root)] &&
              r.state.player.chakra == Some(c.state.player.chakra.value - FIREBALL_COST) &&
              r.fireballCooldown == FIREBALL_COOLDOWN + c.state.player.fireballCooldownMod &&
              |r.state.particles| == |c.state.particles| + 10
    ensures Keeps(c, r)
  {
    var p := c.state.player;
    var cast := CastFireball(i.special, c.fireballCooldown, p.chakra, p.fireballCooldownMod);
    if cast.fired then
      var ball := FireballShot(Centre(p.pos), i.mousePos, root);
      var c1 := FreshId(c.(fireballCooldown := cast.cooldown,
                           state := c.state.(player := p.(chakra := cast.chakra),
                                             projectiles := c.state.projectiles + [ball])));
      Spawn(c1, c1.state.player.pos, 10)
    else c
  }

  /** The shuriken thrown from the player's centre pc towards the mouse. */
  function ShurikenShot(pc: Vec2, mouse: Vec2, root: real -> real): Projectile
  {
    Projectile(Shuriken, Vec2(pc.x - 4.0, pc.y - 4.0), Size(8.0, 8.0),
               Scale(Aim(pc, mouse, root), PROJECTILE_SPEED), 1, 1, false, None)
  }

  /** The shoot cooldown runs down; a ready throw with ammo uses one shuriken and adds one projectile. */
  function ShurikenThrow(c: Canvas, i: InputState, dt: real, root: real -> real): (r: Canvas)
    ensures ThrowShuriken(i.shoot, Tick(c.shootCooldown, dt), c.state.shurikens).fired ==>
              r.state.projectiles == c.state.projectiles + [ShurikenShot(Centre(c.state.player.pos), i.mousePos, root)] &&
              r.state.shurikens == c.state.shurikens - 1 && r.state.shurikens >= 0 && r.shootCooldown == 0.3
    ensures !ThrowShuriken(i.shoot, Tick(c.shootCooldown, dt), c.state.shurikens).fired ==>
              r == c.(shootCooldown := Tick(c.shootCooldown, dt))
    ensures Keeps(c, r)
  {
    var cd := Tick(c.shootCooldown, dt);
    var t := ThrowShuriken(i.shoot, cd, c.state.shurikens);
    if t.fired then
      var star := ShurikenShot(Centre(c.state.player.pos), i.mousePos, root);
      FreshId(c.(shootCooldown := t.cooldown,
                 state := c.state.(shurikens := t.ammo, projectiles := c.state.projectiles + [star])))
    else c.(shootCooldown := cd)
  }

  /** With no ammo, no projectile is added and the ammo stays at 0. */
  lemma EmptyPouchThrowsNothing(c: Canvas, i: InputState, dt: real, root: real -> real)
    requires c.state.shurikens == 0
    ensures ShurikenThrow(c, i, dt, root).state.projectiles == c.state.projectiles
    ensures ShurikenThrow(c, i, dt, root).state.shurikens == 0
  {
    NoAmmoNoThrow(i.shoot, Tick(c.shootCooldown, dt));
  }
}

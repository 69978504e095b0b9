/**
 * The enemy phase of one frame (components/GameCanvas.tsx, update: the
 * enemies forEach and its pruning): the death countdown and its reward,
 * the guards' swing and lunge, the vampires' bolt, re-planning the route
 * and walking it.
 *
 * findPath is a method, so the fold takes the routes it returned as an
 * argument: found[k] is the route enemy k asked for this frame, or None
 * when it did not ask. The component's loop supplies them (Simulation).
 */
module EnemyPhase {
  import opened Types
  import opened Constants
  import opened Collision
  import opened Rules
  import opened CanvasState

  // ---------------------------------------------------------------------
  // Dying enemies.

  /** The enemy's death countdown runs out this frame. */
  predicate Expires(e: Enemy, dt: real)
  {
    e.health <= 0 && DeathCountdown(e.deathTimer, dt) <= 0.0
  }

  /**
   * The forEach body for an enemy at 0 health or below: the countdown
   * advances; when it runs out the enemy is marked dead, the score rises
   * by 10 and its experience orb is dropped.
   */
  function Expire(c: Canvas, k: nat, dt: real): (r: Canvas)
    requires k < |c.state.enemies| && c.state.enemies[k].health <= 0
    ensures r.state.enemies == c.state.enemies[k := c.state.enemies[k].(deathTimer := Some(DeathCountdown(c.state.enemies[k].deathTimer, dt)),
                                                                         isDead := c.state.enemies[k].isDead || Expires(c.state.enemies[k], dt))]
    ensures Expires(c.state.enemies[k], dt) ==>
              r == FreshId(c.(state := c.state.(enemies := r.state.enemies, score := c.state.score + 10,
                                                pickups := c.state.pickups + [Drop(c.state.enemies[k])])))
    ensures !Expires(c.state.enemies[k], dt) ==> r == c.(state := c.state.(enemies := r.state.enemies))
  {
    var e := c.state.enemies[k];
    var t := DeathCountdown(e.deathTimer, dt);
    var e1 := e.(deathTimer := Some(t));
    if t <= 0.0 then
      FreshId(c.(state := c.state.(enemies := c.state.enemies[k := e1.(isDead := true)], score := c.state.score + 10,
                                   pickups := c.state.pickups + [Drop(e)])))
    else c.(state := c.state.(enemies := c.state.enemies[k := e1]))
  }

  // ---------------------------------------------------------------------
  // Living enemies.

  /** The three behaviour timers run down while positive. */
  function Rested(e: Enemy, dt: real): Enemy
  {
    e.(swingTimer := Tick(e.swingTimer, dt), attackTimer := Tick(e.attackTimer, dt),
       lungeCooldown := Tick(e.lungeCooldown, dt))
  }

  /** A guard's engagement: the state after it and the walking speed it leaves. */
  datatype Engaged = Engaged(e: Enemy, s: GameState, speed: real)

  /**
   * A guard closer than 70 to the player swings when its attack timer has
   * run out (0.3 s swing, 1.5 s until the next, the player is struck). Then
   * a running lunge continues at ENEMY_LUNGE_SPEED, or one starts when the
   * player is between 70 and ENEMY_LUNGE_RANGE away and the lunge is ready.
   */
  function GuardEngage(e: Enemy, s: GameState, dx: real, dy: real, dt: real): (r: Engaged)
    ensures Within(dx, dy, 70.0) && e.attackTimer <= 0.0 ==>
              r.s == HitPlayer(s) && r.e.swingTimer == 0.3 && r.e.attackTimer == 1.5
    ensures !(Within(dx, dy, 70.0) && e.attackTimer <= 0.0) ==> r.s == s
    ensures r.speed == (if e.lungeTimer > 0.0 then ENEMY_LUNGE_SPEED else ENEMY_SPEED)
    ensures r.e == e.(swingTimer := r.e.swingTimer, attackTimer := r.e.attackTimer,
                      lungeTimer := r.e.lungeTimer, lungeCooldown := r.e.lungeCooldown)
  {
    var swing := Within(dx, dy, 70.0) && e.attackTimer <= 0.0;
    var e1 := if swing then e.(swingTimer := 0.3, attackTimer := 1.5) else e;
    var s1 := if swing then HitPlayer(s) else s;
    if e1.lungeTimer > 0.0 then
      Engaged(e1.(lungeTimer := e1.lungeTimer - dt), s1, ENEMY_LUNGE_SPEED)
    else if Beyond(dx, dy, 70.0) && Within(dx, dy, ENEMY_LUNGE_RANGE) && e1.lungeCooldown <= 0.0 then
      Engaged(e1.(lungeTimer := ENEMY_LUNGE_DURATION, lungeCooldown := ENEMY_LUNGE_COOLDOWN), s1, ENEMY_SPEED)
    else Engaged(e1, s1, ENEMY_SPEED)
  }

  /** hasLineOfSight's step count: ceil(distance / 20). */
  function SightSteps(a: Vec2, b: Vec2, root: real -> real): int
  {
    Ceil(root((b.x - a.x) * (b.x - a.x) + (b.y - a.y) * (b.y - a.y)) / 20.0)
  }

  /** A vampire ready to fire, closer than 500 to the player and with a clear view of the player's centre. */
  predicate VampireSees(e: Enemy, s: GameState, root: real -> real)
  {
    var dx := s.player.pos.x - e.pos.x;
    var dy := s.player.pos.y - e.pos.y;
    e.attackTimer <= 0.0 && Within(dx, dy, 500.0) &&
    LineClear(Centre(e.pos), Centre(s.player.pos), SightSteps(Centre(e.pos), Centre(s.player.pos), root), s.obstacles)
  }

  /** The bolt a vampire fires at the player from its centre. */
  function VampireBolt(e: Enemy, s: GameState, root: real -> real): Projectile
  {
    var dx := s.player.pos.x - e.pos.x;
    var dy := s.player.pos.y - e.pos.y;
    var d := root(dx * dx + dy * dy);
    Projectile(EnemyBolt, Centre(e.pos), Size(10.0, 10.0),
               Vec2(Div(dx, d) * ENEMY_PROJECTILE_SPEED, Div(dy, d) * ENEMY_PROJECTILE_SPEED), 1, 1, false, None)
  }

  /**
   * Unless lunging, the route timer runs down; when it runs out, the enemy
   * takes the route found for it and the timer restarts at 0.5 to 1 s (one
   * draw).
   */
  function Repath(e: Enemy, c: Canvas, found: Option<seq<Vec2>>, dt: real): (r: (Enemy, Canvas))
    ensures r.1 == c || r.1 == c.(rng := Skip(c.rng, 1))
    ensures r.0 == e.(path := r.0.path, pathTimer := r.0.pathTimer)
  {
    if e.lungeTimer <= 0.0 then
      var t := e.pathTimer - dt;
      if t <= 0.0 then
        var (u, g) := Next(c.rng);
        (e.(path := if found.Some? then found.value else [], pathTimer := 0.5 + u * 0.5), c.(rng := g))
      else (e.(pathTimer := t), c)
    else (e, c)
  }

  /** The enemy asks for a route this frame: alive, not lunging after its engagement, route timer out. */
  predicate Repaths(e: Enemy, dt: real)
  {
    e.lungeTimer <= 0.0 && e.pathTimer - dt <= 0.0
  }

  /**
   * Walking: a swinging enemy stands still; otherwise it heads for the
   * first waypoint of its route (dropping it once closer than 10) or, with
   * no route, straight at the player; the step is taken axis by axis.
   */
  function Advance(e: Enemy, dx: real, dy: real, speed: real, dt: real, obstacles: seq<Obstacle>, root: real -> real): (r: Enemy)
    ensures r == e.(pos := r.pos, path := r.path)
    ensures r.path == e.path || (|e.path| > 0 && r.path == e.path[1..])
    ensures !Blocked(ToRect(e.Bounds()), obstacles) ==> !Blocked(ToRect(r.Bounds()), obstacles)
  {
    if e.swingTimer > 0.0 then AxisStep(e, 0.0 * 0.0 * dt, 0.0 * 0.0 * dt, obstacles)
    else if |e.path| > 0 then
      var w := e.path[0];
      var wx := w.x - e.pos.x;
      var wy := w.y - e.pos.y;
      var dw := root(wx * wx + wy * wy);
      var e1 := if Within(wx, wy, 10.0) then e.(path := e.path[1..]) else e;
      var m := if wx * wx + wy * wy > 0.0 then Vec2(Div(wx, dw), Div(wy, dw)) else Vec2(0.0, 0.0);
      AxisStep(e1, m.x * speed * dt, m.y * speed * dt, obstacles)
    else
      var d := root(dx * dx + dy * dy);
      var m := if dx * dx + dy * dy > 0.0 then Vec2(Div(dx, d), Div(dy, d)) else Vec2(0.0, 0.0);
      AxisStep(e, m.x * speed * dt, m.y * speed * dt, obstacles)
  }

  /** An enemy's engagement: the enemy after it, the canvas after it and the walking speed it leaves. */
  datatype Behaviour = Behaviour(e: Enemy, c: Canvas, speed: real)

  /**
   * A guard engages as GuardEngage says; a vampire that sees the player
   * fires a bolt (one draw for its identifier) and reloads for
   * VAMPIRE_ATTACK_COOLDOWN.
   */
  function Engage(e: Enemy, c: Canvas, dt: real, root: real -> real): (r: Behaviour)
    ensures r.e == e.(swingTimer := r.e.swingTimer, attackTimer := r.e.attackTimer,
                      lungeTimer := r.e.lungeTimer, lungeCooldown := r.e.lungeCooldown)
    ensures e.kind == Guard ==> r.c == c.(state := GuardEngage(e, c.state, c.state.player.pos.x - e.pos.x,
                                                                c.state.player.pos.y - e.pos.y, dt).s)
    ensures e.kind == Vampire ==>
              r.c == c ||
              r.c == FreshId(c.(state := c.state.(projectiles := c.state.projectiles + [VampireBolt(e, c.state, root)])))
    ensures r.c == c.(state := c.state.(projectiles := r.c.state.projectiles,
                                        player := c.state.player.(health := r.c.state.player.health,
                                                                  invulnerableTimer := r.c.state.player.invulnerableTimer),
                                        isGameOver := r.c.state.isGameOver),
                      rng := r.c.rng)
    ensures r.c.state.projectiles == c.state.projectiles ||
            r.c.state.projectiles == c.state.projectiles + [VampireBolt(e, c.state, root)]
  {
    var dx := c.state.player.pos.x - e.pos.x;
    var dy := c.state.player.pos.y - e.pos.y;
    match e.kind
    case Guard =>
      var g := GuardEngage(e, c.state, dx, dy, dt);
      Behaviour(g.e, c.(state := g.s), g.speed)
    case Vampire =>
      if VampireSees(e, c.state, root) then
        Behaviour(e.(attackTimer := VAMPIRE_ATTACK_COOLDOWN),
                  FreshId(c.(state := c.state.(projectiles := c.state.projectiles + [VampireBolt(e, c.state, root)]))),
                  VAMPIRE_SPEED)
      else Behaviour(e, c, VAMPIRE_SPEED)
  }

  /** The forEach body for a living enemy k: timers, engagement, route, walk. */
  function Act(c: Canvas, k: nat, found: Option<seq<Vec2>>, dt: real, root: real -> real): (r: Canvas)
    requires k < |c.state.enemies|
  {
    var e := Rested(c.state.enemies[k], dt);
    var b := Engage(e, c, dt, root);
    var (e3, c3) := Repath(b.e, b.c, found, dt);
    var e4 := Advance(e3, c.state.player.pos.x - e.pos.x, c.state.player.pos.y - e.pos.y, b.speed, dt,
                      c3.state.obstacles, root);
    c3.(state := c3.state.(enemies := c3.state.enemies[k := e4]))
  }

  /** What a living enemy's step leaves alone: the score, the orbs, every other enemy, its own health and mark. */
  lemma ActFrame(c: Canvas, k: nat, found: Option<seq<Vec2>>, dt: real, root: real -> real)
    requires k < |c.state.enemies|
    ensures var r := Act(c, k, found, dt, root);
            var e := c.state.enemies[k];
            r.state.enemies == c.state.enemies[k := r.state.enemies[k]] &&
            r.state.enemies[k].health == e.health && r.state.enemies[k].isDead == e.isDead &&
            r.state.enemies[k].kind == e.kind &&
            r == c.(state := c.state.(enemies := r.state.enemies, projectiles := r.state.projectiles,
                                      player := c.state.player.(health := r.state.player.health,
                                                                invulnerableTimer := r.state.player.invulnerableTimer),
                                      isGameOver := r.state.isGameOver),
                    rng := r.rng) &&
            ((forall p | p in c.state.projectiles :: !p.isDead) ==> (forall p | p in r.state.projectiles :: !p.isDead))
  {
    var e := Rested(c.state.enemies[k], dt);
    var b := Engage(e, c, dt, root);
    var (e3, c3) := Repath(b.e, b.c, found, dt);
    assert c3.state == b.c.state;
    var e4 := Advance(e3, c.state.player.pos.x - e.pos.x, c.state.player.pos.y - e.pos.y, b.speed, dt,
                      c3.state.obstacles, root);
    assert e4.health == e.health && e4.isDead == e.isDead && e4.kind == e.kind;
    assert !VampireBolt(e, c.state, root).isDead;
  }

  /** The forEach body for enemy k. */
  function EnemyStep(c: Canvas, k: nat, found: Option<seq<Vec2>>, dt: real, root: real -> real): (r: Canvas)
    requires k < |c.state.enemies|
    ensures |r.state.enemies| == |c.state.enemies|
    ensures r.state.enemies == c.state.enemies[k := r.state.enemies[k]]
    ensures var e := c.state.enemies[k];
            e.health <= 0 ==>
              r.state.enemies[k] == e.(deathTimer := Some(DeathCountdown(e.deathTimer, dt)), isDead := e.isDead || Expires(e, dt))
    ensures var e := c.state.enemies[k];
            e.health > 0 ==> r.state.enemies[k].health == e.health && r.state.enemies[k].isDead == e.isDead
    ensures r.state.score == c.state.score + (if Expires(c.state.enemies[k], dt) then 10 else 0)
    ensures r.state.pickups == c.state.pickups + (if Expires(c.state.enemies[k], dt) then [Drop(c.state.enemies[k])] else [])
    ensures r.state.player.pos == c.state.player.pos && r.state.player.size == c.state.player.size
    ensures r.state.obstacles == c.state.obstacles && r.state.particles == c.state.particles &&
            r.state.fireZones == c.state.fireZones && r.grid == c.grid
    ensures (forall p | p in c.state.projectiles :: !p.isDead) ==> (forall p | p in r.state.projectiles :: !p.isDead)
    ensures (forall p | p in c.state.pickups :: !p.isDead) ==> (forall p | p in r.state.pickups :: !p.isDead)
  {
    if c.state.enemies[k].health <= 0 then Expire(c, k, dt)
    else
      ActFrame(c, k, found, dt, root);
      Act(c, k, found, dt, root)
  }

  /** The forEach over the first |found| enemies. */
  function EnemyFold(c: Canvas, found: seq<Option<seq<Vec2>>>, dt: real, root: real -> real): (r: Canvas)
    requires |found| <= |c.state.enemies|
    ensures |r.state.enemies| == |c.state.enemies|
    ensures r.state.player.pos == c.state.player.pos && r.state.player.size == c.state.player.size
    ensures r.state.obstacles == c.state.obstacles && r.state.particles == c.state.particles &&
            r.state.fireZones == c.state.fireZones && r.grid == c.grid
    ensures (forall p | p in c.state.projectiles :: !p.isDead) ==> (forall p | p in r.state.projectiles :: !p.isDead)
    ensures (forall p | p in c.state.pickups :: !p.isDead) ==> (forall p | p in r.state.pickups :: !p.isDead)
    ensures forall j | |found| <= j < |c.state.enemies| :: r.state.enemies[j] == c.state.enemies[j]
    decreases |found|
  {
    if |found| == 0 then c
    else
      var n := |found| - 1;
      EnemyStep(EnemyFold(c, found[..n], dt, root), n, found[n], dt, root)
  }

  /** One more enemy of the forEach, with the route it found. */
  lemma EnemyFoldNext(c: Canvas, found: seq<Option<seq<Vec2>>>, f: Option<seq<Vec2>>, dt: real, root: real -> real)
    requires |found| < |c.state.enemies|
    ensures EnemyFold(c, found + [f], dt, root) == EnemyStep(EnemyFold(c, found, dt, root), |found|, f, dt, root)
  {
    assert (found + [f])[..|found|] == found;
  }

  predicate Alive(e: Enemy)
  {
    !e.isDead
  }

  /** The enemy phase: every enemy steps, then the dead ones are dropped. */
  function Enemies(c: Canvas, found: seq<Option<seq<Vec2>>>, dt: real, root: real -> real): (r: Canvas)
    requires |found| == |c.state.enemies|
    ensures forall e | e in r.state.enemies :: Alive(e)
    ensures r.state.player.pos == c.state.player.pos && r.state.player.size == c.state.player.size
    ensures r.state.obstacles == c.state.obstacles && r.state.particles == c.state.particles &&
            r.state.fireZones == c.state.fireZones && r.grid == c.grid
    ensures (forall p | p in c.state.projectiles :: !p.isDead) ==> (forall p | p in r.state.projectiles :: !p.isDead)
    ensures (forall p | p in c.state.pickups :: !p.isDead) ==> (forall p | p in r.state.pickups :: !p.isDead)
  {
    var c1 := EnemyFold(c, found, dt, root);
    c1.(state := c1.state.(enemies := Filter(c1.state.enemies, Alive)))
  }

  // ---------------------------------------------------------------------
  // The reward for the dead.

  /** How many of es are removed this frame. */
  function Expiring(es: seq<Enemy>, dt: real): nat
  {
    if es == [] then 0
    else Expiring(es[..|es| - 1], dt) + (if Expires(es[|es| - 1], dt) then 1 else 0)
  }

  /** The orbs dropped by those of es that are removed this frame, in order. */
  function Drops(es: seq<Enemy>, dt: real): (r: seq<Pickup>)
    ensures |r| == Expiring(es, dt)
  {
    if es == [] then []
    else Drops(es[..|es| - 1], dt) + (if Expires(es[|es| - 1], dt) then [Drop(es[|es| - 1])] else [])
  }

  /** How many of es are marked dead. */
  function Fallen(es: seq<Enemy>): nat
  {
    if es == [] then 0 else Fallen(es[..|es| - 1]) + (if es[|es| - 1].isDead then 1 else 0)
  }

  /**
   * After the first k enemies stepped: each of them at 0 health or below
   * has advanced its countdown and is marked dead exactly when the countdown
   * ran out; each living one keeps its health and stays unmarked; the rest
   * are untouched.
   */
  lemma {:induction false} EnemyFoldEffect(c: Canvas, found: seq<Option<seq<Vec2>>>, dt: real, root: real -> real)
    requires |found| <= |c.state.enemies|
    ensures var r := EnemyFold(c, found, dt, root);
            forall j | 0 <= j < |c.state.enemies| ::
              (j >= |found| ==> r.state.enemies[j] == c.state.enemies[j]) &&
              (j < |found| && c.state.enemies[j].health <= 0 ==>
                 r.state.enemies[j] == c.state.enemies[j].(deathTimer := Some(DeathCountdown(c.state.enemies[j].deathTimer, dt)),
                                                           isDead := c.state.enemies[j].isDead || Expires(c.state.enemies[j], dt))) &&
              (j < |found| && c.state.enemies[j].health > 0 ==>
                 r.state.enemies[j].health == c.state.enemies[j].health &&
                 r.state.enemies[j].isDead == c.state.enemies[j].isDead)
  {
    if |found| > 0 {
      var n := |found| - 1;
      EnemyFoldEffect(c, found[..n], dt, root);
      var p := EnemyFold(c, found[..n], dt, root);
      assert p.state.enemies[n] == c.state.enemies[n];
    }
  }

  /** Counting and collecting the removals over one more enemy. */
  lemma ExpiringNext(es: seq<Enemy>, k: nat, dt: real)
    requires 0 < k <= |es|
    ensures Expiring(es[..k], dt) == Expiring(es[..k - 1], dt) + (if Expires(es[k - 1], dt) then 1 else 0)
    ensures Drops(es[..k], dt) == Drops(es[..k - 1], dt) + (if Expires(es[k - 1], dt) then [Drop(es[k - 1])] else [])
  {
    assert es[..k][..k - 1] == es[..k - 1];
  }

  /** The fold over found ends with the step of found's last enemy. */
  lemma EnemyFoldLast(c: Canvas, found: seq<Option<seq<Vec2>>>, dt: real, root: real -> real)
    requires 0 < |found| <= |c.state.enemies|
    ensures EnemyFold(c, found, dt, root) ==
            EnemyStep(EnemyFold(c, found[..|found| - 1], dt, root), |found| - 1, found[|found| - 1], dt, root)
  {
  }

  /**
   * After the first k enemies stepped, the score has risen by 10 and one
   * orb has been dropped, in order, per enemy whose countdown ran out.
   */
  lemma {:induction false} EnemyFoldRewards(c: Canvas, found: seq<Option<seq<Vec2>>>, dt: real, root: real -> real)
    requires |found| <= |c.state.enemies|
    ensures var r := EnemyFold(c, found, dt, root);
            r.state.score == c.state.score + 10 * Expiring(c.state.enemies[..|found|], dt) &&
            r.state.pickups == c.state.pickups + Drops(c.state.enemies[..|found|], dt)
  {
    if |found| > 0 {
      var n := |found| - 1;
      EnemyFoldRewards(c, found[..n], dt, root);
      EnemyFoldLast(c, found, dt, root);
      RewardsNext(c.state, EnemyFold(c, found[..n], dt, root).state, EnemyFold(c, found, dt, root).state, |found|, dt);
    }
  }

  /**
   * The rewards over k enemies from those over k - 1: the step of enemy
   * k - 1, still as it started, adds its own score and orb.
   */
  lemma RewardsNext(s: GameState, p: GameState, r: GameState, k: nat, dt: real)
    requires 0 < k <= |s.enemies| && k <= |p.enemies| && p.enemies[k - 1] == s.enemies[k - 1]
    requires p.score == s.score + 10 * Expiring(s.enemies[..k - 1], dt) &&
             p.pickups == s.pickups + Drops(s.enemies[..k - 1], dt)
    requires r.score == p.score + (if Expires(p.enemies[k - 1], dt) then 10 else 0) &&
             r.pickups == p.pickups + (if Expires(p.enemies[k - 1], dt) then [Drop(p.enemies[k - 1])] else [])
    ensures r.score == s.score + 10 * Expiring(s.enemies[..k], dt)
    ensures r.pickups == s.pickups + Drops(s.enemies[..k], dt)
  {
    ExpiringNext(s.enemies, k, dt);
  }

  /** Marked enemies counted over an element-wise image of es. */
  lemma {:induction false} FallenCountsExpiring(es: seq<Enemy>, fs: seq<Enemy>, dt: real)
    requires |fs| == |es|
    requires forall j | 0 <= j < |es| :: fs[j].isDead <==> Expires(es[j], dt)
    ensures Fallen(fs) == Expiring(es, dt)
  {
    if es != [] {
      var n := |es| - 1;
      FallenCountsExpiring(es[..n], fs[..n], dt);
    }
  }

  /** Dropping the marked elements removes exactly Fallen of them. */
  lemma {:induction false} FilterAliveLength(fs: seq<Enemy>)
    ensures |Filter(fs, Alive)| == |fs| - Fallen(fs)
  {
    if fs != [] {
      var n := |fs| - 1;
      assert fs == fs[..n] + [fs[n]];
      FilterSnoc(fs[..n], fs[n], Alive);
      FilterAliveLength(fs[..n]);
    }
  }

  /**
   * Over the whole phase, starting from enemies none of which is marked:
   * the enemies removed are exactly those whose countdown runs out, the
   * score rises by exactly 10 per enemy removed, and the orbs dropped are
   * theirs: 30 xp for a vampire and 10 otherwise.
   */
  lemma EnemyRewards(c: Canvas, found: seq<Option<seq<Vec2>>>, dt: real, root: real -> real)
    requires |found| == |c.state.enemies|
    requires forall e | e in c.state.enemies :: Alive(e)
    ensures var r := Enemies(c, found, dt, root);
            |r.state.enemies| == |c.state.enemies| - Expiring(c.state.enemies, dt) &&
            r.state.score == c.state.score + 10 * Expiring(c.state.enemies, dt) &&
            r.state.pickups == c.state.pickups + Drops(c.state.enemies, dt)
  {
    var f := EnemyFold(c, found, dt, root);
    EnemyFoldEffect(c, found, dt, root);
    EnemyFoldRewards(c, found, dt, root);
    assert c.state.enemies[..|found|] == c.state.enemies;
    forall j | 0 <= j < |c.state.enemies|
      ensures f.state.enemies[j].isDead <==> Expires(c.state.enemies[j], dt)
    {
      assert Alive(c.state.enemies[j]);
    }
    FallenCountsExpiring(c.state.enemies, f.state.enemies, dt);
    FilterAliveLength(f.state.enemies);
  }

  /** An enemy with health left is never removed by the enemy phase, and keeps its health. */
  lemma LivingEnemiesStay(c: Canvas, found: seq<Option<seq<Vec2>>>, dt: real, root: real -> real, j: nat)
    requires |found| == |c.state.enemies| && j < |c.state.enemies|
    requires Alive(c.state.enemies[j]) && c.state.enemies[j].health > 0
    ensures var f := EnemyFold(c, found, dt, root);
            Alive(f.state.enemies[j]) && f.state.enemies[j].health == c.state.enemies[j].health &&
            f.state.enemies[j] in Enemies(c, found, dt, root).state.enemies
  {
    EnemyFoldEffect(c, found, dt, root);
  }
}

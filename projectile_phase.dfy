/**
 * The projectile and fire-zone phases of one frame (components/GameCanvas.tsx,
 * update: the projectiles forEach, its pruning, triggerExplosion, and the
 * fire-zone forEach with its pruning).
 */
module ProjectilePhase {
  import opened Types
  import opened Constants
  import opened Collision
  import opened Rules
  import opened CanvasState

  // ---------------------------------------------------------------------
  // Flight.

  /** Move by velocity x dt; leaving the board kills the projectile. */
  function Fly(p: Projectile, dt: real): (r: Projectile)
    ensures r == p.(pos := Glide(p.pos, p.velocity, dt), isDead := r.isDead)
    ensures r.isDead <==> p.isDead || !(0.0 <= r.pos.x <= CANVAS_WIDTH && 0.0 <= r.pos.y <= CANVAS_HEIGHT)
  {
    var pos := Glide(p.pos, p.velocity, dt);
    p.(pos := pos,
       isDead := if pos.x < 0.0 || pos.x > CANVAS_WIDTH || pos.y < 0.0 || pos.y > CANVAS_HEIGHT then true else p.isDead)
  }

  predicate Flying(p: Projectile)
  {
    !p.isDead
  }

  // ---------------------------------------------------------------------
  // The fireball and its explosion.

  /** The fireball has travelled FIREBALL_RANGE or more from its start point. */
  predicate OutOfRange(p: Projectile)
  {
    p.startPos.Some? &&
    !Within(p.pos.x - p.startPos.value.x, p.pos.y - p.startPos.value.y, FIREBALL_RANGE)
  }

  /** Some enemy's box overlaps b (whatever its health). */
  predicate OverEnemy(b: Box, es: seq<Enemy>)
  {
    exists j | 0 <= j < |es| :: CheckCollision(b, es[j].Bounds())
  }

  /** A live fireball explodes past its range, on an obstacle or on an enemy. */
  predicate Explodes(p: Projectile, s: GameState)
  {
    OutOfRange(p) || Blocked(ToRect(p.Bounds()), s.obstacles) || OverEnemy(p.Bounds(), s.enemies)
  }

  /** The blast radius test against an enemy's centre: closer than EXPLOSION_RADIUS + 16. */
  predicate InBlast(e: Enemy, cx: real, cy: real)
  {
    Within((e.pos.x + 16.0) - cx, (e.pos.y + 16.0) - cy, EXPLOSION_RADIUS + 16.0)
  }

  /** A living enemy in the blast loses FIREBALL_DAMAGE and is pushed 10 pixels away from the centre. */
  function Blast(e: Enemy, cx: real, cy: real, root: real -> real): (r: Enemy)
    ensures e.health > 0 && InBlast(e, cx, cy) ==> r.health == e.health - FIREBALL_DAMAGE
    ensures !(e.health > 0 && InBlast(e, cx, cy)) ==> r == e
    ensures r == e.(health := r.health, pos := r.pos)
  {
    if e.health > 0 && InBlast(e, cx, cy) then
      var dx := (e.pos.x + 16.0) - cx;
      var dy := (e.pos.y + 16.0) - cy;
      var d := root(dx * dx + dy * dy);
      e.(health := e.health - FIREBALL_DAMAGE, pos := Vec2(e.pos.x + Div(dx, d) * 10.0, e.pos.y + Div(dy, d) * 10.0))
    else e
  }

  /** The explosion's forEach over the enemies. */
  function Blasted(es: seq<Enemy>, cx: real, cy: real, root: real -> real): (r: seq<Enemy>)
    ensures |r| == |es| && forall j | 0 <= j < |es| :: r[j] == Blast(es[j], cx, cy, root)
  {
    seq(|es|, j requires 0 <= j < |es| => Blast(es[j], cx, cy, root))
  }

  /** The fire zone an explosion leaves: 120 x 120 around the centre, burning FIRE_ZONE_DURATION, ticking at once. */
  function Blaze(cx: real, cy: real): FireZone
  {
    FireZone(Vec2(cx - EXPLOSION_RADIUS, cy - EXPLOSION_RADIUS), Size(EXPLOSION_RADIUS * 2.0, EXPLOSION_RADIUS * 2.0),
             FIRE_ZONE_DURATION, FIRE_ZONE_DURATION, 0.0)
  }

  /**
   * triggerExplosion at pos: twenty sparks, the blast over the enemies
   * around pos + 10, and one new fire zone there.
   */
  function Explosion(c: Canvas, pos: Vec2, root: real -> real): (r: Canvas)
    ensures r.state.enemies == Blasted(c.state.enemies, pos.x + 10.0, pos.y + 10.0, root)
    ensures r.state.fireZones == c.state.fireZones + [Blaze(pos.x + 10.0, pos.y + 10.0)]
    ensures r.state.particles == c.state.particles + Sparks(pos, 20, c.rng)
    ensures r == c.(state := c.state.(enemies := r.state.enemies, fireZones := r.state.fireZones,
                                      particles := r.state.particles),
                    rng := Skip(c.rng, 61))
  {
    var c1 := Spawn(c, pos, 20);
    var cx := pos.x + 10.0;
    var cy := pos.y + 10.0;
    FreshId(c1.(state := c1.state.(enemies := Blasted(c1.state.enemies, cx, cy, root),
                                   fireZones := c1.state.fireZones + [Blaze(cx, cy)])))
  }

  // ---------------------------------------------------------------------
  // The shuriken.

  /** A shuriken still flying strikes a living enemy it overlaps. */
  predicate StarHits(p: Projectile, e: Enemy)
  {
    !p.isDead && e.health > 0 && CheckCollision(p.Bounds(), e.Bounds())
  }

  /** The shuriken k tries enemy j: one health point, the shuriken is spent, three sparks. */
  function StarStrike(c: Canvas, k: nat, j: nat): (r: Canvas)
    requires k < |c.state.projectiles| && j < |c.state.enemies|
    ensures |r.state.projectiles| == |c.state.projectiles| && |r.state.enemies| == |c.state.enemies|
    ensures r == c.(state := c.state.(enemies := r.state.enemies, projectiles := r.state.projectiles,
                                      particles := r.state.particles), rng := r.rng)
  {
    var p := c.state.projectiles[k];
    var e := c.state.enemies[j];
    if StarHits(p, e) then
      Spawn(c.(state := c.state.(enemies := c.state.enemies[j := e.(health := e.health - 1)],
                                 projectiles := c.state.projectiles[k := p.(isDead := true)])), e.pos, 3)
    else c
  }

  /** The shuriken's forEach over the first j enemies. */
  function StarFold(c: Canvas, k: nat, j: nat): (r: Canvas)
    requires k < |c.state.projectiles| && j <= |c.state.enemies|
    ensures |r.state.projectiles| == |c.state.projectiles| && |r.state.enemies| == |c.state.enemies|
    ensures r == c.(state := c.state.(enemies := r.state.enemies, projectiles := r.state.projectiles,
                                      particles := r.state.particles), rng := r.rng)
    decreases j
  {
    if j == 0 then c else StarStrike(StarFold(c, k, j - 1), k, j - 1)
  }

  /** One more enemy of the shuriken's forEach. */
  lemma StarFoldNext(c: Canvas, k: nat, j: nat)
    requires k < |c.state.projectiles| && j < |c.state.enemies|
    ensures StarFold(c, k, j + 1) == StarStrike(StarFold(c, k, j), k, j)
  {
  }

  /** The least index below j of an enemy the shuriken p strikes, or -1. */
  function FirstHit(p: Projectile, es: seq<Enemy>, j: nat): (f: int)
    requires j <= |es|
    ensures -1 <= f < j
    ensures f == -1 <==> forall m | 0 <= m < j :: !StarHits(p, es[m])
    ensures f >= 0 ==> StarHits(p, es[f]) && forall m | 0 <= m < f :: !StarHits(p, es[m])
  {
    if j == 0 then -1
    else
      var f := FirstHit(p, es, j - 1);
      if f >= 0 then f else if StarHits(p, es[j - 1]) then j - 1 else -1
  }

  /**
   * What a shuriken's forEach leaves when f is the first enemy it strikes
   * (-1 for none): that enemy one health point down, the shuriken spent and
   * three sparks at the enemy; or, with none, the canvas as it was.
   */
  function StarOutcome(c: Canvas, k: nat, f: int): Canvas
    requires k < |c.state.projectiles| && -1 <= f < |c.state.enemies|
  {
    if f < 0 then c
    else
      var e := c.state.enemies[f];
      c.(state := c.state.(enemies := c.state.enemies[f := e.(health := e.health - 1)],
                           projectiles := c.state.projectiles[k := c.state.projectiles[k].(isDead := true)],
                           particles := c.state.particles + Sparks(e.pos, 3, c.rng)),
         rng := Skip(c.rng, 9))
  }

  /** The forEach's step for enemy j - 1, from the outcome over the first j - 1 enemies. */
  lemma StarNext(c: Canvas, r: Canvas, k: nat, j: nat)
    requires k < |c.state.projectiles| && 0 < j <= |c.state.enemies|
    requires r == StarOutcome(c, k, FirstHit(c.state.projectiles[k], c.state.enemies, j - 1))
    ensures StarStrike(r, k, j - 1) == StarOutcome(c, k, FirstHit(c.state.projectiles[k], c.state.enemies, j))
  {
    var p := c.state.projectiles[k];
    var f := FirstHit(p, c.state.enemies, j - 1);
    if f >= 0 {
      assert r.state.projectiles[k].isDead;
      assert StarStrike(r, k, j - 1) == r;
    } else if StarHits(p, c.state.enemies[j - 1]) {
      assert FirstHit(p, c.state.enemies, j) == j - 1;
    } else {
      assert StarStrike(c, k, j - 1) == c;
    }
  }

  /**
   * A shuriken strikes at most one enemy: the first living one it overlaps,
   * and only if it is still flying. That enemy loses one health point, the
   * shuriken is spent and three sparks appear; with no such enemy nothing
   * changes.
   */
  lemma {:induction false} StarStrikesFirstOnly(c: Canvas, k: nat, j: nat)
    requires k < |c.state.projectiles| && j <= |c.state.enemies|
    ensures var p := c.state.projectiles[k];
            var f := FirstHit(p, c.state.enemies, j);
            var r := StarFold(c, k, j);
            (f == -1 ==> r == c) &&
            (f >= 0 ==>
               r == c.(state := c.state.(enemies := c.state.enemies[f := c.state.enemies[f].(health := c.state.enemies[f].health - 1)],
                                         projectiles := c.state.projectiles[k := p.(isDead := true)],
                                         particles := c.state.particles + Sparks(c.state.enemies[f].pos, 3, c.rng)),
                       rng := Skip(c.rng, 9)))
  {
    StarFoldOutcome(c, k, j);
  }

  /** The shuriken's forEach over the first j enemies ends in StarOutcome of the first it strikes. */
  lemma {:induction false} StarFoldOutcome(c: Canvas, k: nat, j: nat)
    requires k < |c.state.projectiles| && j <= |c.state.enemies|
    ensures StarFold(c, k, j) == StarOutcome(c, k, FirstHit(c.state.projectiles[k], c.state.enemies, j))
  {
    if j > 0 {
      StarFoldOutcome(c, k, j - 1);
      StarNext(c, StarFold(c, k, j - 1), k, j);
    }
  }

  // ---------------------------------------------------------------------
  // The vampire bolt.

  /**
   * A bolt still flying that overlaps the player hits the player (unless
   * invulnerable) and is spent either way; a bolt still flying after that
   * is spent on an obstacle.
   */
  function BoltStep(c: Canvas, k: nat): (r: Canvas)
    requires k < |c.state.projectiles|
    ensures |r.state.projectiles| == |c.state.projectiles|
    ensures r.state.projectiles == c.state.projectiles[k := r.state.projectiles[k]]
    ensures r.state.projectiles[k] == c.state.projectiles[k].(isDead := r.state.projectiles[k].isDead)
    ensures !c.state.projectiles[k].isDead && CheckCollision(c.state.projectiles[k].Bounds(), c.state.player.Bounds()) ==>
              r.state == HitPlayer(c.state).(projectiles := r.state.projectiles) && r.state.projectiles[k].isDead
    ensures c.state.projectiles[k].isDead ==> r == c
    ensures r == c.(state := c.state.(player := r.state.player, isGameOver := r.state.isGameOver,
                                      projectiles := r.state.projectiles))
  {
    var p := c.state.projectiles[k];
    var hit := !p.isDead && CheckCollision(p.Bounds(), c.state.player.Bounds());
    var s1 := if hit then HitPlayer(c.state) else c.state;
    var p1 := if hit then p.(isDead := true) else p;
    var p2 := if !p1.isDead && Blocked(ToRect(p1.Bounds()), c.state.obstacles) then p1.(isDead := true) else p1;
    c.(state := s1.(projectiles := s1.projectiles[k := p2]))
  }

  // ---------------------------------------------------------------------
  // The projectile forEach and its pruning.

  /** A live fireball that explodes is spent and sets off the explosion at its position. */
  function FireballStep(c: Canvas, k: nat, root: real -> real): (r: Canvas)
    requires k < |c.state.projectiles|
    ensures |r.state.projectiles| == |c.state.projectiles|
    ensures Keeps(c, r)
  {
    var p := c.state.projectiles[k];
    if !p.isDead && Explodes(p, c.state) then
      Explosion(c.(state := c.state.(projectiles := c.state.projectiles[k := p.(isDead := true)])), p.pos, root)
    else c
  }

  /** The forEach body for projectile k: fly, then act by kind. */
  function ProjectileStep(c: Canvas, k: nat, dt: real, root: real -> real): (r: Canvas)
    requires k < |c.state.projectiles|
    ensures |r.state.projectiles| == |c.state.projectiles| && |r.state.enemies| == |c.state.enemies|
    ensures Keeps(c, r)
  {
    var p := Fly(c.state.projectiles[k], dt);
    var c1 := c.(state := c.state.(projectiles := c.state.projectiles[k := p]));
    match p.kind
    case Fireball => FireballStep(c1, k, root)
    case Shuriken => StarFold(c1, k, |c1.state.enemies|)
    case EnemyBolt => BoltStep(c1, k)
  }

  /** The forEach over the first k projectiles. */
  function ProjectileFold(c: Canvas, k: nat, dt: real, root: real -> real): (r: Canvas)
    requires k <= |c.state.projectiles|
    ensures |r.state.projectiles| == |c.state.projectiles| && |r.state.enemies| == |c.state.enemies|
    ensures Keeps(c, r)
    decreases k
  {
    if k == 0 then c else ProjectileStep(ProjectileFold(c, k - 1, dt, root), k - 1, dt, root)
  }

  /** One more projectile of the forEach. */
  lemma ProjectileFoldNext(c: Canvas, k: nat, dt: real, root: real -> real)
    requires k < |c.state.projectiles|
    ensures ProjectileFold(c, k + 1, dt, root) == ProjectileStep(ProjectileFold(c, k, dt, root), k, dt, root)
  {
  }

  /** The projectile phase: every projectile steps, then the spent ones are dropped. */
  function Projectiles(c: Canvas, dt: real, root: real -> real): (r: Canvas)
    ensures forall p | p in r.state.projectiles :: Flying(p)
    ensures |r.state.projectiles| <= |c.state.projectiles|
    ensures |r.state.enemies| == |c.state.enemies|
    ensures Keeps(c, r)
  {
    var c1 := ProjectileFold(c, |c.state.projectiles|, dt, root);
    c1.(state := c1.state.(projectiles := Filter(c1.state.projectiles, Flying)))
  }

  // ---------------------------------------------------------------------
  // Fire zones.

  /** A living enemy whose centre is closer than EXPLOSION_RADIUS + 16 to the zone's centre loses one point. */
  function Scorch(e: Enemy, cx: real, cy: real): (r: Enemy)
    ensures e.health > 0 && InBlast(e, cx, cy) ==> r == e.(health := e.health - FIRE_ZONE_DAMAGE)
    ensures !(e.health > 0 && InBlast(e, cx, cy)) ==> r == e
  {
    if e.health > 0 && InBlast(e, cx, cy) then e.(health := e.health - FIRE_ZONE_DAMAGE) else e
  }

  /** A ticking zone's forEach over the enemies. */
  function Scorched(es: seq<Enemy>, cx: real, cy: real): (r: seq<Enemy>)
    ensures |r| == |es| && forall j | 0 <= j < |es| :: r[j] == Scorch(es[j], cx, cy)
  {
    seq(|es|, j requires 0 <= j < |es| => Scorch(es[j], cx, cy))
  }

  /**
   * The forEach body for zone k: it ages by dt; when its tick timer runs
   * out the timer restarts at FIRE_ZONE_TICK_RATE and the zone scorches the
   * enemies around its centre.
   */
  function ZoneStep(c: Canvas, k: nat, dt: real): (r: Canvas)
    requires k < |c.state.fireZones|
    ensures |r.state.fireZones| == |c.state.fireZones| && |r.state.enemies| == |c.state.enemies|
    ensures r.state.fireZones[k].lifeTime == c.state.fireZones[k].lifeTime - dt
    ensures r.state.fireZones[k].tickTimer ==
            (if c.state.fireZones[k].tickTimer - dt <= 0.0 then FIRE_ZONE_TICK_RATE else c.state.fireZones[k].tickTimer - dt)
    ensures r == c.(state := c.state.(fireZones := c.state.fireZones[k := r.state.fireZones[k]], enemies := r.state.enemies))
    ensures r.state.fireZones[k] == c.state.fireZones[k].(lifeTime := r.state.fireZones[k].lifeTime,
                                                          tickTimer := r.state.fireZones[k].tickTimer)
  {
    var z := c.state.fireZones[k];
    var z1 := z.(lifeTime := z.lifeTime - dt, tickTimer := z.tickTimer - dt);
    if z1.tickTimer <= 0.0 then
      var z2 := z1.(tickTimer := FIRE_ZONE_TICK_RATE);
      var cx := z2.pos.x + z2.size.w / 2.0;
      var cy := z2.pos.y + z2.size.h / 2.0;
      c.(state := c.state.(fireZones := c.state.fireZones[k := z2], enemies := Scorched(c.state.enemies, cx, cy)))
    else c.(state := c.state.(fireZones := c.state.fireZones[k := z1]))
  }

  /** The forEach over the first k zones. */
  function ZoneFold(c: Canvas, k: nat, dt: real): (r: Canvas)
    requires k <= |c.state.fireZones|
    ensures |r.state.fireZones| == |c.state.fireZones| && |r.state.enemies| == |c.state.enemies|
    decreases k
  {
    if k == 0 then c else ZoneStep(ZoneFold(c, k - 1, dt), k - 1, dt)
  }

  predicate Burning(z: FireZone)
  {
    z.lifeTime > 0.0
  }

  /** The fire-zone phase: every zone steps, then the burnt-out ones are dropped. */
  function Zones(c: Canvas, dt: real): (r: Canvas)
    ensures forall z | z in r.state.fireZones :: Burning(z)
    ensures |r.state.fireZones| <= |c.state.fireZones| && |r.state.enemies| == |c.state.enemies|
    ensures Keeps(c, r)
    ensures r.state.projectiles == c.state.projectiles && r.state.pickups == c.state.pickups &&
            r.state.particles == c.state.particles
  {
    var c1 := ZoneFold(c, |c.state.fireZones|, dt);
    ZoneFoldEffect(c, |c.state.fireZones|, dt);
    c1.(state := c1.state.(fireZones := Filter(c1.state.fireZones, Burning)))
  }

  /**
   * After the zones over the first k have stepped, only the enemies' health,
   * the zones' timers and nothing else has changed, and each of those
   * zones has aged by exactly dt.
   */
  lemma {:induction false} ZoneFoldEffect(c: Canvas, k: nat, dt: real)
    requires k <= |c.state.fireZones|
    ensures var r := ZoneFold(c, k, dt);
            r == c.(state := c.state.(fireZones := r.state.fireZones, enemies := r.state.enemies)) &&
            (forall m | 0 <= m < |c.state.fireZones| ::
               r.state.fireZones[m] == c.state.fireZones[m].(lifeTime := r.state.fireZones[m].lifeTime,
                                                            tickTimer := r.state.fireZones[m].tickTimer)) &&
            (forall m | 0 <= m < k :: r.state.fireZones[m].lifeTime == c.state.fireZones[m].lifeTime - dt) &&
            (forall m | k <= m < |c.state.fireZones| :: r.state.fireZones[m].lifeTime == c.state.fireZones[m].lifeTime)
  {
    if k > 0 {
      ZoneFoldEffect(c, k - 1, dt);
      ZoneNext(c, ZoneFold(c, k - 1, dt), ZoneFold(c, k, dt), k, dt);
    }
  }

  /** The zones' effect over k zones from the effect over k - 1 and the step of zone k - 1. */
  lemma ZoneNext(c: Canvas, p: Canvas, r: Canvas, k: nat, dt: real)
    requires 0 < k <= |c.state.fireZones| == |p.state.fireZones| == |r.state.fireZones|
    requires p == c.(state := c.state.(fireZones := p.state.fireZones, enemies := p.state.enemies))
    requires forall m | 0 <= m < |c.state.fireZones| ::
               p.state.fireZones[m] == c.state.fireZones[m].(lifeTime := p.state.fireZones[m].lifeTime,
                                                            tickTimer := p.state.fireZones[m].tickTimer)
    requires forall m | 0 <= m < k - 1 :: p.state.fireZones[m].lifeTime == c.state.fireZones[m].lifeTime - dt
    requires forall m | k - 1 <= m < |c.state.fireZones| :: p.state.fireZones[m].lifeTime == c.state.fireZones[m].lifeTime
    requires r == p.(state := p.state.(fireZones := p.state.fireZones[k - 1 := r.state.fireZones[k - 1]], enemies := r.state.enemies))
    requires r.state.fireZones[k - 1] == p.state.fireZones[k - 1].(lifeTime := r.state.fireZones[k - 1].lifeTime,
                                                                  tickTimer := r.state.fireZones[k - 1].tickTimer)
    requires r.state.fireZones[k - 1].lifeTime == p.state.fireZones[k - 1].lifeTime - dt
    ensures r == c.(state := c.state.(fireZones := r.state.fireZones, enemies := r.state.enemies))
    ensures forall m | 0 <= m < |c.state.fireZones| ::
              r.state.fireZones[m] == c.state.fireZones[m].(lifeTime := r.state.fireZones[m].lifeTime,
                                                           tickTimer := r.state.fireZones[m].tickTimer)
    ensures forall m | 0 <= m < k :: r.state.fireZones[m].lifeTime == c.state.fireZones[m].lifeTime - dt
    ensures forall m | k <= m < |c.state.fireZones| :: r.state.fireZones[m].lifeTime == c.state.fireZones[m].lifeTime
  {
  }

  /** Fire never lowers the health of an enemy already at 0 or below: a dying enemy is left to its countdown. */
  lemma {:induction false} ZonesSpareTheDying(c: Canvas, k: nat, dt: real, j: nat)
    requires k <= |c.state.fireZones| && j < |c.state.enemies|
    requires c.state.enemies[j].health <= 0
    ensures ZoneFold(c, k, dt).state.enemies[j] == c.state.enemies[j]
  {
    if k > 0 {
      ZonesSpareTheDying(c, k - 1, dt, j);
    }
  }
}

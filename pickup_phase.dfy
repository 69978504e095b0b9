/**
 * The last two phases of one frame (components/GameCanvas.tsx, update):
 * experience orbs drift toward the player and are collected, each level
 * gained being reported with a copy of the world; then the particles age,
 * drift and fade.
 */
module PickupPhase {
  import opened Types
  import opened Collision
  import opened Rules
  import opened CanvasState

  // ---------------------------------------------------------------------
  // Experience orbs.

  /** From the orb's centre (pos + 5) to the player's centre (pos + 16). */
  function Pull(p: Pickup, player: Player): Vec2
  {
    Vec2((player.pos.x + 16.0) - (p.pos.x + 5.0), (player.pos.y + 16.0) - (p.pos.y + 5.0))
  }

  /**
   * An orb closer than 150 to the player moves toward the player's centre
   * at 50 + 150 (1 - d / 150) pixels per second, d being the distance;
   * any other orb stays where it is.
   */
  function Attract(p: Pickup, player: Player, dt: real, root: real -> real): (r: Pickup)
    ensures r == p.(pos := r.pos)
    ensures !Within(Pull(p, player).x, Pull(p, player).y, 150.0) ==> r == p
  {
    var v := Pull(p, player);
    if Within(v.x, v.y, 150.0) then
      var d := root(v.x * v.x + v.y * v.y);
      var speed := 150.0 * (1.0 - d / 150.0) + 50.0;
      p.(pos := Glide(p.pos, Scale(Vec2(Div(v.x, d), Div(v.y, d)), speed), dt))
    else p
  }

  /**
   * The forEach body for orb k: it is pulled, and when it then overlaps
   * the player it is marked collected and its value is credited; a level
   * gained is reported with the world as it stands at that moment.
   */
  function PickupStep(c: Canvas, k: nat, dt: real, root: real -> real): (r: (Canvas, Option<GameState>))
    requires k < |c.state.pickups|
    ensures var p := Attract(c.state.pickups[k], c.state.player, dt, root);
            var hit := CheckCollision(p.Bounds(), c.state.player.Bounds());
            r.0.state.pickups == c.state.pickups[k := p.(isDead := p.isDead || hit)] &&
            r.0.state.player == (if hit then GainXp(c.state.player, p.value).0 else c.state.player) &&
            (r.1.Some? <==> hit && GainXp(c.state.player, p.value).1) &&
            (r.1.Some? ==> r.1.value == r.0.state)
    ensures r.0 == c.(state := c.state.(pickups := r.0.state.pickups, player := r.0.state.player))
  {
    var p := Attract(c.state.pickups[k], c.state.player, dt, root);
    if CheckCollision(p.Bounds(), c.state.player.Bounds()) then
      var (player, up) := GainXp(c.state.player, p.value);
      var s := c.state.(pickups := c.state.pickups[k := p.(isDead := true)], player := player);
      (c.(state := s), if up then Some(s) else None)
    else (c.(state := c.state.(pickups := c.state.pickups[k := p])), None)
  }

  /** The forEach over the first k orbs, with the level-up reports in order. */
  function PickupFold(c: Canvas, k: nat, dt: real, root: real -> real): (r: (Canvas, seq<GameState>))
    requires k <= |c.state.pickups|
    ensures |r.0.state.pickups| == |c.state.pickups|
    ensures r.0 == c.(state := c.state.(pickups := r.0.state.pickups, player := r.0.state.player))
    ensures r.0.state.player == c.state.player.(xp := r.0.state.player.xp, level := r.0.state.player.level,
                                                maxXp := r.0.state.player.maxXp)
    decreases k
  {
    if k == 0 then (c, [])
    else
      var (c1, ups) := PickupFold(c, k - 1, dt, root);
      var (c2, up) := PickupStep(c1, k - 1, dt, root);
      (c2, if up.Some? then ups + [up.value] else ups)
  }

  /** One more orb of the forEach; its report, if any, is appended. */
  lemma PickupFoldNext(c: Canvas, k: nat, dt: real, root: real -> real)
    requires k < |c.state.pickups|
    ensures var prior := PickupFold(c, k, dt, root);
            var step := PickupStep(prior.0, k, dt, root);
            PickupFold(c, k + 1, dt, root) == (step.0, if step.1.Some? then prior.1 + [step.1.value] else prior.1)
  {
  }

  predicate Uncollected(p: Pickup)
  {
    !p.isDead
  }

  /** The orb phase: every orb steps, then the collected ones are dropped. */
  function Pickups(c: Canvas, dt: real, root: real -> real): (r: (Canvas, seq<GameState>))
    ensures forall p | p in r.0.state.pickups :: Uncollected(p)
    ensures |r.0.state.pickups| <= |c.state.pickups|
    ensures r.0.state.enemies == c.state.enemies && r.0.state.projectiles == c.state.projectiles &&
            r.0.state.fireZones == c.state.fireZones && r.0.grid == c.grid
    ensures r.0 == c.(state := c.state.(pickups := r.0.state.pickups, player := r.0.state.player))
    ensures r.0.state.player == c.state.player.(xp := r.0.state.player.xp, level := r.0.state.player.level,
                                                maxXp := r.0.state.player.maxXp)
  {
    var (c1, ups) := PickupFold(c, |c.state.pickups|, dt, root);
    (c1.(state := c1.state.(pickups := Filter(c1.state.pickups, Uncollected))), ups)
  }

  /**
   * Every level gained is reported exactly once and in order: the i-th
   * report shows the player at level l + i + 1, l being the level before
   * the phase, and the level after the phase is l plus the number of reports.
   */
  lemma {:induction false} LevelUpsReported(c: Canvas, k: nat, dt: real, root: real -> real)
    requires k <= |c.state.pickups|
    ensures var r := PickupFold(c, k, dt, root);
            r.0.state.player.level == c.state.player.level + |r.1| &&
            forall i | 0 <= i < |r.1| :: r.1[i].player.level == c.state.player.level + i + 1
  {
    if k > 0 {
      LevelUpsReported(c, k - 1, dt, root);
      var (c1, ups) := PickupFold(c, k - 1, dt, root);
      OneLevelPerOrb(c1.state.player, Attract(c1.state.pickups[k - 1], c1.state.player, dt, root).value);
    }
  }

  /**
   * With xp below the threshold and every orb worth between 1 and the
   * threshold, xp stays below the (growing) threshold through the phase.
   */
  lemma {:induction false} XpStaysBelowThresholdOverPhase(c: Canvas, k: nat, dt: real, root: real -> real)
    requires k <= |c.state.pickups|
    requires 0 <= c.state.player.xp < c.state.player.maxXp
    requires forall p | p in c.state.pickups :: 0 < OrbValue(p.value) <= c.state.player.maxXp
    ensures var r := PickupFold(c, k, dt, root).0;
            0 <= r.state.player.xp < r.state.player.maxXp && c.state.player.maxXp <= r.state.player.maxXp &&
            forall p | p in r.state.pickups :: 0 < OrbValue(p.value) <= c.state.player.maxXp
  {
    if k > 0 {
      XpStaysBelowThresholdOverPhase(c, k - 1, dt, root);
      var c1 := PickupFold(c, k - 1, dt, root).0;
      var p := Attract(c1.state.pickups[k - 1], c1.state.player, dt, root);
      assert c1.state.pickups[k - 1] in c1.state.pickups;
      XpStaysBelowThreshold(c1.state.player, p.value);
      GrowthFloor(c1.state.player.maxXp);
      var c2 := PickupStep(c1, k - 1, dt, root).0;
      forall q | q in c2.state.pickups
        ensures 0 < OrbValue(q.value) <= c.state.player.maxXp
      {
        var j :| 0 <= j < |c2.state.pickups| && c2.state.pickups[j] == q;
        assert c1.state.pickups[j] in c1.state.pickups;
      }
    }
  }

  /** Every level-up report shows the phase's player, changed only in its experience fields. */
  lemma {:induction false} ReportsShowPlayer(c: Canvas, k: nat, dt: real, root: real -> real)
    requires k <= |c.state.pickups|
    ensures forall s | s in PickupFold(c, k, dt, root).1 ::
              s.player == c.state.player.(xp := s.player.xp, level := s.player.level, maxXp := s.player.maxXp)
  {
    if k > 0 {
      ReportsShowPlayer(c, k - 1, dt, root);
    }
  }

  // ---------------------------------------------------------------------
  // Particles.

  /** One frame of a particle: its life runs down and it drifts with its velocity. */
  function Age(p: Particle, dt: real): Particle
  {
    p.(lifeTime := p.lifeTime - dt, pos := Glide(p.pos, p.velocity, dt))
  }

  function Aged(ps: seq<Particle>, dt: real): (r: seq<Particle>)
    ensures |r| == |ps| && forall i | 0 <= i < |ps| :: r[i] == Age(ps[i], dt)
  {
    seq(|ps|, i requires 0 <= i < |ps| => Age(ps[i], dt))
  }

  predicate Glowing(p: Particle)
  {
    p.lifeTime > 0.0
  }

  /** The particle phase: every particle ages, then the faded ones are dropped. */
  function Particles(c: Canvas, dt: real): (r: Canvas)
    ensures forall p | p in r.state.particles :: Glowing(p)
    ensures r == c.(state := c.state.(particles := r.state.particles))
    ensures r.state.enemies == c.state.enemies && r.state.projectiles == c.state.projectiles &&
            r.state.pickups == c.state.pickups && r.state.fireZones == c.state.fireZones &&
            r.state.player == c.state.player && r.grid == c.grid
  {
    c.(state := c.state.(particles := Filter(Aged(c.state.particles, dt), Glowing)))
  }

  /** A particle survives the frame, aged, exactly when it had more than dt of life left. */
  lemma ParticleSurvival(c: Canvas, dt: real, q: Particle)
    requires q in c.state.particles
    ensures Age(q, dt) in Particles(c, dt).state.particles <==> q.lifeTime > dt
  {
    var ps := c.state.particles;
    var j :| 0 <= j < |ps| && ps[j] == q;
    assert Aged(ps, dt)[j] == Age(q, dt);
  }

  /** Every particle left after the frame is a particle of before, aged by dt. */
  lemma ParticlesComeFromBefore(c: Canvas, dt: real, p: Particle)
    requires p in Particles(c, dt).state.particles
    ensures exists q | q in c.state.particles :: p == Age(q, dt)
  {
    var a := Aged(c.state.particles, dt);
    var j :| 0 <= j < |a| && a[j] == p;
    assert c.state.particles[j] in c.state.particles;
  }
}

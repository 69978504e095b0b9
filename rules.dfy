/**
 * The bookkeeping rules of one frame of the game loop (components/GameCanvas.tsx,
 * update): chakra regeneration, timers, the wave-clear latch, the resource
 * gates of the four abilities, movement resolution, the melee cone, the death
 * countdown and experience gain. Distance thresholds are decided on squared
 * distances, which agree with the source's `Math.sqrt` comparisons (see
 * WithinMatchesDistance and ConeMatchesDot).
 */
module Rules {
  import opened Types
  import opened Constants
  import opened Collision

  // ---------------------------------------------------------------------
  // Arithmetic helpers.

  /**
   * Division as the model computes it. The source divides by a distance
   * that can be 0 only where 0/0 gives NaN and every later comparison on the
   * result is false; the model takes 0 there (see README, Left out).
   */
  function Div(a: real, b: real): real
  {
    if b == 0.0 then 0.0 else a / b
  }

  /** `if (t > 0) t -= dt`: a cooldown or timer that only runs while positive. */
  function Tick(t: real, dt: real): real
  {
    if t > 0.0 then t - dt else t
  }

  /** The point (dx, dy) is closer than r to the origin. */
  predicate Within(dx: real, dy: real, r: real)
  {
    dx * dx + dy * dy < r * r
  }

  lemma SquareMonotone(a: real, b: real)
    requires 0.0 <= a && 0.0 <= b
    ensures a < b <==> a * a < b * b
  {
    var aa, ab, bb := a * a, a * b, b * b;
    if a < b {
      assert aa <= ab;
      assert ab < bb by {
        assert bb - ab == (b - a) * b;
        assert (b - a) * b > 0.0;
      }
    } else {
      assert bb <= ab;
      assert ab <= aa;
    }
  }

  lemma PositiveFactor(x: real, y: real)
    requires y > 0.0
    ensures x > 0.0 <==> x * y > 0.0
  {
    if x > 0.0 { assert x * y > 0.0; }
    else if x == 0.0 { assert x * y == 0.0; }
    else { assert (-x) * y > 0.0; }
  }

  /** With d the length of (dx, dy), Within decides the source's `d < r`. */
  lemma WithinMatchesDistance(dx: real, dy: real, d: real, r: real)
    requires d >= 0.0 && d * d == dx * dx + dy * dy && r >= 0.0
    ensures Within(dx, dy, r) <==> d < r
  {
    SquareMonotone(d, r);
  }

  // ---------------------------------------------------------------------
  // Chakra regeneration (update, first statement).

  /** Chakra grows by CHAKRA_REGEN per second, up to maxChakra, when both are defined. */
  function Regen(p: Player, dt: real): (r: Player)
    ensures p.chakra.Some? && p.maxChakra.Some? ==>
              r.chakra.Some? && r.chakra.value <= p.maxChakra.value &&
              r.chakra.value <= p.chakra.value + CHAKRA_REGEN * dt &&
              (r.chakra.value == p.maxChakra.value || r.chakra.value == p.chakra.value + CHAKRA_REGEN * dt)
    ensures !(p.chakra.Some? && p.maxChakra.Some?) ==> r == p
    ensures r == p.(chakra := r.chakra)
  {
    if p.chakra.Some? && p.maxChakra.Some? then
      p.(chakra := Some(Min(p.maxChakra.value, p.chakra.value + CHAKRA_REGEN * dt)))
    else p
  }

  /** Regeneration never lowers chakra that is within its maximum, and never passes the maximum. */
  lemma RegenStaysBetween(p: Player, dt: real)
    requires p.chakra.Some? && p.maxChakra.Some? && p.chakra.value <= p.maxChakra.value && dt >= 0.0
    ensures p.chakra.value <= Regen(p, dt).chakra.value <= p.maxChakra.value
  {
  }

  // ---------------------------------------------------------------------
  // The wave-clear latch (roomTransitionRef / transitionTimerRef).

  datatype Transition = Transition(pending: bool, timer: real)

  const TRANSITION_DELAY: real := 0.1

  /**
   * Arm the latch when the room is clear, no transition is pending and the
   * game is not over; while pending, count the timer down and fire (the
   * second component) once it reaches 0, which clears the latch.
   */
  function StepTransition(t: Transition, enemiesLeft: nat, gameOver: bool, dt: real): (r: (Transition, bool))
    ensures t.pending ==> r.0.timer == t.timer - dt
    ensures !t.pending && enemiesLeft == 0 && !gameOver ==> r.0.timer == TRANSITION_DELAY - dt
    ensures !t.pending && (enemiesLeft > 0 || gameOver) ==> r == (t, false)
    ensures r.1 <==> (t.pending || (enemiesLeft == 0 && !gameOver)) && r.0.timer <= 0.0
    ensures r.0.pending <==> (t.pending || (enemiesLeft == 0 && !gameOver)) && !r.1
  {
    var armed := if enemiesLeft == 0 && !t.pending && !gameOver then Transition(true, TRANSITION_DELAY) else t;
    if armed.pending then
      var timer := armed.timer - dt;
      if timer <= 0.0 then (Transition(false, timer), true) else (Transition(true, timer), false)
    else (armed, false)
  }

  /** While a transition is pending it is never re-armed: its timer keeps counting down from where it was. */
  lemma PendingIsNotRearmed(t: Transition, enemiesLeft: nat, gameOver: bool, dt: real)
    requires t.pending && dt > 0.0
    ensures StepTransition(t, enemiesLeft, gameOver, dt).0.timer < t.timer
  {
  }

  /** A frame of at least TRANSITION_DELAY seconds on a clear room fires at once. */
  lemma ClearRoomFiresAfterDelay(t: Transition, gameOver: bool, dt: real)
    requires !t.pending && !gameOver && dt >= TRANSITION_DELAY
    ensures StepTransition(t, 0, gameOver, dt).1
  {
  }

  /** Two firings in a row need the room to be clear (and the game live) again in the second frame. */
  lemma NoDoubleFire(t: Transition, n1: nat, g1: bool, dt1: real, n2: nat, g2: bool, dt2: real)
    requires StepTransition(t, n1, g1, dt1).1
    requires StepTransition(StepTransition(t, n1, g1, dt1).0, n2, g2, dt2).1
    ensures n2 == 0 && !g2
  {
  }

  // ---------------------------------------------------------------------
  // Resource gates of the abilities.

  /** The outcome of a cast attempt: whether it fired, then chakra and cooldown. */
  datatype Cast = Cast(fired: bool, chakra: Option<real>, cooldown: real)

  /** Lightning blade: needs the key, an expired cooldown and 40 chakra; pays 40 and restarts a 6 s cooldown. */
  function CastBlade(skill1: bool, cooldown: real, chakra: Option<real>): (r: Cast)
    ensures r.fired <==> skill1 && cooldown <= 0.0 && chakra.Some? && chakra.value >= LIGHTNING_BLADE_COST
    ensures r.fired ==> r.chakra.Some? && r.chakra.value == chakra.value - LIGHTNING_BLADE_COST &&
                        r.chakra.value >= 0.0 && r.cooldown == LIGHTNING_BLADE_COOLDOWN
    ensures !r.fired ==> r.chakra == chakra && r.cooldown == cooldown
  {
    if skill1 && cooldown <= 0.0 && chakra.Some? && chakra.value >= LIGHTNING_BLADE_COST then
      Cast(true, Some(chakra.value - LIGHTNING_BLADE_COST), LIGHTNING_BLADE_COOLDOWN)
    else Cast(false, chakra, cooldown)
  }

  /** Fireball: needs the key, an expired cooldown and 50 chakra; pays 50 and restarts a 4 s (+ modifier) cooldown. */
  function CastFireball(special: bool, cooldown: real, chakra: Option<real>, cooldownMod: real): (r: Cast)
    ensures r.fired <==> special && cooldown <= 0.0 && chakra.Some? && chakra.value >= FIREBALL_COST
    ensures r.fired ==> r.chakra.Some? && r.chakra.value == chakra.value - FIREBALL_COST &&
                        r.chakra.value >= 0.0 && r.cooldown == FIREBALL_COOLDOWN + cooldownMod
    ensures !r.fired ==> r.chakra == chakra && r.cooldown == cooldown
  {
    if special && cooldown <= 0.0 && chakra.Some? && chakra.value >= FIREBALL_COST then
      Cast(true, Some(chakra.value - FIREBALL_COST), FIREBALL_COOLDOWN + cooldownMod)
    else Cast(false, chakra, cooldown)
  }

  lemma FireballAtExactCost(cooldownMod: real)
    ensures CastFireball(true, 0.0, Some(50.0), cooldownMod) == Cast(true, Some(0.0), FIREBALL_COOLDOWN + cooldownMod)
  {
  }

  lemma FireballBelowCost(cooldown: real, cooldownMod: real)
    ensures CastFireball(true, cooldown, Some(49.0), cooldownMod) == Cast(false, Some(49.0), cooldown)
  {
  }

  lemma BladeAtExactCost()
    ensures CastBlade(true, 0.0, Some(40.0)) == Cast(true, Some(0.0), LIGHTNING_BLADE_COOLDOWN)
  {
  }

  /** The outcome of a throw attempt: whether it fired, then ammo and cooldown. */
  datatype Throw = Throw(fired: bool, ammo: int, cooldown: real)

  /** Shuriken: needs the button, an expired cooldown and ammo; uses one shuriken and a 0.3 s cooldown. */
  function ThrowShuriken(shoot: bool, cooldown: real, ammo: int): (r: Throw)
    ensures r.fired <==> shoot && cooldown <= 0.0 && ammo > 0
    ensures r.fired ==> r.ammo == ammo - 1 && r.ammo >= 0 && r.cooldown == 0.3
    ensures !r.fired ==> r.ammo == ammo && r.cooldown == cooldown
  {
    if shoot && cooldown <= 0.0 && ammo > 0 then Throw(true, ammo - 1, 0.3)
    else Throw(false, ammo, cooldown)
  }

  lemma NoAmmoNoThrow(shoot: bool, cooldown: real)
    ensures !ThrowShuriken(shoot, cooldown, 0).fired && ThrowShuriken(shoot, cooldown, 0).ammo == 0
  {
  }

  /** Dash: needs the key, an expired cooldown, and neither a dash nor a blade in progress. */
  predicate DashReady(dash: bool, cooldown: real, dashTime: real, bladeTime: real)
  {
    dash && cooldown <= 0.0 && dashTime <= 0.0 && bladeTime <= 0.0
  }

  // ---------------------------------------------------------------------
  // Directions from the keyboard.

  /** The raw key direction: each pressed key adds -1 or +1 on its axis. */
  function KeyDirection(i: InputState): (v: Vec2)
    ensures -1.0 <= v.x <= 1.0 && -1.0 <= v.y <= 1.0
    ensures v.x < 0.0 <==> i.left && !i.right
    ensures v.x > 0.0 <==> i.right && !i.left
    ensures v.y < 0.0 <==> i.up && !i.down
    ensures v.y > 0.0 <==> i.down && !i.up
  {
    Vec2((if i.left then -1.0 else 0.0) + (if i.right then 1.0 else 0.0),
         (if i.up then -1.0 else 0.0) + (if i.down then 1.0 else 0.0))
  }

  /** The unit vector of a facing. */
  function FacingVector(f: Facing): (v: Vec2)
    ensures v.x * v.x + v.y * v.y == 1.0
  {
    match f
    case Up => Vec2(0.0, -1.0)
    case Down => Vec2(0.0, 1.0)
    case Left => Vec2(-1.0, 0.0)
    case Right => Vec2(1.0, 0.0)
  }

  /** Walking turns the player; vertical movement wins over horizontal, no movement keeps the facing. */
  function NextFacing(f: Facing, v: Vec2): (r: Facing)
    ensures v.y < 0.0 ==> r == Up
    ensures v.y > 0.0 ==> r == Down
    ensures v.y == 0.0 && v.x < 0.0 ==> r == Left
    ensures v.y == 0.0 && v.x > 0.0 ==> r == Right
    ensures v == Vec2(0.0, 0.0) ==> r == f
  {
    if v.y < 0.0 then Up else if v.y > 0.0 then Down
    else if v.x < 0.0 then Left else if v.x > 0.0 then Right
    else f
  }

  /** The blade and dash heading: the key direction, or the facing when no key is held. */
  function Heading(i: InputState, f: Facing): (v: Vec2)
    ensures v != Vec2(0.0, 0.0)
    ensures KeyDirection(i) != Vec2(0.0, 0.0) ==> v == KeyDirection(i)
  {
    var k := KeyDirection(i);
    if k.x == 0.0 && k.y == 0.0 then FacingVector(f) else k
  }

  /** `const l = Math.sqrt(dx*dx + dy*dy); if (l > 0) { dx /= l; dy /= l; }` with the root injected. */
  function NormalizeIfPositive(v: Vec2, root: real -> real): Vec2
  {
    var l := root(v.x * v.x + v.y * v.y);
    if l > 0.0 then Vec2(v.x / l, v.y / l) else v
  }

  /** Walking: a non-zero key direction is divided by its length. */
  function NormalizeWalk(v: Vec2, root: real -> real): Vec2
  {
    if v.x != 0.0 || v.y != 0.0 then
      var l := root(v.x * v.x + v.y * v.y);
      Vec2(Div(v.x, l), Div(v.y, l))
    else v
  }

  /** `s.player.speedMult || 1`. */
  function SpeedFactor(speedMult: real): real
  {
    if speedMult == 0.0 then 1.0 else speedMult
  }

  // ---------------------------------------------------------------------
  // Resolving the player's move.

  /** The box of the given size at p lies on the board. */
  predicate OnBoard(p: Vec2, size: Size)
  {
    0.0 <= p.x <= CANVAS_WIDTH - size.w && 0.0 <= p.y <= CANVAS_HEIGHT - size.h
  }

  /** `Math.max(0, Math.min(W - w, x))` on each axis. */
  function Clamp(p: Vec2, size: Size): (r: Vec2)
    ensures size.w <= CANVAS_WIDTH && size.h <= CANVAS_HEIGHT ==> OnBoard(r, size)
    ensures OnBoard(p, size) ==> r == p
  {
    Vec2(Max(0.0, Min(CANVAS_WIDTH - size.w, p.x)), Max(0.0, Min(CANVAS_HEIGHT - size.h, p.y)))
  }

  /**
   * The resolved position: the clamped target if the box there overlaps no
   * obstacle, otherwise the from position; there is no partial-axis move.
   */
  function Resolve(from: Vec2, target: Vec2, size: Size, obstacles: seq<Obstacle>): (r: Vec2)
    ensures r == from || (r == Clamp(target, size) && !Blocked(ToRect(Box(r, size)), obstacles))
    ensures Blocked(ToRect(Box(Clamp(target, size), size)), obstacles) ==> r == from
    ensures !Blocked(ToRect(Box(Clamp(target, size), size)), obstacles) ==> r == Clamp(target, size)
  {
    var c := Clamp(target, size);
    if Blocked(ToRect(Box(c, size)), obstacles) then from else c
  }

  /** A player on the board stays on the board, and a player clear of obstacles stays clear. */
  lemma ResolveKeepsInvariant(from: Vec2, target: Vec2, size: Size, obstacles: seq<Obstacle>)
    requires size.w <= CANVAS_WIDTH && size.h <= CANVAS_HEIGHT
    ensures OnBoard(from, size) ==> OnBoard(Resolve(from, target, size, obstacles), size)
    ensures !Blocked(ToRect(Box(from, size)), obstacles) ==>
              !Blocked(ToRect(Box(Resolve(from, target, size, obstacles), size)), obstacles)
  {
  }

  // ---------------------------------------------------------------------
  // Enemy movement with per-axis revert.

  /**
   * Move by dx, undo it if the enemy's box then overlaps an obstacle; then
   * the same on y.
   */
  function AxisStep(e: Enemy, dx: real, dy: real, obstacles: seq<Obstacle>): (r: Enemy)
    ensures r == e.(pos := r.pos)
    ensures r.pos.x == e.pos.x || r.pos.x == e.pos.x + dx
    ensures r.pos.y == e.pos.y || r.pos.y == e.pos.y + dy
    ensures !Blocked(ToRect(e.Bounds()), obstacles) ==> !Blocked(ToRect(r.Bounds()), obstacles)
  {
    var ex := e.(pos := Vec2(e.pos.x + dx, e.pos.y));
    var e1 := if Blocked(ToRect(ex.Bounds()), obstacles) then e else ex;
    var ey := e1.(pos := Vec2(e1.pos.x, e1.pos.y + dy));
    if Blocked(ToRect(ey.Bounds()), obstacles) then e1 else ey
  }

  // ---------------------------------------------------------------------
  // The melee cone.

  /**
   * `dot > 0.3` for the unit facing vector f and the direction to the
   * enemy (dx, dy) / d, decided without the root: the projection is
   * positive and its square exceeds 0.09 d².
   */
  predicate InCone(dx: real, dy: real, f: Vec2)
  {
    var p := dx * f.x + dy * f.y;
    p > 0.0 && p * p > 0.09 * (dx * dx + dy * dy)
  }

  /** The sword reaches an enemy at offset (dx, dy): `d < 65` and inside the cone. */
  predicate MeleeHits(dx: real, dy: real, f: Vec2)
  {
    Within(dx, dy, 65.0) && InCone(dx, dy, f)
  }

  /** With d the length of (dx, dy), InCone decides the source's `dx/d * f.x + dy/d * f.y > 0.3`. */
  lemma ConeMatchesDot(dx: real, dy: real, f: Vec2, d: real)
    requires d > 0.0 && d * d == dx * dx + dy * dy
    ensures InCone(dx, dy, f) <==> (dx / d) * f.x + (dy / d) * f.y > 0.3
  {
    var p := dx * f.x + dy * f.y;
    var q := p / d;
    assert (dx / d) * f.x + (dy / d) * f.y == q;
    assert q * d == p;
    var e, r := 0.3 * d, (q - 0.3) * d;
    assert p - e == r;
    PositiveFactor(q - 0.3, d);
    assert r > 0.0 <==> q - 0.3 > 0.0;
    if p > 0.0 {
      SquareMonotone(e, p);
      assert e * e == 0.09 * (d * d);
      assert InCone(dx, dy, f) <==> p * p > e * e;
    }
  }

  // ---------------------------------------------------------------------
  // The death countdown and the drop.

  /** `(e.deathTimer || DEATH_DURATION) - dt`. */
  function DeathCountdown(t: Option<real>, dt: real): (r: real)
    ensures t.None? || t.value == 0.0 ==> r == DEATH_DURATION - dt
    ensures t.Some? && t.value != 0.0 ==> r == t.value - dt
  {
    (if t.None? || t.value == 0.0 then DEATH_DURATION else t.value) - dt
  }

  /** The experience orb a dying enemy leaves: 30 xp for a vampire, 10 otherwise. */
  function Drop(e: Enemy): (p: Pickup)
    ensures p.value == (if e.kind == Vampire then XP_VAMPIRE else XP_ENEMY)
    ensures p.pos == Vec2(e.pos.x + 11.0, e.pos.y + 11.0) && p.size == Size(XP_ORB_W, XP_ORB_H)
    ensures !p.isDead
  {
    Pickup(Vec2(e.pos.x + 11.0, e.pos.y + 11.0), Size(XP_ORB_W, XP_ORB_H), Vec2(0.0, 0.0), false,
           if e.kind == Vampire then XP_VAMPIRE else XP_ENEMY)
  }

  /** A freshly killed enemy waits DEATH_DURATION: it is not removed in a frame shorter than that. */
  lemma FreshDeathWaits(t: Option<real>, dt: real)
    requires t.None? && dt < DEATH_DURATION
    ensures DeathCountdown(t, dt) > 0.0
  {
  }

  // ---------------------------------------------------------------------
  // Experience.

  /** `p.value || 10`. */
  function OrbValue(value: int): int
  {
    if value == 0 then 10 else value
  }

  /**
   * Collecting an orb: xp grows by its value; at or over the threshold the
   * threshold is subtracted (the remainder is kept), the level rises by one
   * and the threshold becomes floor(1.5 x threshold). The flag says whether
   * the level rose.
   */
  function GainXp(p: Player, value: int): (r: (Player, bool))
    ensures r.1 <==> p.xp + OrbValue(value) >= p.maxXp
    ensures r.1 ==> r.0 == p.(xp := p.xp + OrbValue(value) - p.maxXp, level := p.level + 1,
                             maxXp := ((p.maxXp as real) * 1.5).Floor)
    ensures !r.1 ==> r.0 == p.(xp := p.xp + OrbValue(value))
  {
    var xp := p.xp + OrbValue(value);
    if xp >= p.maxXp then
      (p.(xp := xp - p.maxXp, level := p.level + 1, maxXp := ((p.maxXp as real) * 1.5).Floor), true)
    else (p.(xp := xp), false)
  }

  /** One orb raises the level by at most one, however large its value. */
  lemma OneLevelPerOrb(p: Player, value: int)
    ensures p.level <= GainXp(p, value).0.level <= p.level + 1
  {
  }

  lemma GrowthFloor(m: int)
    requires m >= 0
    ensures ((m as real) * 1.5).Floor >= m
  {
    assert (m as real) * 1.5 >= m as real;
  }

  /**
   * With 0 <= xp < maxXp and an orb worth between 1 and maxXp, the
   * player again has 0 <= xp < maxXp afterwards.
   */
  lemma XpStaysBelowThreshold(p: Player, value: int)
    requires 0 <= p.xp < p.maxXp && 0 < OrbValue(value) <= p.maxXp
    ensures 0 <= GainXp(p, value).0.xp < GainXp(p, value).0.maxXp
  {
    GrowthFloor(p.maxXp);
  }

  /** An orb worth more than the threshold leaves xp over the new threshold: xp 0, threshold 50, orb 200. */
  lemma LargeOrbLeavesExcess(p: Player)
    requires p.xp == 0 && p.maxXp == 50
    ensures GainXp(p, 200).0.xp == 150 && GainXp(p, 200).0.maxXp == 75
  {
    assert (50 as real) * 1.5 == 75.0;
  }

  /** `Math.ceil`. */
  function Ceil(x: real): (n: int)
    ensures n as real >= x && (n - 1) as real < x
  {
    if x.Floor as real == x then x.Floor else x.Floor + 1
  }

  /** The point (dx, dy) is farther than r from the origin. */
  predicate Beyond(dx: real, dy: real, r: real)
  {
    dx * dx + dy * dy > r * r
  }

  /** With d the length of (dx, dy), Beyond decides the source's `d > r`. */
  lemma BeyondMatchesDistance(dx: real, dy: real, d: real, r: real)
    requires d >= 0.0 && d * d == dx * dx + dy * dy && r >= 0.0
    ensures Beyond(dx, dy, r) <==> d > r
  {
    SquareMonotone(r, d);
  }

  // ---------------------------------------------------------------------
  // Pruning.

  /** `array.filter(keep)`: the elements that satisfy keep, in order. */
  function Filter<T(!new)>(s: seq<T>, keep: T -> bool): (r: seq<T>)
    ensures |r| <= |s|
    ensures forall x :: x in r <==> x in s && keep(x)
  {
    if s == [] then []
    else
      var rest := Filter(s[1..], keep);
      assert forall x :: x in s <==> x == s[0] || x in s[1..];
      if keep(s[0]) then [s[0]] + rest else rest
  }

  /** Filtering a sequence with one more element at the end. */
  lemma {:induction false} FilterSnoc<T(!new)>(s: seq<T>, x: T, keep: T -> bool)
    ensures Filter(s + [x], keep) == Filter(s, keep) + (if keep(x) then [x] else [])
  {
    if s == [] {
      assert [x][1..] == [];
    } else {
      assert (s + [x])[1..] == s[1..] + [x];
      FilterSnoc(s[1..], x, keep);
    }
  }
}

/**
 * Level setup (components/GameCanvas.tsx, setupLevel and spawnWave): the
 * obstacles of a wave, placed by bounded retry loops that keep a safe zone
 * around the board's centre and keep walls apart, and the enemies of the
 * wave, spawned away from the player and out of the walls. Every draw of
 * `Math.random()` comes from the injected random source, in source order.
 */
module Level {
  import opened Types
  import opened Constants
  import opened Collision
  import opened Rules

  /** Radius around the board's centre in which no house or rock may be centred. */
  const SAFE_ZONE_RADIUS: real := 150.0

  /** Every placement, of a wall or of an enemy, gives up after this many attempts. */
  const PLACEMENT_ATTEMPTS: nat := 50

  /** Where setupLevel puts the player: centred on the board. */
  const START: Vec2 := Vec2(CANVAS_WIDTH / 2.0 - PLAYER_W / 2.0, CANVAS_HEIGHT / 2.0 - PLAYER_H / 2.0)

  /** The player's box at the start of every wave. */
  function StartBox(): Rect
  {
    Rect(START.x, START.y, PLAYER_W, PLAYER_H)
  }

  function AbsReal(x: real): real
  {
    if x < 0.0 then -x else x
  }

  /** A count given by an integer expression, as a `for (i = 0; i < n; i++)` loop runs it. */
  function Times(n: int): nat
  {
    if n < 0 then 0 else n
  }

  // ---------------------------------------------------------------------
  // Houses and rocks.

  /** Kyoto's houses lie on the 40-pixel grid: `Math.floor(v / 40) * 40`. */
  function Snap(v: real): (r: real)
    ensures r <= v < r + 40.0
    ensures v >= 0.0 ==> r >= 0.0
  {
    (v / 40.0).Floor as real * 40.0
  }

  /** Snapping a value in [lo * 40, hi * 40 + 40) lands on a multiple of 40 between lo * 40 and hi * 40. */
  lemma SnapBetween(v: real, lo: int, hi: int)
    requires (lo * 40) as real <= v < (hi * 40 + 40) as real
    ensures (lo * 40) as real <= Snap(v) <= (hi * 40) as real
  {
    var n := (v / 40.0).Floor;
    assert n as real <= v / 40.0 < n as real + 1.0;
    assert lo as real <= v / 40.0 < hi as real + 1.0;
    assert lo <= n <= hi;
  }

  /** A house attempt from its four draws (w, h, x, y in that order), snapped to the grid. */
  function HouseCandidate(a: Unit, b: Unit, c: Unit, d: Unit): (r: Rect)
    ensures Shaped(House, r)
  {
    Fraction(a, 80.0);
    Fraction(b, 60.0);
    SnapBetween(100.0 + a * 80.0, 2, 4);
    SnapBetween(80.0 + b * 60.0, 2, 3);
    var w := Snap(100.0 + a * 80.0);
    var h := Snap(80.0 + b * 60.0);
    Rect(Snap(Share(c, CANVAS_WIDTH - w)), Snap(Share(d, CANVAS_HEIGHT - h)), w, h)
  }

  /** A rock attempt from its four draws (w, h, x, y in that order). */
  function RockCandidate(a: Unit, b: Unit, c: Unit, d: Unit): (r: Rect)
    ensures Shaped(Rock, r)
  {
    Fraction(a, 60.0);
    Fraction(b, 60.0);
    var w := 50.0 + a * 60.0;
    var h := 50.0 + b * 60.0;
    Rect(Share(c, CANVAS_WIDTH - w), Share(d, CANVAS_HEIGHT - h), w, h)
  }

  /** The rectangle of one placement attempt, from its next four draws. */
  function Candidate(kind: ObstacleKind, g: Rng): (r: Rect)
    requires kind == House || kind == Rock
    ensures Shaped(kind, r)
  {
    if kind == House then HouseCandidate(Draw(g, 0), Draw(g, 1), Draw(g, 2), Draw(g, 3))
    else RockCandidate(Draw(g, 0), Draw(g, 1), Draw(g, 2), Draw(g, 3))
  }

  lemma Fraction(u: Unit, m: real)
    requires m > 0.0
    ensures 0.0 <= u * m < m
  {
    var rest := (1.0 - u) * m;
    PositiveProduct(1.0 - u, m);
    NonNegativeProduct(u, m);
    assert rest == m - u * m;
  }

  /** `Math.random() * m`: a draw's share of a positive length. */
  function Share(u: Unit, m: real): (r: real)
    requires m > 0.0
    ensures 0.0 <= r < m
  {
    Fraction(u, m);
    u * m
  }

  lemma PositiveProduct(x: real, y: real)
    requires x > 0.0 && y > 0.0
    ensures x * y > 0.0
  {
  }

  lemma NonNegativeProduct(x: real, y: real)
    requires x >= 0.0 && y >= 0.0
    ensures x * y >= 0.0
  {
  }

  /**
   * What a placement attempt can produce: a rectangle on the board, a
   * house 80 to 160 wide and 80 to 120 high, a rock 50 to 110 on each side.
   */
  predicate Shaped(kind: ObstacleKind, r: Rect)
  {
    0.0 <= r.x && r.x + r.w <= CANVAS_WIDTH && 0.0 <= r.y && r.y + r.h <= CANVAS_HEIGHT &&
    if kind == House then 80.0 <= r.w <= 160.0 && 80.0 <= r.h <= 120.0
    else 50.0 <= r.w < 110.0 && 50.0 <= r.h < 110.0
  }

  /** The gap kept between walls: 40 pixels around a house, 10 around a rock. */
  function Margin(kind: ObstacleKind): real
  {
    if kind == House then 40.0 else 10.0
  }

  /** A wall's rectangle grown by m on every side. */
  function Inflate(o: Obstacle, m: real): Rect
  {
    Rect(o.pos.x - m, o.pos.y - m, o.size.w + 2.0 * m, o.size.h + 2.0 * m)
  }

  /** The rectangle's centre is closer than SAFE_ZONE_RADIUS to the board's centre (compared squared). */
  predicate NearCentre(r: Rect)
  {
    Within(r.x + r.w / 2.0 - CANVAS_WIDTH / 2.0, r.y + r.h / 2.0 - CANVAS_HEIGHT / 2.0, SAFE_ZONE_RADIUS)
  }

  /** The rectangle overlaps some wall grown by m. */
  predicate Crowds(r: Rect, walls: seq<Obstacle>, m: real)
  {
    exists k | 0 <= k < |walls| :: CheckRectCollision(r, Inflate(walls[k], m))
  }

  /** An attempt is accepted: outside the safe zone and clear of the grown walls. */
  predicate Fits(kind: ObstacleKind, r: Rect, walls: seq<Obstacle>)
  {
    !NearCentre(r) && !Crowds(r, walls, Margin(kind))
  }

  /**
   * The retry loop with `left` attempts to go: four draws per attempt, the
   * first accepted rectangle, or nothing once the attempts are used up.
   */
  function Try(kind: ObstacleKind, walls: seq<Obstacle>, g: Rng, left: nat): (r: (Option<Rect>, Rng))
    requires kind == House || kind == Rock
    ensures r.0.Some? ==> Shaped(kind, r.0.value) && Fits(kind, r.0.value, walls)
    ensures r.0.None? ==> r.1.index == g.index + 4 * left
    ensures g.index <= r.1.index <= g.index + 4 * left && r.1.source == g.source
    decreases left
  {
    if left == 0 then (None, g)
    else
      var r := Candidate(kind, g);
      if Fits(kind, r, walls) then (Some(r), Skip(g, 4)) else Try(kind, walls, Skip(g, 4), left - 1)
  }

  /** The wall built from an accepted rectangle. */
  function Wall(kind: ObstacleKind, r: Rect): Obstacle
  {
    Obstacle(Vec2(r.x, r.y), Size(r.w, r.h), kind)
  }

  /** The 12 x 12 lantern by a house's lower left corner. */
  function LanternBy(r: Rect): Obstacle
  {
    Obstacle(Vec2(r.x - 10.0, r.y + r.h - 12.0), Size(12.0, 12.0), Lantern)
  }

  /**
   * The house (or rock) loop over its first n iterations: each places one
   * wall if an attempt is accepted; in Kyoto an accepted house then gets a
   * lantern when a further draw exceeds 0.4. At most one house (and its
   * lantern) or one rock per iteration; no house or rock overlaps an
   * earlier wall grown by the margin; none covers the starting box.
   */
  function Blocks(kind: ObstacleKind, n: nat, g: Rng): (r: (seq<Obstacle>, Rng))
    requires kind == House || kind == Rock
    ensures r.1.source == g.source
    ensures |r.0| <= (if kind == House then 2 * n else n)
    ensures Spaced(kind, r.0)
    ensures forall o | o in r.0 :: Spares(o)
    decreases n
  {
    if n == 0 then ([], g)
    else
      var prior := Blocks(kind, n - 1, g);
      IterationSpaced(kind, prior.0, prior.1);
      IterationSpares(kind, prior.0, prior.1);
      Iteration(kind, prior.0, prior.1)
  }

  /** One iteration of the house (or rock) loop: the retries, then the placement. */
  function Iteration(kind: ObstacleKind, walls: seq<Obstacle>, g: Rng): (r: (seq<Obstacle>, Rng))
    requires kind == House || kind == Rock
    ensures r.1.source == g.source
    ensures |walls| <= |r.0| <= |walls| + (if kind == House then 2 else 1)
  {
    var t := Try(kind, walls, g, PLACEMENT_ATTEMPTS);
    Place(kind, walls, t.0, t.1)
  }

  /**
   * One iteration's outcome: the accepted rectangle, if any, becomes a wall;
   * a house then takes one more draw for its lantern.
   */
  function Place(kind: ObstacleKind, walls: seq<Obstacle>, spot: Option<Rect>, g: Rng): (r: (seq<Obstacle>, Rng))
    ensures r.1.source == g.source
    ensures |walls| <= |r.0| <= |walls| + (if kind == House then 2 else 1)
    ensures r.0[..|walls|] == walls
    ensures spot.None? ==> r.0 == walls
    ensures spot.Some? ==> |r.0| > |walls| && r.0[|walls|] == Wall(kind, spot.value)
    ensures spot.Some? && kind == House ==> r.1 == Skip(g, 1) && (|r.0| == |walls| + 2 <==> Draw(g, 0) > 0.4)
    ensures |r.0| == |walls| + 2 ==> r.0[|walls| + 1] == LanternBy(spot.value)
  {
    if spot.None? then (walls, g)
    else if kind == House then
      (walls + [Wall(House, spot.value)] + (if Draw(g, 0) > 0.4 then [LanternBy(spot.value)] else []), Skip(g, 1))
    else (walls + [Wall(kind, spot.value)], g)
  }

  // ---------------------------------------------------------------------
  // Trees.

  /** A 40 x 40 tree at a random spot, kept only when more than 100 pixels left or right of the centre. */
  function Trees(n: nat, g: Rng): (r: (seq<Obstacle>, Rng))
    ensures r.1 == Skip(g, 2 * n)
    decreases n
  {
    if n == 0 then ([], g)
    else
      var prior := Trees(n - 1, g);
      var tx, ty := Draw(prior.1, 0) * CANVAS_WIDTH, Draw(prior.1, 1) * CANVAS_HEIGHT;
      (prior.0 + (if AbsReal(tx - CANVAS_WIDTH / 2.0) > 100.0 then [Obstacle(Vec2(tx, ty), Size(40.0, 40.0), Tree)] else []),
       Skip(prior.1, 2))
  }

  /** Houses for Kyoto, rocks elsewhere. */
  function BlockKind(scenario: ScenarioType): ObstacleKind
  {
    if scenario == Kyoto then House else Rock
  }

  /** `5 + Math.min(3, wave)` houses or rocks are attempted. */
  function BlockCount(wave: int): nat
  {
    Times(5 + (if wave < 3 then wave else 3))
  }

  /** Six trees in Kyoto, ten in the wilderness. */
  function TreeCount(scenario: ScenarioType): nat
  {
    if scenario == Kyoto then 6 else 10
  }

  /** The walls of a wave: the houses (with lanterns) or rocks, then the trees. */
  function Layout(scenario: ScenarioType, wave: int, g: Rng): (r: (seq<Obstacle>, Rng))
  {
    var blocks := Blocks(BlockKind(scenario), BlockCount(wave), g);
    var trees := Trees(TreeCount(scenario), blocks.1);
    (blocks.0 + trees.0, trees.1)
  }

  // ---------------------------------------------------------------------
  // The safe zone keeps the player's start clear.

  lemma SquareBelow(a: real, b: real)
    requires -b < a < b
    ensures a * a < b * b
  {
    SquareMonotone(AbsReal(a), b);
  }

  /** No accepted house or rock covers the player's starting box. */
  lemma BlockSparesStart(kind: ObstacleKind, r: Rect)
    requires Shaped(kind, r) && !NearCentre(r)
    ensures !CheckRectCollision(r, StartBox())
  {
    if CheckRectCollision(r, StartBox()) {
      var dx := r.x + r.w / 2.0 - CANVAS_WIDTH / 2.0;
      var dy := r.y + r.h / 2.0 - CANVAS_HEIGHT / 2.0;
      SquareBelow(dx, 96.0);
      SquareBelow(dy, 76.0);
      assert false;
    }
  }

  /** A lantern by an accepted house does not cover the player's starting box either. */
  lemma LanternSparesStart(r: Rect)
    requires Shaped(House, r) && !NearCentre(r)
    ensures !CheckRectCollision(ToRect(LanternBy(r).Bounds()), StartBox())
  {
    if CheckRectCollision(ToRect(LanternBy(r).Bounds()), StartBox()) {
      var dx := r.x + r.w / 2.0 - CANVAS_WIDTH / 2.0;
      var dy := r.y + r.h / 2.0 - CANVAS_HEIGHT / 2.0;
      SquareBelow(dx, 106.0);
      SquareBelow(dy, 76.0);
      assert false;
    }
  }

  /** The wall's rectangle does not overlap the player's starting box. */
  predicate Spares(o: Obstacle)
  {
    !CheckRectCollision(ToRect(o.Bounds()), StartBox())
  }

  /** One iteration adds only walls that spare the starting box. */
  lemma IterationSpares(kind: ObstacleKind, walls: seq<Obstacle>, g: Rng)
    requires kind == House || kind == Rock
    ensures (forall o | o in walls :: Spares(o)) ==> forall o | o in Iteration(kind, walls, g).0 :: Spares(o)
  {
    var spot := Try(kind, walls, g, PLACEMENT_ATTEMPTS).0;
    if spot.Some? {
      BlockSparesStart(kind, spot.value);
      if kind == House {
        LanternSparesStart(spot.value);
      }
    }
  }

  lemma {:induction false} TreesSpareStart(n: nat, g: Rng)
    ensures forall o | o in Trees(n, g).0 :: Spares(o)
  {
    if n > 0 {
      TreesSpareStart(n - 1, g);
    }
  }

  /**
   * The safe zone does its job: whatever the draws, no wall the layout
   * places overlaps the box the player starts the wave in.
   */
  lemma LayoutSparesStart(scenario: ScenarioType, wave: int, g: Rng)
    ensures forall o | o in Layout(scenario, wave, g).0 :: Spares(o)
  {
    TreesSpareStart(TreeCount(scenario), Blocks(BlockKind(scenario), BlockCount(wave), g).1);
  }

  /**
   * Walls keep their distance: no house (or rock) overlaps any wall placed
   * before it, grown by the margin.
   */
  predicate Spaced(kind: ObstacleKind, walls: seq<Obstacle>)
  {
    forall i, j | 0 <= i < j < |walls| && walls[j].kind == kind ::
      !CheckRectCollision(ToRect(walls[j].Bounds()), Inflate(walls[i], Margin(kind)))
  }

  /** One iteration keeps the walls spaced: the new wall fits, and a lantern is of another kind. */
  lemma PlaceSpaced(kind: ObstacleKind, walls: seq<Obstacle>, spot: Option<Rect>, g: Rng)
    requires kind == House || kind == Rock
    requires Spaced(kind, walls)
    requires spot.Some? ==> Fits(kind, spot.value, walls)
    ensures Spaced(kind, Place(kind, walls, spot, g).0)
  {
    var w := Place(kind, walls, spot, g).0;
    forall i, j | 0 <= i < j < |w| && w[j].kind == kind
      ensures !CheckRectCollision(ToRect(w[j].Bounds()), Inflate(w[i], Margin(kind)))
    {
      assert w[..|walls|] == walls;
      if j < |walls| {
        assert w[i] == walls[i] && w[j] == walls[j];
      } else if j == |walls| {
        assert ToRect(w[j].Bounds()) == spot.value;
        assert w[i] == walls[i];
      }
    }
  }

  lemma IterationSpaced(kind: ObstacleKind, walls: seq<Obstacle>, g: Rng)
    requires kind == House || kind == Rock
    ensures Spaced(kind, walls) ==> Spaced(kind, Iteration(kind, walls, g).0)
  {
    if Spaced(kind, walls) {
      var t := Try(kind, walls, g, PLACEMENT_ATTEMPTS);
      PlaceSpaced(kind, walls, t.0, t.1);
    }
  }

  // ---------------------------------------------------------------------
  // Spawning the wave.

  /** `3 + Math.floor(wave * 1.5)` enemies are attempted. */
  function SpawnCount(wave: int): nat
  {
    Times(3 + (wave as real * 1.5).Floor)
  }

  /** `Math.min(0.5, (wave - 1) * 0.1)`: the chance that a spawned enemy is a vampire. */
  function VampireChance(wave: int): (r: real)
    ensures r <= 0.5
    ensures wave >= 1 ==> 0.0 <= r
    ensures wave <= 1 ==> r <= 0.0
    ensures wave >= 6 ==> r == 0.5
  {
    Min(0.5, (wave - 1) as real * 0.1)
  }

  /** The spot is inside the 400 x 400 box centred on the player's position (`Math.abs` on each axis below 200). */
  predicate NearPlayer(p: Vec2, player: Vec2)
  {
    AbsReal(p.x - player.x) < 200.0 && AbsReal(p.y - player.y) < 200.0
  }

  /** An enemy's box at the spot. */
  function EnemyBox(p: Vec2): Rect
  {
    Rect(p.x, p.y, ENEMY_W, ENEMY_H)
  }

  /** A spawn attempt is accepted: away from the player and clear of every wall. */
  predicate Clear(p: Vec2, player: Vec2, obstacles: seq<Obstacle>)
  {
    !NearPlayer(p, player) && !Blocked(EnemyBox(p), obstacles)
  }

  /** The spawn retry loop with `left` attempts to go, two draws per attempt. */
  function Spot(player: Vec2, obstacles: seq<Obstacle>, g: Rng, left: nat): (r: (Option<Vec2>, Rng))
    ensures r.0.Some? ==> Clear(r.0.value, player, obstacles)
    ensures r.0.Some? ==> 0.0 <= r.0.value.x < CANVAS_WIDTH - SPAWN_INSET && 0.0 <= r.0.value.y < CANVAS_HEIGHT - SPAWN_INSET
    ensures r.0.None? ==> r.1.index == g.index + 2 * left
    ensures g.index <= r.1.index <= g.index + 2 * left && r.1.source == g.source
    decreases left
  {
    if left == 0 then (None, g)
    else
      Fraction(Draw(g, 0), CANVAS_WIDTH - SPAWN_INSET);
      Fraction(Draw(g, 1), CANVAS_HEIGHT - SPAWN_INSET);
      var p := Vec2(Draw(g, 0) * (CANVAS_WIDTH - SPAWN_INSET), Draw(g, 1) * (CANVAS_HEIGHT - SPAWN_INSET));
      if Clear(p, player, obstacles) then (Some(p), Skip(g, 2)) else Spot(player, obstacles, Skip(g, 2), left - 1)
  }

  /**
   * The enemy spawned at p: a vampire when the first draw is below the
   * chance (health 3) and a guard otherwise (health 2); the second draw is
   * its identifier, the third sets its first attack timer.
   */
  function Recruit(p: Vec2, chance: real, g: Rng): (r: (Enemy, Rng))
    ensures r.0.kind == Vampire <==> g.source(g.index) < chance
    ensures r.0.health == r.0.maxHealth == (if r.0.kind == Vampire then 3 else 2)
    ensures r.0.pos == p && r.0.size == Size(ENEMY_W, ENEMY_H) && !r.0.isDead && r.0.path == []
    ensures 0.0 <= r.0.attackTimer < VAMPIRE_ATTACK_COOLDOWN
    ensures r.1 == Skip(g, 3)
  {
    var vampire := Draw(g, 0) < chance;
    Fraction(Draw(g, 2), VAMPIRE_ATTACK_COOLDOWN);
    var h := if vampire then 3 else 2;
    (Enemy(if vampire then Vampire else Guard, p, Size(ENEMY_W, ENEMY_H), Vec2(0.0, 0.0), h, h, false,
           [], 0.0, Draw(g, 2) * VAMPIRE_ATTACK_COOLDOWN, 0.0, None, 0.0, 0.0,
           if vampire then WEIGHT_VAMPIRE else WEIGHT_SAMURAI), Skip(g, 3))
  }

  /**
   * Where a spawned enemy stands and how it starts: alive at full health
   * (3 for a vampire, 2 for a guard), outside the box around the player,
   * clear of every wall and on the board.
   */
  predicate Placed(e: Enemy, player: Vec2, obstacles: seq<Obstacle>)
  {
    !e.isDead && e.health == e.maxHealth == (if e.kind == Vampire then 3 else 2) &&
    !NearPlayer(e.pos, player) && !Blocked(ToRect(e.Bounds()), obstacles) &&
    0.0 <= e.pos.x < CANVAS_WIDTH - SPAWN_INSET && 0.0 <= e.pos.y < CANVAS_HEIGHT - SPAWN_INSET
  }

  /**
   * The spawn loop over its first n iterations: each spawns one enemy if an
   * attempt is accepted, so there are at most n of them, each placed as
   * Placed says; the first wave (or any wave numbered below it) spawns
   * guards only, since the chance is 0 and no draw is below it.
   */
  function Recruits(n: nat, wave: int, player: Vec2, obstacles: seq<Obstacle>, g: Rng): (r: (seq<Enemy>, Rng))
    ensures r.1.source == g.source
    ensures |r.0| <= n
    ensures forall e | e in r.0 :: Placed(e, player, obstacles)
    ensures wave <= 1 ==> forall e | e in r.0 :: e.kind == Guard
    decreases n
  {
    if n == 0 then ([], g)
    else
      var prior := Recruits(n - 1, wave, player, obstacles, g);
      MusterPlaced(wave, player, obstacles, prior.0, prior.1);
      MusterGuards(wave, player, obstacles, prior.0, prior.1);
      Muster(wave, player, obstacles, prior.0, prior.1)
  }

  /** One iteration of the spawn loop: the retries, then the enemy at the accepted spot. */
  function Muster(wave: int, player: Vec2, obstacles: seq<Obstacle>, es: seq<Enemy>, g: Rng): (r: (seq<Enemy>, Rng))
    ensures r.1.source == g.source
    ensures |es| <= |r.0| <= |es| + 1
  {
    var s := Spot(player, obstacles, g, PLACEMENT_ATTEMPTS);
    Enlist(es, s.0, VampireChance(wave), s.1)
  }

  /** One iteration's outcome: the accepted spot, if any, gets an enemy (three draws). */
  function Enlist(es: seq<Enemy>, spot: Option<Vec2>, chance: real, g: Rng): (r: (seq<Enemy>, Rng))
    ensures r.1.source == g.source
    ensures spot.None? ==> r == (es, g)
    ensures spot.Some? ==> r == (es + [Recruit(spot.value, chance, g).0], Skip(g, 3))
  {
    if spot.None? then (es, g)
    else
      var e := Recruit(spot.value, chance, g);
      (es + [e.0], e.1)
  }

  /** An iteration of the spawn loop adds only a placed enemy. */
  lemma MusterPlaced(wave: int, player: Vec2, obstacles: seq<Obstacle>, es: seq<Enemy>, g: Rng)
    ensures (forall e | e in es :: Placed(e, player, obstacles)) ==>
              forall e | e in Muster(wave, player, obstacles, es, g).0 :: Placed(e, player, obstacles)
  {
    var s := Spot(player, obstacles, g, PLACEMENT_ATTEMPTS);
    if s.0.Some? {
      var e := Recruit(s.0.value, VampireChance(wave), s.1).0;
      assert ToRect(e.Bounds()) == EnemyBox(s.0.value);
      assert Placed(e, player, obstacles);
      assert Muster(wave, player, obstacles, es, g).0 == es + [e];
    } else {
      assert Muster(wave, player, obstacles, es, g).0 == es;
    }
  }

  /** In the first wave an iteration of the spawn loop adds a guard only. */
  lemma MusterGuards(wave: int, player: Vec2, obstacles: seq<Obstacle>, es: seq<Enemy>, g: Rng)
    ensures wave <= 1 && (forall e | e in es :: e.kind == Guard) ==>
              forall e | e in Muster(wave, player, obstacles, es, g).0 :: e.kind == Guard
  {
    var s := Spot(player, obstacles, g, PLACEMENT_ATTEMPTS);
    if wave <= 1 && (forall e | e in es :: e.kind == Guard) {
      EnlistGuards(es, s.0, VampireChance(wave), s.1);
      assert Muster(wave, player, obstacles, es, g) == Enlist(es, s.0, VampireChance(wave), s.1);
    }
  }

  /** With no chance of a vampire, an iteration of the spawn loop adds guards only. */
  lemma EnlistGuards(es: seq<Enemy>, spot: Option<Vec2>, chance: real, g: Rng)
    requires chance <= 0.0 && forall e | e in es :: e.kind == Guard
    ensures forall e | e in Enlist(es, spot, chance, g).0 :: e.kind == Guard
  {
    if spot.Some? {
      assert Draw(g, 0) >= 0.0;
    }
  }

  // ---------------------------------------------------------------------
  // The state the component starts from.

  /** The stateRef the component is created with: the player centred, 3 health, 100 chakra, 10 shurikens, wave 1. */
  function Fresh(): GameState
  {
    GameState(
      Player(Vec2(CANVAS_WIDTH / 2.0, CANVAS_HEIGHT / 2.0), Size(PLAYER_W, PLAYER_H), Vec2(0.0, 0.0),
             INITIAL_HEALTH, INITIAL_HEALTH, false, Some(INITIAL_CHAKRA), Some(INITIAL_CHAKRA), 0.0,
             INITIAL_LEVEL, INITIAL_XP, INITIAL_MAX_XP, 1.0, 0.0, 0.0),
      [], [], [], [], [], [], 0, INITIAL_SHURIKENS, 1, false, false, 0.0, 0.0)
  }

  /**
   * The initial state handed in, merged into the fresh one: its score, its
   * shurikens (`|| INITIAL_SHURIKENS`, so 0 becomes 10) and its player.
   */
  function Seeded(init: Option<GameState>): (r: GameState)
    ensures init.None? ==> r == Fresh()
    ensures init.Some? ==> r == Fresh().(score := init.value.score, player := init.value.player,
                                        shurikens := if init.value.shurikens == 0 then INITIAL_SHURIKENS else init.value.shurikens)
  {
    Merged(Fresh(), init)
  }

  /**
   * The seeding effect's merge into the state it runs on: the initial
   * state's score, shurikens (0 becoming 10) and player; with no initial
   * state nothing is merged. Nothing else of the state changes.
   */
  function Merged(s: GameState, init: Option<GameState>): (r: GameState)
    ensures init.None? ==> r == s
    ensures r == s.(score := r.score, shurikens := r.shurikens, player := r.player)
    ensures init.Some? ==> r.score == init.value.score && r.player == init.value.player && r.shurikens != 0
    ensures init.Some? && init.value.shurikens != 0 ==> r.shurikens == init.value.shurikens
  {
    match init
    case None => s
    case Some(i) =>
      s.(score := i.score, shurikens := if i.shurikens == 0 then INITIAL_SHURIKENS else i.shurikens, player := i.player)
  }

  /** Re-running the merge with the same initial state changes nothing more. */
  lemma MergeIdempotent(s: GameState, init: Option<GameState>)
    ensures Merged(Merged(s, init), init) == Merged(s, init)
  {
  }

  /** `initialState?.wave || 1`. */
  function StartWave(init: Option<GameState>): (w: int)
    ensures init.None? ==> w == 1
    ensures init.Some? ==> w == (if init.value.wave == 0 then 1 else init.value.wave)
  {
    if init.None? || init.value.wave == 0 then 1 else init.value.wave
  }

  // ---------------------------------------------------------------------
  // The loops.

  /** The `for (const other of walls)` scan against the grown walls, with its `break`. */
  method CrowdsAny(r: Rect, walls: seq<Obstacle>, m: real) returns (overlap: bool)
    ensures overlap == Crowds(r, walls, m)
  {
    overlap := false;
    var k := 0;
    while k < |walls|
      invariant 0 <= k <= |walls|
      invariant forall j | 0 <= j < k :: !CheckRectCollision(r, Inflate(walls[j], m))
    {
      if CheckRectCollision(r, Inflate(walls[k], m)) {
        overlap := true;
        break;
      }
      k := k + 1;
    }
  }

  /** One house's (or rock's) `while (!valid && attempts < 50)` loop. */
  method PlaceBlock(kind: ObstacleKind, walls: seq<Obstacle>, g: Rng) returns (spot: Option<Rect>, g': Rng)
    requires kind == House || kind == Rock
    ensures (spot, g') == Try(kind, walls, g, PLACEMENT_ATTEMPTS)
  {
    var attempts := 0;
    var valid := false;
    var r := Rect(0.0, 0.0, 0.0, 0.0);
    g' := g;
    while !valid && attempts < PLACEMENT_ATTEMPTS
      invariant 0 <= attempts <= PLACEMENT_ATTEMPTS
      invariant Try(kind, walls, g, PLACEMENT_ATTEMPTS) ==
                (if valid then (Some(r), g') else Try(kind, walls, g', PLACEMENT_ATTEMPTS - attempts))
      decreases PLACEMENT_ATTEMPTS - attempts, if valid then 0 else 1
    {
      attempts := attempts + 1;
      r := Candidate(kind, g');
      g' := Skip(g', 4);
      if NearCentre(r) {
        continue;
      }
      var overlap := CrowdsAny(r, walls, Margin(kind));
      if !overlap {
        valid := true;
      }
    }
    spot := if valid then Some(r) else None;
  }

  /** One iteration of the house (or rock) loop: the attempts, then the wall and its lantern. */
  method PlaceOne(kind: ObstacleKind, walls: seq<Obstacle>, g: Rng) returns (walls': seq<Obstacle>, g': Rng)
    requires kind == House || kind == Rock
    ensures (walls', g') == Iteration(kind, walls, g)
  {
    var spot;
    spot, g' := PlaceBlock(kind, walls, g);
    ghost var tried := g';
    walls' := walls;
    if spot.Some? {
      walls' := walls' + [Wall(kind, spot.value)];
      if kind == House {
        if Draw(g', 0) > 0.4 {
          walls' := walls' + [LanternBy(spot.value)];
        } else {
          assert walls' == walls' + [];
        }
        g' := Skip(g', 1);
      }
    }
    assert (walls', g') == Place(kind, walls, spot, tried);
    assert (spot, tried) == Try(kind, walls, g, PLACEMENT_ATTEMPTS);
  }

  /** The house (or rock) `for` loop. */
  method BuildBlocks(kind: ObstacleKind, n: nat, g: Rng) returns (walls: seq<Obstacle>, g': Rng)
    requires kind == House || kind == Rock
    ensures (walls, g') == Blocks(kind, n, g)
  {
    walls, g' := [], g;
    var i := 0;
    while i < n
      invariant 0 <= i <= n
      invariant (walls, g') == Blocks(kind, i, g)
    {
      assert Blocks(kind, i + 1, g) == Iteration(kind, walls, g');
      walls, g' := PlaceOne(kind, walls, g');
      i := i + 1;
    }
  }

  /** The tree `for` loop. */
  method PlantTrees(n: nat, g: Rng) returns (trees: seq<Obstacle>, g': Rng)
    ensures (trees, g') == Trees(n, g)
  {
    trees, g' := [], g;
    var i := 0;
    while i < n
      invariant 0 <= i <= n
      invariant (trees, g') == Trees(i, g)
    {
      ghost var before := (trees, g');
      var tx, ty := Draw(g', 0) * CANVAS_WIDTH, Draw(g', 1) * CANVAS_HEIGHT;
      g' := Skip(g', 2);
      if AbsReal(tx - CANVAS_WIDTH / 2.0) > 100.0 {
        trees := trees + [Obstacle(Vec2(tx, ty), Size(40.0, 40.0), Tree)];
      }
      assert g' == Skip(before.1, 2);
      assert Trees(i + 1, g).1 == Skip(before.1, 2);
      assert Trees(i + 1, g).0 == trees;
      i := i + 1;
    }
  }

  /** setupLevel's wall placement for the scenario and wave. */
  method BuildLayout(scenario: ScenarioType, wave: int, g: Rng) returns (walls: seq<Obstacle>, g': Rng)
    ensures (walls, g') == Layout(scenario, wave, g)
  {
    var blocks, g1 := BuildBlocks(BlockKind(scenario), BlockCount(wave), g);
    var trees;
    trees, g' := PlantTrees(TreeCount(scenario), g1);
    walls := blocks + trees;
  }

  /** One enemy's `while (!valid && att < 50)` loop. */
  method FindSpot(player: Vec2, obstacles: seq<Obstacle>, g: Rng) returns (spot: Option<Vec2>, g': Rng)
    ensures (spot, g') == Spot(player, obstacles, g, PLACEMENT_ATTEMPTS)
  {
    var att := 0;
    var valid := false;
    var p := Vec2(0.0, 0.0);
    g' := g;
    while !valid && att < PLACEMENT_ATTEMPTS
      invariant 0 <= att <= PLACEMENT_ATTEMPTS
      invariant Spot(player, obstacles, g, PLACEMENT_ATTEMPTS) ==
                (if valid then (Some(p), g') else Spot(player, obstacles, g', PLACEMENT_ATTEMPTS - att))
      decreases PLACEMENT_ATTEMPTS - att, if valid then 0 else 1
    {
      att := att + 1;
      p := Vec2(Draw(g', 0) * (CANVAS_WIDTH - SPAWN_INSET), Draw(g', 1) * (CANVAS_HEIGHT - SPAWN_INSET));
      g' := Skip(g', 2);
      if NearPlayer(p, player) {
        continue;
      }
      var inWall := CollidesWithAny(EnemyBox(p), obstacles);
      if !inWall {
        valid := true;
      }
    }
    spot := if valid then Some(p) else None;
  }

  /** One iteration of the spawn loop: the attempts, then the enemy at the accepted spot. */
  method SpawnOne(wave: int, chance: real, player: Vec2, obstacles: seq<Obstacle>, enemies: seq<Enemy>, g: Rng)
    returns (enemies': seq<Enemy>, g': Rng)
    requires chance == VampireChance(wave)
    ensures (enemies', g') == Muster(wave, player, obstacles, enemies, g)
  {
    var spot;
    spot, g' := FindSpot(player, obstacles, g);
    ghost var found := g';
    enemies' := enemies;
    if spot.Some? {
      var e := Recruit(spot.value, chance, g');
      enemies' := enemies' + [e.0];
      g' := e.1;
    }
    assert (enemies', g') == Enlist(enemies, spot, chance, found);
  }

  /** spawnWave(count, wave): the enemies it pushes, in order. */
  method SpawnWave(count: nat, wave: int, player: Vec2, obstacles: seq<Obstacle>, g: Rng)
    returns (enemies: seq<Enemy>, g': Rng)
    ensures (enemies, g') == Recruits(count, wave, player, obstacles, g)
  {
    var chance := Min(0.5, (wave - 1) as real * 0.1);
    enemies, g' := [], g;
    var i := 0;
    while i < count
      invariant 0 <= i <= count
      invariant (enemies, g') == Recruits(i, wave, player, obstacles, g)
    {
      assert Recruits(i + 1, wave, player, obstacles, g) == Muster(wave, player, obstacles, enemies, g');
      enemies, g' := SpawnOne(wave, chance, player, obstacles, enemies, g');
      i := i + 1;
    }
  }
}

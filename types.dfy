/**
 * Record shapes of the game (types.ts): vectors, the entity records of the
 * simulation and the world snapshot. The single shared `GameObject` record of
 * the source becomes one datatype per kind of entity, each with the fields
 * that kind uses.
 */
module Types {

  datatype Option<T> = None | Some(value: T)

  datatype Vec2 = Vec2(x: real, y: real)

  datatype Size = Size(w: real, h: real)

  /** The bounding box of an entity: top-left corner and extent. */
  datatype Box = Box(pos: Vec2, size: Size)

  /** A rectangle in the `{x, y, w, h}` form used by the rectangle test. */
  datatype Rect = Rect(x: real, y: real, w: real, h: real)

  /** A value drawn by `Math.random()`: in [0, 1). */
  type Unit = r: real | 0.0 <= r < 1.0

  /**
   * The random source: an arbitrary injected stream of draws and the index
   * of the next one. It stands for the ambient `Math.random()` of the source.
   */
  datatype Rng = Rng(source: nat -> Unit, index: nat)

  /** Take one draw from the random source. */
  function Next(g: Rng): (r: (Unit, Rng))
    ensures r.0 == g.source(g.index)
    ensures r.1 == g.(index := g.index + 1)
  {
    (g.source(g.index), g.(index := g.index + 1))
  }

  /** Skip n draws of the random source. */
  function Skip(g: Rng, n: nat): (r: Rng)
    ensures r.source == g.source && r.index == g.index + n
  {
    g.(index := g.index + n)
  }

  /** The k-th draw from now, without taking it. */
  function Draw(g: Rng, k: nat): Unit
  {
    g.source(g.index + k)
  }

  datatype ScenarioType = Wilderness | Kyoto

  datatype Facing = Up | Down | Left | Right

  datatype UpgradeKind = HealthUp | ChakraUp | ShurikenUp | SpeedUp | DashUp | FireballUp | Heal

  datatype ObstacleKind = House | Lantern | Tree | Rock

  datatype Obstacle = Obstacle(pos: Vec2, size: Size, kind: ObstacleKind)
  {
    function Bounds(): Box { Box(pos, size) }
  }

  /**
   * The player. chakra and maxChakra are optional in the source record; the
   * other optional fields the game reads are present in every state the
   * application builds, so they are plain fields here. An undefined
   * invulnerableTimer behaves like 0 in every test the source makes on it.
   * The player's weight is never read by the simulation and is left out.
   */
  datatype Player = Player(
    pos: Vec2, size: Size, velocity: Vec2,
    health: int, maxHealth: int, isDead: bool,
    chakra: Option<real>, maxChakra: Option<real>,
    invulnerableTimer: real,
    level: int, xp: int, maxXp: int,
    speedMult: real, dashCooldownMod: real, fireballCooldownMod: real)
  {
    function Bounds(): Box { Box(pos, size) }
  }

  datatype EnemyKind = Guard | Vampire

  /**
   * An enemy. The behaviour timers that the source leaves undefined until
   * first use are 0.0 here: every test the source makes on them
   * (`t && t > 0`, `!t || t <= 0`, `(t || 0) - dt`) treats undefined as 0.
   * The death timer is different (`(t || 0.8) - dt`), so it stays optional.
   */
  datatype Enemy = Enemy(
    kind: EnemyKind, pos: Vec2, size: Size, velocity: Vec2,
    health: int, maxHealth: int, isDead: bool,
    path: seq<Vec2>, pathTimer: real,
    attackTimer: real, swingTimer: real, deathTimer: Option<real>,
    lungeTimer: real, lungeCooldown: real,
    weight: int)
  {
    function Bounds(): Box { Box(pos, size) }
  }

  datatype ProjectileKind = Shuriken | EnemyBolt | Fireball

  datatype Projectile = Projectile(
    kind: ProjectileKind, pos: Vec2, size: Size, velocity: Vec2,
    health: int, maxHealth: int, isDead: bool,
    startPos: Option<Vec2>)
  {
    function Bounds(): Box { Box(pos, size) }
  }

  /** An experience orb; `value` is its yield. */
  datatype Pickup = Pickup(pos: Vec2, size: Size, velocity: Vec2, isDead: bool, value: int)
  {
    function Bounds(): Box { Box(pos, size) }
  }

  datatype Particle = Particle(pos: Vec2, size: Size, velocity: Vec2, lifeTime: real, maxLifeTime: real)

  datatype FireZone = FireZone(pos: Vec2, size: Size, lifeTime: real, maxLifeTime: real, tickTimer: real)

  /** The world snapshot handed to the progression screens. */
  datatype GameState = GameState(
    player: Player,
    enemies: seq<Enemy>, obstacles: seq<Obstacle>, projectiles: seq<Projectile>,
    particles: seq<Particle>, pickups: seq<Pickup>, fireZones: seq<FireZone>,
    score: int, shurikens: int, wave: int,
    isGameOver: bool, isPaused: bool,
    fireballCooldown: real, lightningBladeCooldown: real)

  /** Input sampled once per frame. */
  datatype InputState = InputState(
    up: bool, down: bool, left: bool, right: bool,
    attack: bool, shoot: bool, dash: bool, special: bool, skill1: bool,
    mousePos: Vec2)

  function Min(a: real, b: real): (r: real)
    ensures r <= a && r <= b && (r == a || r == b)
  {
    if a <= b then a else b
  }

  /** `Math.min` on integers. */
  function MinInt(a: int, b: int): (r: int)
    ensures r <= a && r <= b && (r == a || r == b)
  {
    if a <= b then a else b
  }

  function Max(a: real, b: real): (r: real)
    ensures r >= a && r >= b && (r == a || r == b)
  {
    if a >= b then a else b
  }
}

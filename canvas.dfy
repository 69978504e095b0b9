/**
 * The state the game canvas component keeps between frames
 * (components/GameCanvas.tsx: stateRef and the ref cells beside it), as one
 * value, together with the effects several phases of the frame share:
 * particle bursts, fresh identifiers and the player taking a hit.
 */
module CanvasState {
  import opened Types
  import opened Constants
  import opened Rules

  /**
   * Everything the frame reads and writes: the world (stateRef), the random
   * source, the walkability grid, the facing, the wave-clear latch and the
   * cooldown, timer and velocity refs of the four abilities.
   */
  datatype Canvas = Canvas(
    state: GameState, rng: Rng, grid: seq<seq<bool>>, facing: Facing,
    transition: Transition,
    attackCooldown: real, shootCooldown: real, fireballCooldown: real,
    dashCooldown: real, dashTime: real, dashVelocity: Vec2,
    bladeCooldown: real, bladeTime: real, bladeVelocity: Vec2)

  /**
   * What every phase of the frame but the player's settling leaves as it
   * was: the grid, the obstacles, the player's box and the number of enemies.
   */
  predicate Keeps(c: Canvas, r: Canvas)
  {
    r.grid == c.grid && r.state.obstacles == c.state.obstacles &&
    r.state.player.pos == c.state.player.pos && r.state.player.size == c.state.player.size &&
    |r.state.enemies| == |c.state.enemies|
  }

  /** `generateId()` spends one draw; the identifier itself is not modelled. */
  function FreshId(c: Canvas): (r: Canvas)
    ensures r == c.(rng := Skip(c.rng, 1))
  {
    c.(rng := Next(c.rng).1)
  }

  /** One spark at pos + 16 whose velocity comes from the draws a and b. */
  function Spark(pos: Vec2, a: Unit, b: Unit): Particle
  {
    Particle(Vec2(pos.x + 16.0, pos.y + 16.0), Size(3.0, 3.0),
             Vec2((a - 0.5) * 100.0, (b - 0.5) * 100.0), 0.5, 0.5)
  }

  /**
   * The particles `spawnParticles(pos, count)` creates from the draws of g:
   * particle i spends draws 3i (its identifier), 3i+1 and 3i+2 (its velocity).
   */
  function Sparks(pos: Vec2, count: nat, g: Rng): (r: seq<Particle>)
    ensures |r| == count
    ensures forall i | 0 <= i < count ::
              r[i] == Spark(pos, g.source(g.index + 3 * i + 1), g.source(g.index + 3 * i + 2))
  {
    seq(count, i requires 0 <= i < count =>
          Spark(pos, g.source(g.index + 3 * i + 1), g.source(g.index + 3 * i + 2)))
  }

  /** `spawnParticles(pos, count)`: append the sparks and spend 3 x count draws. */
  function Spawn(c: Canvas, pos: Vec2, count: nat): (r: Canvas)
    ensures r.state.particles == c.state.particles + Sparks(pos, count, c.rng)
    ensures r == c.(state := c.state.(particles := r.state.particles), rng := Skip(c.rng, 3 * count))
  {
    c.(state := c.state.(particles := c.state.particles + Sparks(pos, count, c.rng)),
       rng := Skip(c.rng, 3 * count))
  }

  /**
   * The player is struck (a guard's swing or a vampire bolt): unless still
   * invulnerable, one health point is lost, two seconds of invulnerability
   * start and the game is over once health reaches 0.
   */
  function HitPlayer(s: GameState): (r: GameState)
    ensures s.player.invulnerableTimer > 0.0 ==> r == s
    ensures s.player.invulnerableTimer <= 0.0 ==>
              r.player == s.player.(health := s.player.health - 1, invulnerableTimer := 2.0)
    ensures s.player.invulnerableTimer <= 0.0 ==> (r.isGameOver <==> s.isGameOver || s.player.health <= 1)
    ensures r == s.(player := r.player, isGameOver := r.isGameOver)
  {
    if s.player.invulnerableTimer <= 0.0 then
      var p := s.player.(health := s.player.health - 1, invulnerableTimer := 2.0);
      s.(player := p, isGameOver := if p.health <= 0 then true else s.isGameOver)
    else s
  }

  /** Two hits in a row within the invulnerability window cost one health point, not two. */
  lemma InvulnerabilityAbsorbsSecondHit(s: GameState)
    requires s.player.invulnerableTimer <= 0.0
    ensures HitPlayer(HitPlayer(s)).player.health == s.player.health - 1
  {
  }

  /** `pos + v * dt` component-wise. */
  function Glide(pos: Vec2, v: Vec2, dt: real): Vec2
  {
    Vec2(pos.x + v.x * dt, pos.y + v.y * dt)
  }

  function Scale(v: Vec2, k: real): Vec2
  {
    Vec2(v.x * k, v.y * k)
  }

  /** The centre of a 32-pixel box at pos. */
  function Centre(pos: Vec2): Vec2
  {
    Vec2(pos.x + 16.0, pos.y + 16.0)
  }
}

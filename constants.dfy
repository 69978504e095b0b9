/** Tuning values of the game (constants.ts). Distances are pixels, times seconds. */
module Constants {

  const CANVAS_WIDTH: real := 800.0
  const CANVAS_HEIGHT: real := 600.0

  const PLAYER_SPEED: real := 200.0
  const PLAYER_DASH_SPEED: real := 600.0
  const DASH_DURATION: real := 0.2
  const DASH_COOLDOWN: real := 3.0

  const LIGHTNING_BLADE_SPEED: real := 1200.0
  const LIGHTNING_BLADE_DURATION: real := 0.15
  const LIGHTNING_BLADE_COOLDOWN: real := 6.0
  const LIGHTNING_BLADE_COST: real := 40.0
  const LIGHTNING_BLADE_DAMAGE: int := 5

  const ENEMY_SPEED: real := 80.0
  const VAMPIRE_SPEED: real := 130.0
  const PROJECTILE_SPEED: real := 400.0

  const FIREBALL_SPEED: real := 350.0
  const FIREBALL_RANGE: real := 200.0
  const FIREBALL_COOLDOWN: real := 4.0
  const FIREBALL_COST: real := 50.0
  const EXPLOSION_RADIUS: real := 60.0
  const FIREBALL_DAMAGE: int := 2
  const FIRE_ZONE_DURATION: real := 3.0
  const FIRE_ZONE_TICK_RATE: real := 0.5
  const FIRE_ZONE_DAMAGE: int := 1

  const ENEMY_LUNGE_RANGE: real := 80.0
  const ENEMY_LUNGE_SPEED: real := 250.0
  const ENEMY_LUNGE_DURATION: real := 0.4
  const ENEMY_LUNGE_COOLDOWN: real := 3.0

  const VAMPIRE_ATTACK_COOLDOWN: real := 2.5
  const ENEMY_PROJECTILE_SPEED: real := 250.0

  const PLAYER_W: real := 32.0
  const PLAYER_H: real := 32.0
  const ENEMY_W: real := 32.0
  const ENEMY_H: real := 32.0
  /** Spawn points are drawn 40 pixels short of the right and bottom edges, not an enemy's width. */
  const SPAWN_INSET: real := 40.0
  const XP_ORB_W: real := 10.0
  const XP_ORB_H: real := 10.0

  const DEATH_DURATION: real := 0.8

  const WEIGHT_PLAYER: int := 20
  const WEIGHT_SAMURAI: int := 30
  const WEIGHT_VAMPIRE: int := 10

  const INITIAL_HEALTH: int := 3
  const INITIAL_CHAKRA: real := 100.0
  const CHAKRA_REGEN: real := 5.0
  const INITIAL_SHURIKENS: int := 10
  const INITIAL_LEVEL: int := 1
  const INITIAL_XP: int := 0
  const INITIAL_MAX_XP: int := 50

  const XP_ENEMY: int := 10
  const XP_VAMPIRE: int := 30

  const PRICE_HEAL: int := 50
  const PRICE_MAX_HEALTH: int := 250
  const PRICE_SHURIKENS: int := 40
  const PRICE_REFILL_CHAKRA: int := 30
  const PRICE_MAX_CHAKRA: int := 150
}

/** The tuning constants of the game (spaceio/constants/game.ts). */
module Constants {
  import opened Types

  const WORLD_SIZE: real := 4000.0
  const PLAYER_START_SIZE: real := 25.0
  const BASE_SPEED_MULTIPLIER: real := 0.18
  const GRAVITY_STRENGTH: real := 0.25
  const MAX_SPEED: real := 5.0
  const FRICTION: real := 0.92

  /** POWER_UP_TYPES, one row per kind. */
  function PowerUpType(k: PowerUpKind): PowerUpConfig
  {
    match k
    case Speed => PowerUpConfig("#ffff00", 2.0, 8.0, 0.3)
    case Shield => PowerUpConfig("#00ffff", 1.0, 10.0, 0.25)
    case Size => PowerUpConfig("#ff00ff", 1.5, 12.0, 0.2)
    case Mass => PowerUpConfig("#ff8800", 200.0, 9.0, 0.15)
    case Magnet => PowerUpConfig("#00ff00", 1.0, 11.0, 0.1)
  }

  /** Object.keys(POWER_UP_TYPES): the order in which the weighted draw scans the kinds. */
  const POWER_UP_KINDS: seq<PowerUpKind> := [Speed, Shield, Size, Mass, Magnet]

  const POWER_UP_SPAWN_RATE: real := 0.001

  /** POWER_UP_DURATION, in milliseconds. */
  function PowerUpDuration(k: PowerUpKind): int
  {
    match k
    case Speed => 6000
    case Shield => 10000
    case Size => 8000
    case Mass => 0
    case Magnet => 12000
  }

  const MAX_PARTICLES: nat := 200
  const PARTICLE_POOL_SIZE: nat := 300

  const AI_NAMES: seq<string> := [
    "CosmicHunter", "StarDestroyer", "GalaxyEater", "NebulaNinja", "VoidWalker",
    "PlanetCrusher", "SolarFlare", "DarkMatter", "Supernova", "BlackHole",
    "AstroKnight", "SpaceReaper", "CometTail", "OrbitMaster", "StellarForce"
  ]
}

/** The value records of the game (spaceio/types/game.ts). Records the game updates in place are classes in their own modules. */
module Types {

  /** SpaceObject["type"] */
  datatype ObjectKind = Asteroid | Enemy | SmallAsteroid

  /** PowerUp["type"] */
  datatype PowerUpKind = Speed | Shield | Size | Mass | Magnet

  /** The keys of Player["powerUps"]; Mass has no timer. */
  datatype TimerKey = ShieldTimer | SpeedBoostTimer | SizeMultiplierTimer | MagnetTimer

  /**
   * Player["powerUps"]: each timer is 0 when inactive, otherwise the absolute
   * expiry time in milliseconds.
   */
  datatype Timers = Timers(shield: int, speedBoost: int, sizeMultiplier: int, magnet: int)
  {
    function Get(k: TimerKey): int
    {
      match k
      case ShieldTimer => shield
      case SpeedBoostTimer => speedBoost
      case SizeMultiplierTimer => sizeMultiplier
      case MagnetTimer => magnet
    }

    function Set(k: TimerKey, v: int): (t: Timers)
      ensures t.Get(k) == v
      ensures forall j :: j != k ==> t.Get(j) == Get(j)
    {
      match k
      case ShieldTimer => this.(shield := v)
      case SpeedBoostTimer => this.(speedBoost := v)
      case SizeMultiplierTimer => this.(sizeMultiplier := v)
      case MagnetTimer => this.(magnet := v)
    }
  }

  /** One entry of Player["trail"]. */
  datatype Point = Point(x: real, y: real)

  datatype Camera = Camera(x: real, y: real, shake: real, zoom: real)

  datatype GameStats = GameStats(mass: real, absorbed: int, rank: int, powerUpsCollected: int)

  datatype LeaderboardEntry = LeaderboardEntry(id: string, name: string, mass: real, isPlayer: bool)

  /** One row of POWER_UP_TYPES. */
  datatype PowerUpConfig = PowerUpConfig(color: string, effect: real, size: real, rarity: real)
}

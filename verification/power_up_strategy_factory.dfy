/**
 * `PowerUpStrategyFactory`: maps a power-up kind to the strategy that applies
 * it to the factory's hero, and throws for a kind no strategy is registered for.
 */
module PowerUpStrategies {
  import opened Wrappers
  import opened JavaLang
  import opened HeroModel

  /**
   * Power-up kinds: the two the factory knows, and any other constant of the
   * enum (its declaration is not part of this model), named by its text.
   */
  datatype PowerUpType = SWORD | SHIELD | OtherPowerUp(name: string)

  /** A strategy object and the hero it is bound to. */
  datatype PowerUpStrategy = SwordPowerUpStrategy(hero: Hero) | ShieldPowerUpStrategy(hero: Hero)

  class PowerUpStrategyFactory {
    const hero: Hero

    constructor (hero: Hero)
      ensures this.hero == hero
    {
      this.hero := hero;
    }

    /** `createPowerUpStrategy`. */
    function CreatePowerUpStrategy(kind: PowerUpType): (r: Result<PowerUpStrategy, Exception>)
      ensures r.Success? <==> kind == SWORD || kind == SHIELD
      ensures kind == SWORD ==> r == Success(SwordPowerUpStrategy(hero))
      ensures kind == SHIELD ==> r == Success(ShieldPowerUpStrategy(hero))
      ensures r.Success? ==> r.value.hero == hero
    {
      match kind
      case SWORD => Success(SwordPowerUpStrategy(hero))
      case SHIELD => Success(ShieldPowerUpStrategy(hero))
      case OtherPowerUp(_) => Failure(IllegalArgumentException("Power-up type not valid"))
    }
  }
}

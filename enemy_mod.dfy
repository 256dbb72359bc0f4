/** The enemy component and its two-state activity flag (src/game/enemy/mod.rs). */
module Enemies {
  import opened Numeric
  import opened Timers
  import opened Components

  /** An enemy is either recharging (`Stopped`, the default) or chasing (`Moving`). */
  datatype EnemyState = Stopped | Moving

  /** `#[default]` on `EnemyState`. */
  const DefaultEnemyState: EnemyState := Stopped

  /** The `Enemy` component. */
  datatype Enemy = Enemy(
    lifetime: Timer,
    energy: real,
    maxEnergy: real,
    rechargeRate: real,
    state: EnemyState,
    colour: Color,
    health: nat)

  /** The placeholder colour a new enemy gets until the spawner overrides it. */
  const PlaceholderColour := Srgb(255.0, 0.0, 0.0)

  /** `Enemy::new(lifetime, max_energy, recharge_rate)`.  The starting energy is a uniform draw
      from `[0, max_energy]`, given here by `energyDraw` in `[0, 1]`; the engine panics on a
      negative lifetime or a negative `max_energy`. */
  function NewEnemy(lifetime: real, maxEnergy: real, rechargeRate: real, energyDraw: real): (e: Enemy)
    requires lifetime >= 0.0 && maxEnergy >= 0.0 && 0.0 <= energyDraw <= 1.0
    ensures e.state == Stopped && e.health == 4
    ensures 0.0 <= e.energy <= maxEnergy
    ensures e.maxEnergy == maxEnergy && e.rechargeRate == rechargeRate
    ensures e.lifetime == FromSeconds(lifetime, Once)
    ensures e.lifetime.duration == lifetime && e.lifetime.mode == Once && !e.lifetime.finished
  {
    Enemy(FromSeconds(lifetime, Once), Lerp(0.0, maxEnergy, energyDraw), maxEnergy, rechargeRate,
          Stopped, PlaceholderColour, 4)
  }

  /** One enemy entity as the systems query it: its handle, `Transform` translation, `Velocity`
      linear velocity, `Momentum`, `Enemy` component, `Fill` colour, collider radius and shape. */
  datatype EnemyEntity = EnemyEntity(
    id: Entity,
    translation: Vec3,
    velocity: Vec2,
    momentum: Momentum,
    enemy: Enemy,
    fill: Color,
    radius: real,
    path: Path)

  /** Every energy in `[0, max_energy]` is a possible starting energy. */
  lemma EveryStartingEnergyReachable(lifetime: real, maxEnergy: real, rechargeRate: real, energy: real)
    requires lifetime >= 0.0 && maxEnergy >= 0.0 && 0.0 <= energy <= maxEnergy
    ensures exists u :: 0.0 <= u <= 1.0 && NewEnemy(lifetime, maxEnergy, rechargeRate, u).energy == energy
  {
    LerpCovers(0.0, maxEnergy, energy);
    var u :| 0.0 <= u <= 1.0 && Lerp(0.0, maxEnergy, u) == energy;
    assert NewEnemy(lifetime, maxEnergy, rechargeRate, u).energy == energy;
  }
}

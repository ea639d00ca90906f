/** The configuration tables of GAME_CONSTANTS that the simulation reads.
    A numeric field that the table leaves out is written 0.0 here, since the
    code only ever reads such fields through `x || default`. */
module Constants {
  import opened Utils

  const GameSpeedDefault: real := 1.0
  const GameSpeedMin: real := 1.0
  const GameSpeedMax: real := 20.0

  const MinDistance: real := 5.0
  const AttackStopDistance: real := 0.9
  const ReactionTime: real := 0.2

  /** PHYSICS.GRAVITY; it is zero, so the projectile arc adds nothing to a move. */
  const Gravity: real := 0.0
  const CollisionDetectionInterval: real := 0.05
  const ProjectileLifetime: real := 3.0
  const ProjectileCollisionRadius: real := 5.0

  /** EFFECT_DURATION.DODGE: how long a dodge lasts, in seconds. */
  const DodgeDuration: real := 0.5
  /** EFFECT_DURATION.DAMAGE: how long a hit or heal marker stays, in seconds. */
  const DamageEffectDuration: real := 0.8

  const StartingGold: real := 500.0
  const DodgeIntelligence: real := 0.7

  datatype ProjectileConfig = ProjectileConfig(
    speed: real,
    size: real,
    damageMultiplier: real,
    healingMultiplier: real,
    gravityAffected: bool,
    gravityFactor: real,
    penetration: int,
    lifetime: real)

  const WarriorProjectile := ProjectileConfig(400.0, 6.0, 1.0, 0.0, false, 0.0, 0, 0.5)
  const ArcherProjectile := ProjectileConfig(500.0, 4.0, 0.9, 0.0, true, 0.1, 0, 1.5)
  const MageProjectile := ProjectileConfig(300.0, 8.0, 1.2, 0.0, false, 0.0, 0, 2.0)
  const HealerProjectile := ProjectileConfig(350.0, 7.0, 0.0, 1.0, false, 0.0, 0, 1.0)
  const TowerProjectile := ProjectileConfig(450.0, 5.0, 1.0, 0.0, false, 0.0, 0, 2.0)

  /** COMBAT.PROJECTILE_TYPES, by projectile type. */
  const ProjectileTypes: map<string, ProjectileConfig> :=
    map["warrior" := WarriorProjectile, "archer" := ArcherProjectile, "mage" := MageProjectile,
        "healer" := HealerProjectile, "tower" := TowerProjectile]

  /** COMBAT.ATTACK_RANGES[name], 0.0 where the table has no entry. */
  function AttackRanges(name: string): real {
    if name == "warrior" then 60.0
    else if name == "archer" then 250.0
    else if name == "mage" then 200.0
    else if name == "healer" then 180.0
    else if name == "tower" then 300.0
    else 0.0
  }

  /** AI.UNIT_PREFERENCE[side]: both sides list the same order. */
  function UnitPreference(side: int): Option<seq<string>> {
    if side == 0 || side == 1 then Some(["archer", "warrior", "mage", "healer"]) else None
  }
}

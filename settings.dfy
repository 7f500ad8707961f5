/**
 * The game's tuning constants. Fractional speeds and multipliers are
 * written in tenths (see `Rects.Scale`), so every constant is exact.
 */
module Settings {
  // Display
  const ScreenWidth: int := 800
  const ScreenHeight: int := 600
  const TileSize: int := 32
  const PixelScale: int := 2

  // Player (speeds in pixels per frame; gravity and terminal velocity in tenths)
  const PlayerSpeed: int := 4
  const PlayerJumpSpeed: int := -12
  const PlayerGravity: int := 5
  const TerminalVelocity: int := 150
  const PlayerMaxHealth: int := 4
  const PlayerMaxMagic: int := 4
  const PlayerAttackCooldown: int := 30
  const PlayerInvincibilityFrames: int := 120
  const AttackDuration: int := 15
  const PlayerSize: nat := 32

  // Spells: costs, buff durations, multipliers in tenths
  const ShieldCost: int := 1
  const SwiftCost: int := 1
  const FireballCost: int := 2
  const ThunderCost: int := 3
  const Thunder2Cost: int := 2
  const ShieldDuration: int := 300
  const SwiftDuration: int := 240
  const ShieldDamageReduction: int := 5
  const SwiftSpeedMultiplier: int := 15
  const SwiftJumpMultiplier: int := 13
  const NoMultiplier: int := 10

  // Projectiles
  const FireballSpeed: int := 8
  const FireballDamage: int := 2
  const FireballLifetime: int := 120
  const FireballSize: nat := 20
  const ThunderRadius: int := 80
  const ThunderDamage: int := 3
  const ThunderLifetime: int := 30
  const ThunderSize: nat := 32
  const Thunder2Damage: int := 4
  const Thunder2Lifetime: int := 45
  const Thunder2MaxHeight: int := 300
  const Thunder2Growth: int := 25

  // Enemies: health, contact damage, speed in tenths, score
  const SlimeHealth: int := 2
  const SlimeDamage: int := 1
  const SlimeSpeed: int := 10
  const SlimeScore: int := 10
  const BatHealth: int := 1
  const BatDamage: int := 1
  const BatSpeed: int := 25
  const BatScore: int := 20
  const KnightHealth: int := 4
  const KnightDamage: int := 2
  const KnightSpeed: int := 15
  const KnightScore: int := 50
  const CannonHealth: int := 20
  const CannonDamage: int := 3
  const CannonSpeed: int := 20
  const CannonScore: int := 500

  // Items
  const FoodHeal: int := 1
  const FeastHeal: int := 2
  const VialRestore: int := 1
  const PotionRestore: int := 2
  const HeartContainerIncrease: int := 1
  const MagicBottleIncrease: int := 1
  const CoinValue: int := 10
  const KeyValue: int := 100

  // World map (walking speed in tenths)
  const WorldMapWidth: int := 25
  const WorldMapHeight: int := 19
  const WorldPlayerSpeed: int := 30
}

/**
  Weapon archetypes. A weapon is plain data; the match holds one laser and
  one torpedo built from the catalog values below.
 */
module Weapons {

  datatype WeaponType = Laser | Torpedo | Plasma | Railgun | Missile

  /** The constructor's third argument is the projectile speed; range is
      measured in grid cells and critChance is a probability. */
  datatype Weapon = Weapon(kind: WeaponType, damage: int, speed: int, range: int, critChance: real)

  /** The macro-battery laser the match starts with. */
  const LaserSpec: Weapon := Weapon(Laser, 10, 6, 8, 0.1)

  /** The torpedo the match starts with. */
  const TorpedoSpec: Weapon := Weapon(Torpedo, 25, 4, 12, 0.2)
}

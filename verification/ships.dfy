/**
  A ship's combat state and the rules that change it: two-layer damage
  (shield first, then hull behind flat armour), shield regeneration,
  critical-hit degradation of one system, and customization.
 */
module Ships {
  import opened Grid

  datatype HullClass = Light | Medium | Heavy

  /** One row of the hull-class table. */
  datatype HullModifier = HullModifier(maxHull: int, speed: real, armor: int)

  /** The hull-class table. */
  function Modifier(c: HullClass): HullModifier
  {
    match c
    case Light => HullModifier(75, 1.5, 2)
    case Medium => HullModifier(100, 1.0, 5)
    case Heavy => HullModifier(150, 0.7, 8)
  }

  /** Which systems a critical hit has damaged. */
  datatype Systems = Systems(engines: bool, weapons: bool, shields: bool)

  const Intact: Systems := Systems(false, false, false)

  /** Position in the list of critical effects: engines, weapons, shields. */
  type SystemIndex = k: int | 0 <= k < 3

  const EnginesHit: SystemIndex := 0
  const WeaponsHit: SystemIndex := 1
  const ShieldsHit: SystemIndex := 2

  function Damaged(sys: Systems, k: SystemIndex): bool
  {
    match k
    case 0 => sys.engines
    case 1 => sys.weapons
    case _ => sys.shields
  }

  function MarkDamaged(sys: Systems, k: SystemIndex): (r: Systems)
    ensures forall j: SystemIndex :: Damaged(r, j) == (j == k || Damaged(sys, j))
  {
    match k
    case 0 => sys.(engines := true)
    case 1 => sys.(weapons := true)
    case _ => sys.(shields := true)
  }

  /** The speed multiplier of an engine hit. */
  const EngineFactor: real := 0.7

  /** The damage multiplier of a weapons hit. */
  const WeaponFactor: real := 0.8

  /** How much a shield-generator hit slows regeneration, and the floor it cannot go below. */
  const RegenPenalty: int := 2
  const MinRegen: int := 1

  datatype Ship = Ship(
    pos: Cell,
    isPlayer: bool,
    color: string,
    hullClass: HullClass,
    maxHull: int,
    hull: int,
    maxShield: int,
    shield: int,
    shieldRegenRate: int,
    macroBatteryDamage: real,
    torpedoDamage: real,
    armor: int,
    speed: real,
    systems: Systems)

  /** The applied customization form. */
  datatype Customization = Customization(
    color: string,
    hullClass: HullClass,
    shieldCapacity: int,
    shieldRegen: int,
    macroBatteries: int,
    torpedoPower: int)

  /** Two ships are the same vessel as built: same place, side, paint,
      hull class, capacities and armour. Combat never changes any of these. */
  predicate SameBuild(a: Ship, b: Ship)
  {
    && a.pos == b.pos
    && a.isPlayer == b.isPlayer
    && a.color == b.color
    && a.hullClass == b.hullClass
    && a.maxHull == b.maxHull
    && a.maxShield == b.maxShield
    && a.armor == b.armor
  }

  /** Sets the hull to the capacity of the ship's class and takes speed and
      armour from the table; everything else is kept. */
  function ApplyHullModifiers(s: Ship): (r: Ship)
    ensures r.maxHull == Modifier(s.hullClass).maxHull && r.hull == r.maxHull
    ensures r.speed == Modifier(s.hullClass).speed
    ensures r.armor == Modifier(s.hullClass).armor
    ensures r == s.(maxHull := r.maxHull, hull := r.hull, speed := r.speed, armor := r.armor)
  {
    var row := Modifier(s.hullClass);
    s.(maxHull := row.maxHull, hull := row.maxHull, speed := row.speed, armor := row.armor)
  }

  /** A freshly built ship: a medium hull at full strength, full shields,
      no damaged systems. */
  function NewShip(pos: Cell, isPlayer: bool): (r: Ship)
    ensures r.pos == pos && r.isPlayer == isPlayer
    ensures r.hullClass == Medium
    ensures r.hull == r.maxHull == 100
    ensures r.shield == r.maxShield == 100
    ensures r.shieldRegenRate == 5 && r.armor == 5 && r.speed == 1.0
    ensures r.macroBatteryDamage == 10.0 && r.torpedoDamage == 25.0
    ensures r.systems == Intact
    ensures !IsDestroyed(r)
  {
    var built := Ship(pos, isPlayer, "#00ff00", Medium, 100, 100, 100, 100, 5, 10.0, 25.0, 5, 1.0, Intact);
    ApplyHullModifiers(built)
  }

  /** Shields soak the hit first; whatever gets through, less armour, comes
      off the hull. The hull is not clamped and may go negative. */
  function Damage(s: Ship, amount: int): (r: Ship)
    ensures r == s.(shield := r.shield, hull := r.hull)
    ensures r.hull <= s.hull
    ensures s.shield > 0 && amount <= s.shield ==> r.shield == s.shield - amount && r.hull == s.hull
    ensures s.shield > 0 && amount > s.shield ==>
              r.shield == 0 && r.hull == s.hull - Max(amount - s.shield - s.armor, 0)
    ensures s.shield <= 0 ==> r.shield == s.shield && r.hull == s.hull - Max(amount - s.armor, 0)
    ensures s.shield >= 0 ==> r.shield >= 0
  {
    if s.shield > 0 then
      var left := s.shield - amount;
      if left < 0 then
        var overflow := Abs(left);
        s.(shield := 0, hull := s.hull - Max(overflow - s.armor, 0))
      else
        s.(shield := left)
    else
      s.(hull := s.hull - Max(amount - s.armor, 0))
  }

  /** One regeneration tick: a shield below capacity gains the regeneration
      rate, capped at capacity; a full shield is left alone. */
  function RegenerateShields(s: Ship): (r: Ship)
    ensures r == s.(shield := r.shield)
    ensures s.shield >= s.maxShield ==> r == s
    ensures s.shield < s.maxShield ==> r.shield <= s.maxShield
    ensures s.shield < s.maxShield ==> r.shield == s.maxShield || r.shield == s.shield + s.shieldRegenRate
    ensures s.shield < s.maxShield && s.shieldRegenRate >= 0 ==> s.shield <= r.shield
    ensures s.shield < s.maxShield ==>
              (r.shield == s.maxShield <==> s.shield + s.shieldRegenRate >= s.maxShield)
  {
    if s.shield < s.maxShield then
      s.(shield := Min(s.maxShield, s.shield + s.shieldRegenRate))
    else
      s
  }

  /** A critical hit on system k: marks it damaged and degrades it. Nothing
      guards against the same system being hit again, so penalties stack. */
  function ApplyCriticalHit(s: Ship, k: SystemIndex): (r: Ship)
    ensures forall j: SystemIndex :: Damaged(r.systems, j) == (j == k || Damaged(s.systems, j))
    ensures SameBuild(r, s) && r.hull == s.hull && r.shield == s.shield
    ensures r.speed == (if k == EnginesHit then s.speed * EngineFactor else s.speed)
    ensures r.macroBatteryDamage == (if k == WeaponsHit then s.macroBatteryDamage * WeaponFactor else s.macroBatteryDamage)
    ensures r.torpedoDamage == (if k == WeaponsHit then s.torpedoDamage * WeaponFactor else s.torpedoDamage)
    ensures r.shieldRegenRate == (if k == ShieldsHit then Max(MinRegen, s.shieldRegenRate - RegenPenalty) else s.shieldRegenRate)
    ensures k == ShieldsHit ==> r.shieldRegenRate >= MinRegen
  {
    var marked := s.(systems := MarkDamaged(s.systems, k));
    match k
    case 0 => marked.(speed := s.speed * EngineFactor)
    case 1 => marked.(macroBatteryDamage := s.macroBatteryDamage * WeaponFactor,
                      torpedoDamage := s.torpedoDamage * WeaponFactor)
    case _ => marked.(shieldRegenRate := Max(MinRegen, s.shieldRegenRate - RegenPenalty))
  }

  /** Applies a saved customization: new paint, hull class, shield capacity
      (and a full shield), regeneration and weapon damage; the hull is
      rebuilt from the class table and every damaged system is repaired. */
  function UpdateCustomization(s: Ship, c: Customization): (r: Ship)
    ensures r.pos == s.pos && r.isPlayer == s.isPlayer
    ensures r.color == c.color && r.hullClass == c.hullClass
    ensures r.shield == r.maxShield == c.shieldCapacity
    ensures r.shieldRegenRate == c.shieldRegen
    ensures r.macroBatteryDamage == c.macroBatteries as real
    ensures r.torpedoDamage == c.torpedoPower as real
    ensures r.hull == r.maxHull == Modifier(c.hullClass).maxHull
    ensures r.armor == Modifier(c.hullClass).armor && r.speed == Modifier(c.hullClass).speed
    ensures r.systems == Intact
  {
    var configured := s.(color := c.color, hullClass := c.hullClass,
                         maxShield := c.shieldCapacity, shield := c.shieldCapacity,
                         shieldRegenRate := c.shieldRegen,
                         macroBatteryDamage := c.macroBatteries as real,
                         torpedoDamage := c.torpedoPower as real);
    ApplyHullModifiers(configured).(systems := Intact)
  }

  /** A ship is destroyed once its hull is at or below zero. */
  predicate IsDestroyed(s: Ship)
  {
    s.hull <= 0
  }
}

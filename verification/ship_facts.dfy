/** Facts about a ship's damage, regeneration, critical hits and
    customization that relate several calls or pin down scenarios. */
module ShipFacts {
  import opened Grid
  import opened Ships

  /** A full-strength medium ship struck for 120: the shield takes 100, the
      remaining 20 is cut to 15 by armour 5, leaving the hull at 85. */
  lemma OverflowExample()
    ensures var s := NewShip(Cell(0, 0), false);
            Damage(s, 120).shield == 0 && Damage(s, 120).hull == 85
  {
  }

  /** What a hit removes from shield and hull together: all of it when
      there is no armour, and never less than the hit minus armour. */
  lemma DamageAccounting(s: Ship, amount: int)
    requires 0 <= amount && 0 <= s.shield && 0 <= s.armor
    ensures var r := Damage(s, amount);
            var absorbed := (s.shield - r.shield) + (s.hull - r.hull);
            amount - s.armor <= absorbed <= amount && (s.armor == 0 ==> absorbed == amount)
  {
  }

  /** A heavier hit never leaves more shield or more hull than a lighter one. */
  lemma DamageMonotone(s: Ship, a: int, b: int)
    requires a <= b
    ensures Damage(s, b).shield <= Damage(s, a).shield
    ensures Damage(s, b).hull <= Damage(s, a).hull
  {
  }

  /** When a hit destroys a ship that still had hull: the part that gets
      past the shield, less armour, must reach the remaining hull. */
  lemma LethalHit(s: Ship, amount: int)
    requires s.hull > 0
    ensures IsDestroyed(Damage(s, amount)) <==>
              if s.shield > 0 then amount > s.shield && amount - s.shield - s.armor >= s.hull
              else amount - s.armor >= s.hull
  {
  }

  /** A critical hit and a damage hit touch disjoint parts of the ship, so
      their order does not matter. */
  lemma CriticalCommutesWithDamage(s: Ship, amount: int, k: SystemIndex)
    ensures ApplyCriticalHit(Damage(s, amount), k) == Damage(ApplyCriticalHit(s, k), amount)
  {
  }

  /** n regeneration ticks in a row. */
  function RegenerateTimes(s: Ship, n: nat): Ship
    decreases n
  {
    if n == 0 then s else RegenerateTimes(RegenerateShields(s), n - 1)
  }

  /** With a non-negative rate, ticking never lowers the shield nor lifts it
      past capacity. */
  lemma {:induction false} RegenerationBounded(s: Ship, n: nat)
    requires s.shield <= s.maxShield && 0 <= s.shieldRegenRate
    ensures s.shield <= RegenerateTimes(s, n).shield <= s.maxShield
    ensures RegenerateTimes(s, n) == s.(shield := RegenerateTimes(s, n).shield)
    decreases n
  {
    if n > 0 {
      RegenerationBounded(RegenerateShields(s), n - 1);
    }
  }

  /** With a rate of at least one, enough ticks fill the shield. */
  lemma {:induction false} RegenerationFills(s: Ship, n: nat)
    requires s.shield <= s.maxShield && 1 <= s.shieldRegenRate
    requires s.maxShield - s.shield <= n * s.shieldRegenRate
    ensures RegenerateTimes(s, n).shield == s.maxShield
    decreases n
  {
    if s.shield == s.maxShield {
      RegenerationStaysFull(s, n);
    } else {
      var t := RegenerateShields(s);
      assert n > 0;
      if t.shield == s.maxShield {
        RegenerationStaysFull(t, n - 1);
      } else {
        assert t.shield == s.shield + s.shieldRegenRate;
        assert t.maxShield - t.shield <= (n - 1) * t.shieldRegenRate;
        RegenerationFills(t, n - 1);
      }
    }
  }

  /** A full shield stays exactly as it is, however many ticks pass. */
  lemma {:induction false} RegenerationStaysFull(s: Ship, n: nat)
    requires s.shield >= s.maxShield
    ensures RegenerateTimes(s, n) == s
    decreases n
  {
    if n > 0 {
      RegenerationStaysFull(RegenerateShields(s), n - 1);
    }
  }

  /** n critical hits in a row on the same system. */
  function CriticalTimes(s: Ship, k: SystemIndex, n: nat): Ship
    decreases n
  {
    if n == 0 then s else CriticalTimes(ApplyCriticalHit(s, k), k, n - 1)
  }

  function Power(b: real, n: nat): real
    decreases n
  {
    if n == 0 then 1.0 else b * Power(b, n - 1)
  }

  /** Repeated engine hits compound: speed falls by a factor 0.7 per hit. */
  lemma {:induction false} EngineHitsCompound(s: Ship, n: nat)
    ensures CriticalTimes(s, EnginesHit, n).speed == s.speed * Power(EngineFactor, n)
    ensures CriticalTimes(s, EnginesHit, n).hull == s.hull
    ensures CriticalTimes(s, EnginesHit, n).shield == s.shield
    decreases n
  {
    if n > 0 {
      var t := ApplyCriticalHit(s, EnginesHit);
      EngineHitsCompound(t, n - 1);
      assert t.speed * Power(EngineFactor, n - 1) == s.speed * (EngineFactor * Power(EngineFactor, n - 1));
    }
  }

  /** Repeated weapons hits compound: both weapon damages fall by a factor 0.8 per hit. */
  lemma {:induction false} WeaponHitsCompound(s: Ship, n: nat)
    ensures CriticalTimes(s, WeaponsHit, n).macroBatteryDamage == s.macroBatteryDamage * Power(WeaponFactor, n)
    ensures CriticalTimes(s, WeaponsHit, n).torpedoDamage == s.torpedoDamage * Power(WeaponFactor, n)
    decreases n
  {
    if n > 0 {
      var t := ApplyCriticalHit(s, WeaponsHit);
      WeaponHitsCompound(t, n - 1);
      assert t.macroBatteryDamage * Power(WeaponFactor, n - 1)
          == s.macroBatteryDamage * (WeaponFactor * Power(WeaponFactor, n - 1));
      assert t.torpedoDamage * Power(WeaponFactor, n - 1)
          == s.torpedoDamage * (WeaponFactor * Power(WeaponFactor, n - 1));
    }
  }

  /** Repeated shield-generator hits take two off the regeneration rate per
      hit, but never below one. */
  lemma {:induction false} ShieldHitsFloorAtOne(s: Ship, n: nat)
    requires 1 <= n
    ensures CriticalTimes(s, ShieldsHit, n).shieldRegenRate == Max(MinRegen, s.shieldRegenRate - RegenPenalty * n)
    ensures Damaged(CriticalTimes(s, ShieldsHit, n).systems, ShieldsHit)
    decreases n
  {
    var t := ApplyCriticalHit(s, ShieldsHit);
    if n > 1 {
      ShieldHitsFloorAtOne(t, n - 1);
    }
  }

  /** Heavier hull classes carry more hull and armour and are slower. */
  lemma HeavierIsTougherAndSlower()
    ensures Modifier(Light).maxHull < Modifier(Medium).maxHull < Modifier(Heavy).maxHull
    ensures Modifier(Light).armor < Modifier(Medium).armor < Modifier(Heavy).armor
    ensures Modifier(Light).speed > Modifier(Medium).speed > Modifier(Heavy).speed
  {
  }

  /** Customization wipes the ship's history: two ships at the same place on
      the same side come out identical, whatever damage or critical hits
      either had taken. */
  lemma CustomizationForgetsHistory(s1: Ship, s2: Ship, c: Customization)
    requires s1.pos == s2.pos && s1.isPlayer == s2.isPlayer
    ensures UpdateCustomization(s1, c) == UpdateCustomization(s2, c)
  {
  }

  /** In particular customization repairs every critical hit and all damage,
      and saving the same customization twice changes nothing more. */
  lemma CustomizationRepairs(s: Ship, c: Customization, k: SystemIndex, amount: int)
    ensures UpdateCustomization(ApplyCriticalHit(s, k), c) == UpdateCustomization(s, c)
    ensures UpdateCustomization(Damage(s, amount), c) == UpdateCustomization(s, c)
    ensures UpdateCustomization(UpdateCustomization(s, c), c) == UpdateCustomization(s, c)
  {
  }

  /** Customizing to a heavy hull gives the heavy hull at full strength,
      full shields and no damaged systems. */
  lemma HeavyRefit(s: Ship, c: Customization)
    requires c.hullClass == Heavy
    ensures var r := UpdateCustomization(s, c);
            r.hull == r.maxHull == 150 && r.armor == 8 && r.speed == 0.7
            && r.shield == r.maxShield && r.systems == Intact
  {
  }
}

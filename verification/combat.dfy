/**
  The ship-level half of an attack: apply the weapon's damage, roll for a
  critical effect, and classify what the hit did.
 */
module Combat {
  import opened Ships
  import opened Weapons

  /** A uniform draw in [0, 1), standing in for Math.random(). */
  type Draw = r: real | 0.0 <= r < 1.0 witness 0.0

  /** The random choices one attack consumes: the critical roll, and which
      system a critical hit lands on (used only when the roll succeeds). */
  datatype Roll = Roll(draw: Draw, system: SystemIndex)

  datatype HitKind = ShieldHit | HullHit

  /** What an attack reports: the layer it hit with that layer's value
      before and after, whether a critical effect fired, and whether the
      target's hull is now at or below zero. */
  datatype Outcome = Outcome(kind: HitKind, before: int, after: int, critical: bool, destroyed: bool)

  /** A critical effect fires when the draw is strictly below the weapon's chance. */
  predicate IsCritical(w: Weapon, roll: Roll)
  {
    roll.draw < w.critChance
  }

  /** One weapon hit on a target ship. */
  function Strike(target: Ship, w: Weapon, roll: Roll): (r: (Ship, Outcome))
    ensures SameBuild(r.0, target)
    ensures r.0.hull == Damage(target, w.damage).hull
    ensures r.0.shield == Damage(target, w.damage).shield
    ensures r.1.critical <==> IsCritical(w, roll)
    ensures r.1.critical ==> Damaged(r.0.systems, roll.system)
    ensures !r.1.critical ==> r.0 == Damage(target, w.damage)
    ensures r.1.kind == ShieldHit <==> target.shield > 0 && w.damage > 0
    ensures r.1.kind == ShieldHit ==> r.1.before == target.shield && r.1.after == r.0.shield
    ensures r.1.kind == HullHit ==> r.1.before == target.hull && r.1.after == r.0.hull
    ensures r.1.destroyed <==> IsDestroyed(r.0)
  {
    var oldShield := target.shield;
    var oldHull := target.hull;
    var damaged := Damage(target, w.damage);
    var critical := IsCritical(w, roll);
    var hit := if critical then ApplyCriticalHit(damaged, roll.system) else damaged;
    var outcome :=
      if oldShield > 0 && hit.shield < oldShield then Outcome(ShieldHit, oldShield, hit.shield, critical, hit.hull <= 0)
      else Outcome(HullHit, oldHull, hit.hull, critical, hit.hull <= 0);
    (hit, outcome)
  }
}

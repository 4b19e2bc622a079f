# Space-BFG-Tactics: turn-based combat rules in Dafny

This project models the turn-based combat core of the Space-BFG-Tactics
browser game. A player ship and a few scripted enemy ships manoeuvre on a
grid. A match cycles through four phases per side: movement, shooting,
critical and boarding. Attacks resolve against two layers of defence:
shields absorb damage first, and what overflows reaches the hull after flat
armour mitigation. A random critical hit can also degrade one ship system.

Everything is modelled as immutable datatypes and pure step functions:

- `Grid` (grid.dfy): cells, the move allowance (Manhattan distance ≤ 3),
  the range test, and the opponent's sign-step pursuit.
- `Weapons` (weapons.dfy): the weapon record and the laser and torpedo
  catalog values.
- `Ships` (ships.dfy): the `Ship` record, the hull-class table, damage,
  shield regeneration, critical hits, customization and the destruction
  test.
- `Combat` (combat.dfy): the ship-level half of an attack. It applies
  damage, rolls for a critical, and classifies the hit.
- `Game` (game.dfy): the `Match` record; `EndPhase` and `AiTurn`, which are
  mutually recursive as in the source; board clicks; weapon buttons; the
  customization save.
- `GridFacts`, `ShipFacts`, `GameFacts`: lemmas relating several calls.
  They cover round trips, invariants, monotonicity, compounding, and
  worked scenarios.

Modelling choices:

- Positions are grid cells. The game stores pixels, but these are always
  a cell index times 50. Every rule divides by the cell size first.
- `Math.random()` is replaced by parameters. Each attack takes a `Roll`:
  a draw in [0,1) for the critical test and a system index in {0,1,2}.
  The second is used only when the critical fires. During the opponent's
  pass, enemy `i` uses `dice(i)`. A shooting click uses `dice(0)`.
- The game's `selectedShip` is only ever the player's ship or null, so it
  is a boolean `selected`.
- The armed weapon is a reference into the weapon catalog. It is modelled
  as a `Slot` that selects a catalog entry. A later catalog change is
  therefore seen through the armed weapon, as in the source.
- A click arrives already resolved: the cell, whether the player's ship
  is under the cursor, and the index of the first enemy under it. The
  click's cell is `Grid.CellOf` of each pixel coordinate.
- Speed, the ship's weapon-damage figures, a weapon's critical chance, the
  critical draw and the pixel coordinate taken by `Grid.CellOf` are
  `real`. Every other quantity is `int`.

Where the code does something other than its own comments (game.js:192,
game.js:224-226) suggest, or other than one might assume, the model
follows the code:

- The side changes on every arrival at the movement phase, not only when
  the opponent was acting as the comment at game.js:192 says. The player
  ending boarding therefore hands the turn to the opponent.
- The hull is never clamped. A hit can drive it below zero; only the
  armour-reduced overflow is kept non-negative.
- The opponent's turn does not hand control back to the player's movement
  phase. The player's end of boarding flips to the opponent and runs its
  turn. The turn's two nested phase ends stop in the opponent's critical
  phase. Two more presses of end phase return to the player's movement
  phase (`GameFacts.EndPhaseRound`).
- Shield regeneration is defined on the ship but is never called by the
  match. The attack code tests `hull <= 0` directly rather than calling
  `isDestroyed`.
- The weapon constructor's third argument is the projectile speed, not a
  cost.

## Model

| member | source | states |
|---|---|---|
| Grid.Sign | static/js/game.js:214-215 | the sign is -1, 0 or 1, it is 0 exactly for 0, and sign times n is the magnitude of n |
| Grid.CellOf | static/js/game.js:94-95 | a pixel coordinate maps to the unique cell whose 50-pixel span contains it |
| Grid.StepToward | static/js/game.js:209-215 | a pursuit step leaves a ship already on its target in place; otherwise it shrinks the Chebyshev distance by exactly one and never increases the Manhattan distance |
| GridFacts.CellOfOrigin | static/js/game.js:94-95 | a cell's origin pixel maps back to that cell |
| GridFacts.InReachMatchesRoot | static/js/game.js:143-147 | the squared range test agrees with the square-root test for every non-negative root of dx²+dy², for any range |
| GridFacts.MoveAllowanceBoundary | static/js/game.js:136-141 | moves of Manhattan distance 3 are accepted and moves of distance 4 are rejected |
| GridFacts.PursuitExample | static/js/game.js:209-215 | an enemy at (2,2) chasing the player at (5,5) moves to (3,3) |
| GridFacts.StepClosesEachAxis | static/js/game.js:209-215 | a pursuit step moves each axis by at most one cell and closes each axis gap by exactly one until that gap is zero, so each axis follows the sign of its own gap |
| GridFacts.PursuitCloses | static/js/game.js:209-215 | after n pursuit steps the Chebyshev gap is max(gap - n, 0) |
| GridFacts.PursuitArrives | static/js/game.js:209-215 | after as many steps as the Chebyshev distance, the pursuer is on the target |
| Ships.MarkDamaged | static/js/ships.js:116 | marking system k sets exactly flag k and keeps every other flag |
| Ships.ApplyHullModifiers | static/js/ships.js:48-54 | the hull capacity, speed and armour come from the table row of the ship's class; the hull is set to full capacity; nothing else changes |
| Ships.NewShip | static/js/ships.js:2-46 | a new ship is medium, with hull = maxHull = 100, shield = maxShield = 100, regen 5, armour 5, speed 1.0, weapon damages 10 and 25, no damaged systems, and is not destroyed |
| Ships.Damage | static/js/ships.js:86-101 | a hit no larger than a raised shield comes off the shield only; a larger one empties the shield and takes max(overflow - armour, 0) off the hull; with the shield down, max(amount - armour, 0) comes off the hull; the hull never rises; a non-negative shield stays non-negative; only shield and hull change |
| Ships.RegenerateShields | static/js/ships.js:104-108 | a full shield is untouched; otherwise the shield becomes shield + rate or capacity, whichever is smaller: it never exceeds capacity, does not drop with a non-negative rate, and reaches capacity exactly when shield + rate does; only the shield changes |
| Ships.ApplyCriticalHit | static/js/ships.js:111-136 | exactly flag k is set and no flag is cleared; engines multiply speed by 0.7, weapons multiply both weapon damages by 0.8, shields set regen to max(1, regen - 2); hull, shield, armour and build are unchanged |
| Ships.UpdateCustomization | static/js/ships.js:143-161 | the configured paint, class, shield capacity (with a full shield), regen and weapon damages are applied; hull, armour and speed come from the class table; every system is repaired; position and side are kept |
| Ships.IsDestroyed | static/js/ships.js:187-189 | a ship is destroyed when its hull is at or below zero; `Combat.Strike` reports `destroyed` exactly when the struck ship is destroyed, and `ShipFacts.LethalHit` gives the exact condition under which one hit destroys a ship |
| ShipFacts.OverflowExample | static/js/ships.js:87-96 | hull 100, shield 100, armour 5 hit for 120 ends with shield 0 and hull 85 |
| ShipFacts.DamageAccounting | static/js/ships.js:86-101 | shield loss plus hull loss lies between amount - armour and amount, and equals the amount when there is no armour |
| ShipFacts.DamageMonotone | static/js/ships.js:86-101 | a heavier hit never leaves more shield or more hull |
| ShipFacts.LethalHit | static/js/ships.js:86-101 | a hit destroys a ship with hull left exactly when the part past the shield, less armour, reaches the hull |
| ShipFacts.CriticalCommutesWithDamage | static/js/game.js:154-160 | applying the critical before or after the damage gives the same ship |
| ShipFacts.RegenerationBounded | static/js/ships.js:104-108 | with a non-negative rate, repeated ticks never lower the shield or lift it past capacity, and change nothing else |
| ShipFacts.RegenerationFills | static/js/ships.js:104-108 | with rate ≥ 1, n ticks fill the shield once n × rate covers the deficit |
| ShipFacts.RegenerationStaysFull | static/js/ships.js:104-108 | a full shield is idempotent under any number of ticks |
| ShipFacts.EngineHitsCompound | static/js/ships.js:119-123 | n engine hits multiply speed by 0.7^n and leave hull and shield alone |
| ShipFacts.WeaponHitsCompound | static/js/ships.js:124-128 | n weapons hits multiply both weapon damages by 0.8^n |
| ShipFacts.ShieldHitsFloorAtOne | static/js/ships.js:129-132 | n ≥ 1 shield-generator hits leave regen at max(1, regen - 2n) with the flag set |
| ShipFacts.HeavierIsTougherAndSlower | static/js/ships.js:38-42 | light < medium < heavy in hull capacity and armour, and the reverse in speed |
| ShipFacts.CustomizationForgetsHistory | static/js/ships.js:143-161 | two ships at the same place on the same side customize to identical ships |
| ShipFacts.CustomizationRepairs | static/js/ships.js:143-161 | customization undoes any critical hit and any damage, and applying it twice is the same as once |
| ShipFacts.HeavyRefit | static/js/ships.js:143-161 | a heavy refit gives hull = maxHull = 150, armour 8, speed 0.7, a full shield and no damaged systems |
| Combat.Strike | static/js/game.js:149-172 | hull and shield end as the damage rule leaves them; a critical fires iff draw < critChance and then marks the rolled system; without a critical the ship is exactly the damaged ship (with one, see GameFacts.StrikeAppliesCritical); a shield hit is reported iff the shield was up and the damage positive, with that layer's before/after values; destroyed iff hull ≤ 0 |
| Game.InitialMatch | static/js/game.js:9-27 | the match opens in the player's movement phase with nothing selected; the player is a new ship at (5,5) and the two enemies new ships at (2,2) and (8,2), all at full strength; the catalog holds the laser and torpedo values and the laser is armed; the match invariant holds |
| Weapons.LaserSpec | static/js/game.js:24 | the catalog laser: damage 10, speed 6, range 8, critical chance 0.1; its use is stated by `Game.InitialMatch` (armed at the start) and `GameFacts.OpeningExchange` (two 10-point shots at range) |
| Weapons.TorpedoSpec | static/js/game.js:25 | the catalog torpedo: damage 25, speed 4, range 12, critical chance 0.2; `Game.InitialMatch` puts it in the catalog and `GameFacts.CriticalRollExample` uses its 0.2 critical boundary |
| Game.CurrentPhase | static/js/game.js:132-134 | the phase named by the phase index; `GameFacts.EndPhaseFlipsOnMovement` and `GameFacts.EndPhaseRound` state how it cycles |
| Game.ResolveAttack | static/js/game.js:149-178 | the target alone takes the strike; an enemy that ends at hull ≤ 0 leaves the list and the rest keep their order, otherwise it is replaced in place; an attack on the player leaves the enemy list as it was |
| Game.EnemyPass | static/js/game.js:209-223 | every enemy takes one sign-step toward the player; an enemy fires iff the player is in laser range after its step; the player keeps its build and position, never gains hull, and is untouched when no enemy fires |
| Game.EndPhase | static/js/game.js:188-205 | the selection is cleared; phases 0-2 advance by one on the same side; the opponent's boarding hands the player their movement phase; the player's boarding runs the opponent's turn and ends in the opponent's critical phase; the catalog and armed weapon are kept; ships change only through an opponent turn |
| Game.AiTurn | static/js/game.js:207-227 | called in the first two phases, the enemies and the player end exactly as the enemy pass leaves them, and the turn's two phase ends advance the index by two on the same side; the catalog is kept |
| Game.HandleClick | static/js/game.js:93-130 | movement: a click on the player's own ship during the player's turn selects it; otherwise the state changes iff a ship is selected and the move is legal, and then the player's ship moves to the clicked cell, nothing else about it changes, and the selection is cleared; shooting: an enemy in range of the armed weapon is attacked, anything else is a no-op; critical: the phase ends into boarding; boarding: no-op |
| Game.Arm | static/js/game.js:60-68 | a weapon button arms the catalog's laser or torpedo and changes nothing else |
| Game.SaveCustomization | static/js/game.js:306-308 | the player's ship is customized and the catalog's laser and torpedo take the configured damage, so the armed weapon does too; nothing else changes |
| GameFacts.CriticalRollExample | static/js/game.js:156-160 | with crit chance 0.2, a draw of 0.1 gives a critical, while 0.3 and exactly 0.2 do not |
| GameFacts.StrikeAppliesCritical | static/js/game.js:154-160 | when the roll is below the crit chance, the struck ship is exactly the damaged ship with the rolled system's critical effect applied (speed ×0.7, weapon damages ×0.8, or regen max(1, regen - 2)) |
| GameFacts.EnemyPassShots | static/js/game.js:219-221 | the player after the opponent's pass is the player struck by the laser once for every enemy that fired, in list order, enemy k + i rolling dice(k + i) for its critical |
| GameFacts.RemovedIffDestroyed | static/js/game.js:174-177 | an attacked enemy leaves the list exactly when the hit leaves its hull ≤ 0, and at most one ship leaves |
| GameFacts.EndPhaseFlipsOnMovement | static/js/game.js:188-205 | without an opponent turn, the index becomes (i+1) mod 4 and the side flips iff the new phase is movement |
| GameFacts.PlayerBoardingRunsOpponentTurn | static/js/game.js:193-227 | the player's end of boarding gives the opponent's pass (every enemy stepped, the player shot at) and stops in the opponent's critical phase with nothing selected |
| GameFacts.EndPhaseRound | static/js/game.js:188-227 | from the player's movement phase, 4 phase ends reach the opponent's critical phase and 6 return to the player's movement phase |
| GameFacts.EnemyPassKeepsShips | static/js/game.js:209-223 | the opponent's pass keeps every enemy an enemy and alive, and keeps the player's ship the player's |
| GameFacts.EndPhasePreservesInv | static/js/game.js:188-205 | ending a phase keeps the match invariant: selection only in the player's movement phase, and every listed enemy alive |
| GameFacts.HandleClickPreservesInv | static/js/game.js:93-130 | a click keeps the match invariant; in particular, no destroyed enemy stays in the list |
| GameFacts.SaveCustomizationPreservesInv | static/js/game.js:296-313 | saving a customization keeps the match invariant |
| GameFacts.ArmPreservesInv | static/js/game.js:60-68 | arming a weapon keeps the match invariant |
| GameFacts.ClickMovesAtMostThree | static/js/game.js:106-113 | no click moves the player's ship more than three cells or adds an enemy |
| GameFacts.OpeningExchange | static/js/game.js:207-227 | from the opening position, four phase ends leave the enemies at (3,3) and (7,3), the player's shield at 80 and hull at 100, in the opponent's critical phase |

## Left out

- Canvas and DOM code is presentation, not rules. This covers drawing,
  canvas resizing, event wiring, UI bars, the customization dialog and its
  preview, the combat log and its text, and `logCritical` console output.
  `Outcome` carries the figures the log would print.
- Form parsing when saving a customization (`parseInt` of form fields) is
  not modelled. The model starts from the applied configuration. A
  non-numeric field (NaN) and a hull type outside light, medium and heavy
  are therefore not modelled. In the source the latter throws.
- Randomness is not modelled. Each random draw is an explicit parameter.
- Pixel-level click hit-testing is not modelled. A click arrives as a
  resolved cell, a flag saying whether the player's ship is under the
  cursor, and the index of the first enemy under it.
- `Projectile` and the real-time variant (ai.js, physics.js) are not part
  of this model. They use floating-point trigonometry and drag, and
  nothing in the turn-based game calls them.
- The unused ship fields `evasion`, `angle` and `radius`, and the unused
  weapon fields `accuracy` and `areaEffect`, are not modelled.
- Victory and player destruction are not modelled because the game has
  neither. A player ship at hull ≤ 0 stays in play.
- Arithmetic is exact. Integers are unbounded, and the 0.7 and 0.8
  multipliers are exact reals rather than IEEE doubles.
- AiTurn: its contract describes only calls from the first two phases,
  where it gives the enemy pass's result and the phase reached. The game
  calls it only from the movement phase. In states the game never reaches,
  a nested opponent turn would reuse the same dice.

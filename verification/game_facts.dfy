/** Facts about the match: the phase cycle and the opponent's turn, the
    critical roll, removal of destroyed enemies, and the match invariant
    kept by every operation. */
module GameFacts {
  import opened Grid
  import opened Weapons
  import opened Ships
  import opened Combat
  import opened Game

  /** With a critical chance of 0.2, a draw of 0.1 triggers the critical
      effect and a draw of 0.3 does not; the boundary draw 0.2 does not. */
  lemma CriticalRollExample(target: Ship, k: SystemIndex)
    ensures Strike(target, TorpedoSpec, Roll(0.1, k)).1.critical
    ensures !Strike(target, TorpedoSpec, Roll(0.3, k)).1.critical
    ensures !Strike(target, TorpedoSpec, Roll(0.2, k)).1.critical
  {
  }

  /** When the critical roll fires, the struck ship carries the full
      critical effect of the rolled system on top of the damage. */
  lemma StrikeAppliesCritical(target: Ship, w: Weapon, roll: Roll)
    requires IsCritical(w, roll)
    ensures Strike(target, w, roll).0 == ApplyCriticalHit(Damage(target, w.damage), roll.system)
  {
  }

  /** The player after a run of laser shots: shot i, taken when fired[i]
      holds, uses roll dice(k + i). */
  function Shots(player: Ship, laser: Weapon, dice: nat -> Roll, k: nat, fired: seq<bool>): Ship
    decreases |fired|
  {
    if |fired| == 0 then player
    else Shots(if fired[0] then Strike(player, laser, dice(k)).0 else player, laser, dice, k + 1, fired[1..])
  }

  /** Every enemy that fires during the opponent's pass strikes the player
      with the laser, critical roll included, in list order. */
  lemma {:induction false} EnemyPassShots(enemies: seq<Ship>, player: Ship, laser: Weapon, dice: nat -> Roll, k: nat)
    ensures var v := EnemyPass(enemies, player, laser, dice, k);
            v.player == Shots(player, laser, dice, k, v.fired)
    decreases |enemies|
  {
    if |enemies| > 0 {
      var moved := enemies[0].(pos := StepToward(enemies[0].pos, player.pos));
      var fires := InRange(moved, player, laser.range);
      var hit := if fires then Strike(player, laser, dice(k)).0 else player;
      EnemyPassShots(enemies[1..], hit, laser, dice, k + 1);
      assert EnemyPass(enemies, player, laser, dice, k).fired[1..] == EnemyPass(enemies[1..], hit, laser, dice, k + 1).fired;
    }
  }

  /** An attacked enemy leaves the list exactly when the hit destroys it,
      and only the attacked enemy can leave. */
  lemma RemovedIffDestroyed(m: Match, i: nat, w: Weapon, roll: Roll)
    requires i < |m.enemies|
    ensures var r := ResolveAttack(m, AtEnemy(i), w, roll);
            && (|r.0.enemies| < |m.enemies| <==> IsDestroyed(Strike(m.enemies[i], w, roll).0))
            && |m.enemies| - 1 <= |r.0.enemies| <= |m.enemies|
  {
  }

  /** Without an opponent turn, ending a phase moves the index on by one
      modulo four, and the side changes exactly when the new phase is movement. */
  lemma EndPhaseFlipsOnMovement(m: Match, dice: nat -> Roll)
    requires m.phaseIndex < 3 || m.current == Ai
    ensures var r := EndPhase(m, dice);
            && r.phaseIndex == (m.phaseIndex + 1) % |Phases|
            && (r.current != m.current <==> CurrentPhase(r) == Movement)
  {
  }

  /** The player ending the boarding phase starts the opponent's turn: every
      enemy takes its pursuit step and fires if it can, and the turn's two
      nested phase ends stop at the opponent's critical phase. The side has
      changed once and no further opponent turn runs. */
  lemma PlayerBoardingRunsOpponentTurn(m: Match, dice: nat -> Roll)
    requires m.phaseIndex == 3 && m.current == Player
    ensures var r := EndPhase(m, dice);
            var v := EnemyPass(m.enemies, m.player, m.arsenal.laser, dice, 0);
            && CurrentPhase(r) == Critical && r.current == Ai && !r.selected
            && r.enemies == v.moved && r.player == v.player
            && r.arsenal == m.arsenal && r.armed == m.armed
  {
  }

  /** From the player's movement phase, four presses of end phase leave the
      match in the opponent's critical phase; two more bring it back to the
      player's movement phase. */
  lemma EndPhaseRound(m: Match, dice: nat -> Roll)
    requires CurrentPhase(m) == Movement && m.current == Player
    ensures CurrentPhase(EndPhases(m, 4, dice)) == Critical && EndPhases(m, 4, dice).current == Ai
    ensures CurrentPhase(EndPhases(m, 6, dice)) == Movement && EndPhases(m, 6, dice).current == Player
  {
  }

  /** The enemy list after the opponent's pass keeps the invariant's promise:
      the pass only moves enemies and only the player is shot at. */
  lemma EnemyPassKeepsShips(m: Match, dice: nat -> Roll)
    requires Inv(m)
    ensures var v := EnemyPass(m.enemies, m.player, m.arsenal.laser, dice, 0);
            && v.player.isPlayer
            && forall i :: 0 <= i < |v.moved| ==> !v.moved[i].isPlayer && !IsDestroyed(v.moved[i])
  {
  }

  lemma EndPhasePreservesInv(m: Match, dice: nat -> Roll)
    requires Inv(m)
    ensures Inv(EndPhase(m, dice))
  {
  }

  lemma HandleClickPreservesInv(m: Match, c: Click, dice: nat -> Roll)
    requires Inv(m)
    ensures Inv(HandleClick(m, c, dice))
  {
  }

  lemma SaveCustomizationPreservesInv(m: Match, c: Customization)
    requires Inv(m)
    ensures Inv(SaveCustomization(m, c))
  {
  }

  lemma ArmPreservesInv(m: Match, slot: Slot)
    requires Inv(m)
    ensures Inv(Arm(m, slot))
  {
  }

  /** A click moves the player's ship at most three cells and never adds an enemy. */
  lemma ClickMovesAtMostThree(m: Match, c: Click, dice: nat -> Roll)
    ensures Manhattan(m.player.pos, HandleClick(m, c, dice).player.pos) <= MoveAllowance
    ensures |HandleClick(m, c, dice).enemies| <= |m.enemies|
  {
  }

  /** The opening exchange: if the player ends all four phases without acting,
      both enemies close in one diagonal step to (3,3) and (7,3), both are
      within laser range, and their two laser shots take the player's shield
      from 100 to 80 without touching the hull. */
  lemma OpeningExchange(dice: nat -> Roll)
    ensures var r := EndPhases(InitialMatch(), 4, dice);
            && CurrentPhase(r) == Critical && r.current == Ai
            && |r.enemies| == 2
            && r.enemies[0].pos == Cell(3, 3) && r.enemies[1].pos == Cell(7, 3)
            && r.player.shield == 80 && r.player.hull == 100
  {
  }
}

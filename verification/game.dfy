/**
  The match: the phase cycle and whose side is acting, the player's ship
  and the living enemies, the weapon catalog, and the operations the board
  reacts to (grid clicks, the end-phase button, weapon buttons and the
  customization save). The scripted opponent runs inside endPhase.
 */
module Game {
  import opened Grid
  import opened Weapons
  import opened Ships
  import opened Combat

  datatype Option<T> = None | Some(value: T)

  datatype Side = Player | Ai

  function Other(s: Side): Side
  {
    if s == Player then Ai else Player
  }

  datatype Phase = Movement | Shooting | Critical | Boarding

  /** The phases of one side's turn, in order. */
  const Phases: seq<Phase> := [Movement, Shooting, Critical, Boarding]

  type PhaseIndex = i: int | 0 <= i < 4

  /** The two weapon buttons. The armed weapon is a reference into the
      catalog, so a later change to the catalog is seen through it. */
  datatype Slot = LaserSlot | TorpedoSlot

  datatype Arsenal = Arsenal(laser: Weapon, torpedo: Weapon)

  /** The whole match. `selected` records whether the player's ship is the
      selected ship: no other ship can ever be selected. */
  datatype Match = Match(
    phaseIndex: PhaseIndex,
    current: Side,
    selected: bool,
    player: Ship,
    enemies: seq<Ship>,
    arsenal: Arsenal,
    armed: Slot)

  datatype Target = AtPlayer | AtEnemy(index: nat)

  /** A click on the board, already resolved: the cell under the cursor,
      whether the player's ship is under it, and the first enemy under it. */
  datatype Click = Click(cell: Cell, onPlayer: bool, onEnemy: Option<nat>)

  /** What the opponent's pass leaves behind: every enemy after its step,
      the player after the shots, and which enemies opened fire. */
  datatype Volley = Volley(moved: seq<Ship>, player: Ship, fired: seq<bool>)

  function CurrentPhase(m: Match): Phase
  {
    Phases[m.phaseIndex]
  }

  function ArmedWeapon(m: Match): Weapon
  {
    if m.armed == LaserSlot then m.arsenal.laser else m.arsenal.torpedo
  }

  predicate InRange(attacker: Ship, target: Ship, range: int)
  {
    InReach(attacker.pos, target.pos, range)
  }

  /** What must hold in every reachable match: only the player's ship can be
      selected, and only during the player's movement phase; the player's
      ship is the player's; every ship in the enemy list is an enemy that is
      still alive. */
  predicate Inv(m: Match)
  {
    && (m.selected ==> CurrentPhase(m) == Movement && m.current == Player)
    && m.player.isPlayer
    && forall i :: 0 <= i < |m.enemies| ==> !m.enemies[i].isPlayer && !IsDestroyed(m.enemies[i])
  }

  /** The opening position: the player at (5,5), two enemies at (2,2) and
      (8,2), the player to move, the laser armed. */
  function InitialMatch(): (m: Match)
    ensures CurrentPhase(m) == Movement && m.current == Player && !m.selected
    ensures |m.enemies| == 2
    ensures ArmedWeapon(m) == LaserSpec
    ensures m.player.hull == m.player.maxHull && m.player.shield == m.player.maxShield
    ensures forall i :: 0 <= i < |m.enemies| ==>
              m.enemies[i].hull == m.enemies[i].maxHull && m.enemies[i].shield == m.enemies[i].maxShield
    ensures m.player == NewShip(Cell(5, 5), true)
    ensures m.enemies == [NewShip(Cell(2, 2), false), NewShip(Cell(8, 2), false)]
    ensures m.arsenal == Arsenal(LaserSpec, TorpedoSpec)
    ensures Inv(m)
  {
    Match(0, Player, false,
          NewShip(Cell(5, 5), true),
          [NewShip(Cell(2, 2), false), NewShip(Cell(8, 2), false)],
          Arsenal(LaserSpec, TorpedoSpec),
          LaserSlot)
  }

  /** An attack on one ship of the match. The target takes the hit; an
      enemy whose hull ends at or below zero leaves the enemy list, the
      others keeping their order. The player's ship is never removed. */
  function ResolveAttack(m: Match, t: Target, w: Weapon, roll: Roll): (r: (Match, Outcome))
    requires t.AtEnemy? ==> t.index < |m.enemies|
    ensures r.0 == m.(player := r.0.player, enemies := r.0.enemies)
    ensures t == AtPlayer ==> r.0.enemies == m.enemies && r.0.player == Strike(m.player, w, roll).0
    ensures t == AtPlayer ==> r.1 == Strike(m.player, w, roll).1
    ensures t.AtEnemy? ==> r.0.player == m.player && r.1 == Strike(m.enemies[t.index], w, roll).1
    ensures t.AtEnemy? && !r.1.destroyed ==>
              r.0.enemies == m.enemies[t.index := Strike(m.enemies[t.index], w, roll).0]
    ensures t.AtEnemy? && r.1.destroyed ==>
              && |r.0.enemies| == |m.enemies| - 1
              && (forall j :: 0 <= j < t.index ==> r.0.enemies[j] == m.enemies[j])
              && (forall j :: t.index <= j < |r.0.enemies| ==> r.0.enemies[j] == m.enemies[j + 1])
  {
    match t
    case AtPlayer =>
      var hit := Strike(m.player, w, roll);
      (m.(player := hit.0), hit.1)
    case AtEnemy(i) =>
      var hit := Strike(m.enemies[i], w, roll);
      var survivors := if hit.0.hull <= 0 then m.enemies[..i] + m.enemies[i + 1..]
                       else m.enemies[i := hit.0];
      (m.(enemies := survivors), hit.1)
  }

  /** The opponent's pass over its ships, in list order: each enemy steps one
      cell towards the player along the sign of each axis, then fires the
      laser at the player if the player is in laser range. Enemy k + i uses
      roll dice(k + i). */
  function EnemyPass(enemies: seq<Ship>, player: Ship, laser: Weapon, dice: nat -> Roll, k: nat): (v: Volley)
    ensures |v.moved| == |enemies| && |v.fired| == |enemies|
    ensures forall i :: 0 <= i < |enemies| ==>
              v.moved[i] == enemies[i].(pos := StepToward(enemies[i].pos, player.pos))
    ensures forall i :: 0 <= i < |enemies| ==>
              (v.fired[i] <==> InReach(v.moved[i].pos, player.pos, laser.range))
    ensures SameBuild(v.player, player)
    ensures v.player.hull <= player.hull
    ensures (forall i :: 0 <= i < |enemies| ==> !v.fired[i]) ==> v.player == player
    decreases |enemies|
  {
    if |enemies| == 0 then
      Volley([], player, [])
    else
      var moved := enemies[0].(pos := StepToward(enemies[0].pos, player.pos));
      var fires := InRange(moved, player, laser.range);
      var hit := if fires then Strike(player, laser, dice(k)).0 else player;
      var rest := EnemyPass(enemies[1..], hit, laser, dice, k + 1);
      Volley([moved] + rest.moved, rest.player, [fires] + rest.fired)
  }

  /** Ends the current phase. The phase index moves on by one, modulo the
      number of phases. Arriving at movement hands the turn to the other
      side, and when that side is the opponent its whole turn runs at once.
      The selection is always cleared. */
  function EndPhase(m: Match, dice: nat -> Roll): (r: Match)
    ensures !r.selected
    ensures m.phaseIndex < 3 ==> r.phaseIndex == m.phaseIndex + 1 && r.current == m.current
    ensures m.phaseIndex == 3 && m.current == Ai ==> r.phaseIndex == 0 && r.current == Player
    ensures m.phaseIndex == 3 && m.current == Player ==> r.phaseIndex == 2 && r.current == Ai
    ensures r.arsenal == m.arsenal && r.armed == m.armed
    ensures m.phaseIndex < 3 || m.current == Ai ==> r.player == m.player && r.enemies == m.enemies
    decreases if m.phaseIndex == 3 then 2 else 0
  {
    var next: PhaseIndex := (m.phaseIndex + 1) % |Phases|;
    if Phases[next] == Movement then
      var side := Other(m.current);
      var turned := m.(phaseIndex := next, current := side);
      var after := if side == Ai then AiTurn(turned, dice) else turned;
      after.(selected := false)
    else
      m.(phaseIndex := next, selected := false)
  }

  /** The opponent's turn: its pass over every enemy, then two phase ends. */
  function AiTurn(m: Match, dice: nat -> Roll): (r: Match)
    ensures m.phaseIndex <= 1 ==> r.phaseIndex == m.phaseIndex + 2 && r.current == m.current
    ensures m.phaseIndex <= 1 ==>
              var v := EnemyPass(m.enemies, m.player, m.arsenal.laser, dice, 0);
              r.enemies == v.moved && r.player == v.player
    ensures r.arsenal == m.arsenal && r.armed == m.armed
    decreases if m.phaseIndex >= 2 then 3 else 1
  {
    var v := EnemyPass(m.enemies, m.player, m.arsenal.laser, dice, 0);
    var acted := m.(enemies := v.moved, player := v.player);
    EndPhase(EndPhase(acted, dice), dice)
  }

  /** A click in the shooting phase names an enemy in range of the armed weapon. */
  predicate Targets(m: Match, c: Click)
  {
    && c.onEnemy.Some?
    && c.onEnemy.value < |m.enemies|
    && InRange(m.player, m.enemies[c.onEnemy.value], ArmedWeapon(m).range)
  }

  /** A click on the board. Movement: a click on the player's own ship during
      the player's turn selects it; otherwise a selected ship moves to the
      clicked cell if that is a legal move. Shooting: a click on an enemy in
      range of the armed weapon attacks it. Critical: the click confirms the
      phase and ends it. Boarding: nothing happens. Anything else is ignored. */
  function HandleClick(m: Match, c: Click, dice: nat -> Roll): (r: Match)
    ensures r.arsenal == m.arsenal && r.armed == m.armed
    ensures r.selected && !m.selected ==> CurrentPhase(m) == Movement && m.current == Player && c.onPlayer
    ensures r.player.pos != m.player.pos ==>
              && CurrentPhase(m) == Movement && m.selected
              && r.player == m.player.(pos := c.cell) && ValidMove(m.player.pos, c.cell)
    ensures CurrentPhase(m) == Movement ==>
              r.enemies == m.enemies && r.phaseIndex == m.phaseIndex && r.current == m.current
    ensures CurrentPhase(m) == Movement && c.onPlayer && m.current == Player ==> r == m.(selected := true)
    ensures CurrentPhase(m) == Movement && !(c.onPlayer && m.current == Player) ==>
              (r != m <==> m.selected && ValidMove(m.player.pos, c.cell))
    ensures CurrentPhase(m) == Movement && !(c.onPlayer && m.current == Player)
              && m.selected && ValidMove(m.player.pos, c.cell) ==>
              r == m.(player := m.player.(pos := c.cell), selected := false)
    ensures CurrentPhase(m) == Shooting && !Targets(m, c) ==> r == m
    ensures CurrentPhase(m) == Shooting && Targets(m, c) ==>
              r == ResolveAttack(m, AtEnemy(c.onEnemy.value), ArmedWeapon(m), dice(0)).0
    ensures CurrentPhase(m) == Critical ==> r == EndPhase(m, dice) && CurrentPhase(r) == Boarding
    ensures CurrentPhase(m) == Boarding ==> r == m
  {
    match CurrentPhase(m)
    case Movement =>
      if c.onPlayer && m.current == Player then
        m.(selected := true)
      else if m.selected && ValidMove(m.player.pos, c.cell) then
        m.(player := m.player.(pos := c.cell), selected := false)
      else
        m
    case Shooting =>
      if Targets(m, c) then
        ResolveAttack(m, AtEnemy(c.onEnemy.value), ArmedWeapon(m), dice(0)).0
      else
        m
    case Critical =>
      EndPhase(m, dice)
    case Boarding =>
      m
  }

  /** A weapon button: arms the catalog's laser or torpedo. */
  function Arm(m: Match, slot: Slot): (r: Match)
    ensures r == m.(armed := slot)
    ensures ArmedWeapon(r) == (if slot == LaserSlot then m.arsenal.laser else m.arsenal.torpedo)
  {
    m.(armed := slot)
  }

  /** Saving the customization form: the player's ship is reconfigured and
      the catalog's laser and torpedo take the configured damage. */
  function SaveCustomization(m: Match, c: Customization): (r: Match)
    ensures r == m.(player := r.player, arsenal := r.arsenal)
    ensures r.player == UpdateCustomization(m.player, c)
    ensures r.arsenal.laser == m.arsenal.laser.(damage := c.macroBatteries)
    ensures r.arsenal.torpedo == m.arsenal.torpedo.(damage := c.torpedoPower)
    ensures ArmedWeapon(r).damage == (if m.armed == LaserSlot then c.macroBatteries else c.torpedoPower)
  {
    var arsenal := Arsenal(m.arsenal.laser.(damage := c.macroBatteries),
                           m.arsenal.torpedo.(damage := c.torpedoPower));
    m.(player := UpdateCustomization(m.player, c), arsenal := arsenal)
  }

  /** n presses of the end-phase button in a row. */
  function EndPhases(m: Match, n: nat, dice: nat -> Roll): Match
    decreases n
  {
    if n == 0 then m else EndPhases(EndPhase(m, dice), n - 1, dice)
  }
}

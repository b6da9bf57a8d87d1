/**
 * The encounter controller (EncounterManager): one battle between the player and an
 * enemy, stepped turn by turn. Each player action, each player-turn frame of the main
 * loop and each enemy turn is one method call on the controller; the random attack roll,
 * the arrow QTE of a skill and the radial defense QTE are inputs.
 */
module Encounter {
  import opened Wrappers
  import opened Mathf
  import opened Identity
  import opened Turns
  import CircularQte
  import Skills

  type QteResult = CircularQte.QteResult

  datatype UiMode = ActionSelection | SkillSelection

  // ---------------------------------------------------------------- pure rules

  /** Mathf.CeilToInt(n * 0.5f): half of n rounded up. */
  function HalfUp(n: int): (r: int)
    ensures n <= 2 * r <= n + 1
  {
    (n + 1) / 2
  }

  lemma HalfUpOfFifteen()
    ensures HalfUp(15) == 8 && HalfUp(10) == 5 && HalfUp(0) == 0
  {
  }

  /** How the enemy meets the player's attack, as the roll in [0, 1) decides. */
  datatype Reaction = Dodge | Block | Hit

  function ReactionOf(roll: real): (r: Reaction)
    ensures r == Dodge <==> roll < 0.10
    ensures r == Block <==> 0.10 <= roll < 0.35
    ensures r == Hit <==> 0.35 <= roll
  {
    if roll < 0.10 then Dodge else if roll < 0.35 then Block else Hit
  }

  /** The damage of an attack at the given ATK: ceil(ATK * (1 - reduction)) with reduction 1, 0.5 or 0. */
  function AttackDamage(atk: int, roll: real): (d: int)
    ensures roll < 0.10 ==> d == 0
    ensures 0.10 <= roll < 0.35 ==> 2 * d >= atk && 2 * d <= atk + 1
    ensures 0.35 <= roll ==> d == atk
  {
    match ReactionOf(roll)
    case Dodge => 0
    case Block => HalfUp(atk)
    case Hit => atk
  }

  /** A higher roll never deals less damage, and no roll deals more than ATK. */
  lemma AttackDamageMonotone(atk: int, roll1: real, roll2: real)
    requires 0 <= atk && roll1 <= roll2
    ensures 0 <= AttackDamage(atk, roll1) <= AttackDamage(atk, roll2) <= atk
  {
  }

  /** The damage the player takes from the enemy: half (rounded up) when guarding, else by the defense tier. */
  function EnemyDamage(atk: int, guarded: bool, defense: QteResult): (d: int)
    ensures guarded ==> 2 * d >= atk && 2 * d <= atk + 1
    ensures !guarded && defense == CircularQte.Perfect ==> d == 0
    ensures !guarded && defense == CircularQte.Good ==> d == HalfUp(atk)
    ensures !guarded && defense == CircularQte.Miss ==> d == atk
  {
    if guarded then HalfUp(atk)
    else match defense
      case Perfect => 0
      case Good => HalfUp(atk)
      case Miss => atk
  }

  /** A defense sampled closer to the centre never costs more HP, and never more than ATK. */
  lemma DefenseMonotone(atk: int, err1: real, err2: real, green: real, yellow: real)
    requires 0 <= atk && err1 <= err2
    ensures 0 <= EnemyDamage(atk, false, CircularQte.Tier(err1, green, yellow))
    ensures EnemyDamage(atk, false, CircularQte.Tier(err1, green, yellow)) <= EnemyDamage(atk, false, CircularQte.Tier(err2, green, yellow))
    ensures EnemyDamage(atk, false, CircularQte.Tier(err2, green, yellow)) <= atk
  {
    CircularQte.TierMonotone(err1, err2, green, yellow);
  }

  /** The AP a player turn starts with: one more, capped at the controller's apMax. */
  function GrantedAp(ap: int, apMax: int): (r: int)
    ensures r <= apMax && r <= ap + 1
    ensures ap < apMax ==> r == ap + 1
    ensures 0 <= ap <= apMax ==> 0 <= r <= apMax
  {
    Min(apMax, ap + 1)
  }

  /** Mathf.Clamp(hp + amount, 0, maxHp) as PlayerGainHP writes it. */
  function GainedHp(hp: int, maxHp: int, amount: int): (r: int)
    ensures 0 <= maxHp ==> 0 <= r <= maxHp
    ensures 0 <= hp + amount <= maxHp ==> r == hp + amount
  {
    Clamp(hp + amount, 0, maxHp)
  }

  /** CheckEnd: the battle is over once either side is down. */
  function BattleOver(playerHp: int, enemyHp: int): (r: bool)
    ensures !r <==> playerHp > 0 && enemyHp > 0
  {
    enemyHp <= 0 || playerHp <= 0
  }

  /** ApplyUIMode: the skill panel shows in skill selection on the player's turn. */
  predicate ShowSkills(ui: UiMode, turn: Turn) {
    ui == SkillSelection && turn == Player
  }

  /** ApplyUIMode: the action panel shows on the player's turn when the skill panel does not. */
  predicate ShowActions(ui: UiMode, turn: Turn) {
    !ShowSkills(ui, turn) && turn == Player
  }

  /** Exactly one panel on the player's turn, none on the enemy's. */
  lemma PanelsExclusive(ui: UiMode, turn: Turn)
    ensures !(ShowSkills(ui, turn) && ShowActions(ui, turn))
    ensures turn == Enemy ==> !ShowSkills(ui, turn) && !ShowActions(ui, turn)
    ensures turn == Player ==> ShowSkills(ui, turn) != ShowActions(ui, turn)
  {
  }

  /** RefreshSkillInteractable: a skill button can be pressed iff the player holds its cost. */
  predicate SkillInteractable(ap: int, skill: Skill) {
    ap >= skill.Cost()
  }

  // ---------------------------------------------------------------- the controller

  /** What the player does on one frame of a player turn: nothing, or press one button. */
  datatype Command =
    | NoCommand
    | AttackCommand(roll: real)
    | GuardCommand
    | OpenSkillsCommand
    | BackCommand
    | CastCommand(index: nat, qtePassed: bool)

  /** One step of the main loop: the player's command on a player turn, the defense result on an enemy turn. */
  datatype Step = Step(command: Command, defense: QteResult)

  /** The part of the encounter's state a button press can change. */
  datatype Snapshot = Snapshot(ui: UiMode, turn: Turn, startedTurnAp: bool, playerGuard: bool, playerAp: int, playerHp: int, enemyHp: int)

  class EncounterManager {
    const apMax: int
    const hasArrowQte: bool
    const hasDefenseQte: bool
    const turns: TurnManager
    var player: Character?
    var enemy: Character?
    var startedTurnAp: bool
    var playerGuard: bool
    var ui: UiMode

    /** Both combatants are assigned and distinct. */
    ghost predicate Ready()
      reads this
    {
      player != null && enemy != null && player != enemy
    }

    /** The bounds the encounter keeps: HP of both sides in [0, MaxHP], the player's AP in [0, apMax]. */
    ghost predicate Valid()
      reads this, player, enemy
    {
      Ready() && player.Valid() && enemy.Valid() && 0 <= player.ap <= apMax
    }

    constructor (apMax: int := 6, hasArrowQte: bool := true, hasDefenseQte: bool := true)
      ensures this.apMax == apMax && this.hasArrowQte == hasArrowQte && this.hasDefenseQte == hasDefenseQte
      ensures player == null && enemy == null && ui == ActionSelection
      ensures fresh(turns) && turns.current == Player
    {
      this.apMax := apMax;
      this.hasArrowQte := hasArrowQte;
      this.hasDefenseQte := hasDefenseQte;
      turns := new TurnManager();
      player := null;
      enemy := null;
      ui := ActionSelection;
    }

    predicate IsPlayerTurn()
      reads this, turns
    {
      turns.current == Player
    }

    /** StartEncounter: assigns the combatants and resets turn, flags and UI mode. */
    method StartEncounter(p: Character, e: Character, isBoss: bool := false)
      requires p != e
      modifies this, turns
      ensures player == p && enemy == e && Ready()
      ensures turns.current == Player && !startedTurnAp && !playerGuard && ui == ActionSelection
      ensures p.Valid() && e.Valid() && 0 <= p.ap <= apMax ==> Valid()
    {
      player := p;
      enemy := e;
      turns.Reset(Player);
      startedTurnAp := false;
      playerGuard := false;
      ui := ActionSelection;
    }

    /** The player-turn branch of MainLoop: grants one AP once per turn. */
    method PlayerTurnFrame()
      requires Ready() && IsPlayerTurn()
      modifies this`startedTurnAp, player`ap
      ensures startedTurnAp
      ensures player.ap == if old(startedTurnAp) then old(player.ap) else GrantedAp(old(player.ap), apMax)
      ensures old(Valid()) ==> Valid()
    {
      if !startedTurnAp {
        player.ap := Min(apMax, player.ap + 1);
        startedTurnAp := true;
      }
    }

    /**
     * The enemy-turn branch of MainLoop: a guarded player takes half (no QTE) and the guard
     * is used up; otherwise the defense result decides (Miss without a defense QTE).
     * The turn passes only when the battle goes on.
     */
    method EnemyTurn(defense: QteResult) returns (ended: bool)
      requires Ready() && !IsPlayerTurn()
      modifies this`ui, this`playerGuard, this`startedTurnAp, turns, player`hp
      ensures ui == ActionSelection && !playerGuard
      ensures player.hp == DamagedHp(old(player.hp), EnemyDamage(enemy.atk, old(playerGuard), if hasDefenseQte then defense else CircularQte.Miss))
      ensures ended == BattleOver(player.hp, enemy.hp)
      ensures turns.current == if ended then Enemy else Player
      ensures startedTurnAp == (old(startedTurnAp) && ended)
      ensures old(Valid()) ==> Valid()
    {
      ui := ActionSelection;
      var res := CircularQte.Miss;
      if playerGuard {
        playerGuard := false;
        player.TakeDamage(HalfUp(enemy.atk));
      } else {
        if hasDefenseQte {
          res := defense;
        }
        player.TakeDamage(EnemyDamage(enemy.atk, false, res));
      }
      ended := BattleOver(player.hp, enemy.hp);
      if !ended {
        turns.Next();
        startedTurnAp := false;
      }
    }

    /** CoAttack: damage by the roll; the turn passes only if neither side is down. */
    method Attack(roll: real)
      requires Ready()
      modifies this`ui, this`startedTurnAp, turns, enemy`hp
      ensures ui == ActionSelection
      ensures enemy.hp == DamagedHp(old(enemy.hp), AttackDamage(player.atk, roll))
      ensures turns.current == if BattleOver(player.hp, enemy.hp) then old(turns.current) else Other(old(turns.current))
      ensures startedTurnAp == (old(startedTurnAp) && BattleOver(player.hp, enemy.hp))
      ensures old(Valid()) ==> Valid()
    {
      ui := ActionSelection;
      var dmg := AttackDamage(player.atk, roll);
      enemy.TakeDamage(dmg);
      if !BattleOver(player.hp, enemy.hp) {
        turns.Next();
        startedTurnAp := false;
      }
    }

    /** OnGuard: raises the guard and passes the turn; no HP or AP changes. */
    method Guard()
      modifies this`ui, this`playerGuard, this`startedTurnAp, turns
      ensures ui == ActionSelection && playerGuard && !startedTurnAp
      ensures turns.current == Other(old(turns.current))
    {
      ui := ActionSelection;
      playerGuard := true;
      turns.Next();
      startedTurnAp := false;
    }

    method OpenSkills()
      modifies this`ui
      ensures ui == SkillSelection
    {
      ui := SkillSelection;
    }

    method BackFromSkills()
      modifies this`ui
      ensures ui == ActionSelection
    {
      ui := ActionSelection;
    }

    /**
     * CastSkill: runs the skill from the player on the enemy, then its callback passes the
     * turn on either outcome; success returns to action selection, failure stays in skill
     * selection. When the skill never calls back, nothing changes.
     */
    method CastSkill(index: nat, qtePassed: bool) returns (done: Option<bool>)
      requires Ready() && index < |player.skills|
      modifies this`ui, this`startedTurnAp, turns, player`ap, player`hp, enemy`hp
      ensures done == Skills.Outcome(player.skills[index], if hasArrowQte then Some(qtePassed) else None, old(player.ap))
      ensures done.None? ==> ui == old(ui) && turns.current == old(turns.current) && startedTurnAp == old(startedTurnAp)
      ensures done == Some(true) ==> ui == ActionSelection && turns.current == Other(old(turns.current)) && !startedTurnAp
      ensures done == Some(false) ==> ui == SkillSelection && turns.current == Other(old(turns.current)) && startedTurnAp == old(startedTurnAp)
      ensures done != Some(true) ==> player.ap == old(player.ap) && player.hp == old(player.hp) && enemy.hp == old(enemy.hp)
      ensures done == Some(true) ==> player.ap == old(player.ap) - player.skills[index].Cost()
      ensures done == Some(true) && player.skills[index].HealSkill? ==>
                player.hp == HealedHp(old(player.hp), player.maxHp, player.skills[index].Magnitude()) && enemy.hp == old(enemy.hp)
      ensures done == Some(true) && !player.skills[index].HealSkill? ==>
                enemy.hp == DamagedHp(old(enemy.hp), player.skills[index].Magnitude()) && player.hp == old(player.hp)
      ensures enemy.ap == old(enemy.ap) && playerGuard == old(playerGuard)
      ensures old(Valid()) ==> Valid()
    {
      var skill := player.skills[index];
      var arrow := if hasArrowQte then Some(qtePassed) else None;
      done := Skills.Perform(skill, player, enemy, arrow);
      match done {
        case None =>
        case Some(ok) =>
          turns.Next();
          if ok {
            startedTurnAp := false;
            ui := ActionSelection;
          } else {
            ui := SkillSelection;
          }
      }
    }

    /** PlayerGainHP: the player's HP moved by amount and clamped into [0, MaxHP]; nothing without a player. */
    method PlayerGainHp(amount: int)
      modifies player
      ensures player != null ==> player.hp == GainedHp(old(player.hp), player.maxHp, amount)
      ensures player != null ==> player.ap == old(player.ap)
      ensures player != null && 0 <= player.maxHp ==> player.Valid()
    {
      if player == null {
        return;
      }
      player.hp := GainedHp(player.hp, player.maxHp, amount);
    }

    /** What a button press can change: the panel, the turn, the flags and the HP and AP of both sides. */
    ghost function Observed(): Snapshot
      requires Ready()
      reads this, turns, player, enemy
    {
      Snapshot(ui, turns.current, startedTurnAp, playerGuard, player.ap, player.hp, enemy.hp)
    }

    /**
     * ApplyUIMode and RefreshSkillInteractable: whether the button a command presses can be
     * pressed; the action buttons on the action panel, Back and the skill buttons on the
     * skill panel, a skill button only for a listed skill whose cost the player holds.
     */
    predicate Accepts(command: Command)
      requires Ready()
      reads this, turns, player
    {
      match command
      case NoCommand => false
      case AttackCommand(_) => ShowActions(ui, turns.current)
      case GuardCommand => ShowActions(ui, turns.current)
      case OpenSkillsCommand => ShowActions(ui, turns.current)
      case BackCommand => ShowSkills(ui, turns.current)
      case CastCommand(index, _) =>
        ShowSkills(ui, turns.current) && index < |player.skills| && SkillInteractable(player.ap, player.skills[index])
    }

    /** One button press: a press the panels do not accept changes nothing, an accepted one takes its step. */
    method Dispatch(command: Command)
      requires Ready() && IsPlayerTurn()
      modifies this`ui, this`playerGuard, this`startedTurnAp, turns, player`ap, player`hp, enemy`hp
      ensures player == old(player) && enemy == old(enemy)
      ensures old(Valid()) ==> Valid()
      ensures !old(Accepts(command)) ==> Observed() == old(Observed())
      ensures old(Accepts(command)) && command.AttackCommand? ==>
                var hp := DamagedHp(old(enemy.hp), AttackDamage(player.atk, command.roll));
                Observed() == old(Observed()).(ui := ActionSelection, enemyHp := hp,
                                               turn := if BattleOver(player.hp, hp) then Player else Enemy,
                                               startedTurnAp := old(startedTurnAp) && BattleOver(player.hp, hp))
      ensures old(Accepts(command)) && command.GuardCommand? ==>
                Observed() == old(Observed()).(ui := ActionSelection, turn := Enemy, startedTurnAp := false, playerGuard := true)
      ensures old(Accepts(command)) && command.OpenSkillsCommand? ==> Observed() == old(Observed()).(ui := SkillSelection)
      ensures old(Accepts(command)) && command.BackCommand? ==> Observed() == old(Observed()).(ui := ActionSelection)
      ensures old(Accepts(command)) && command.CastCommand? ==>
                var skill := player.skills[command.index];
                var outcome := Skills.Outcome(skill, if hasArrowQte then Some(command.qtePassed) else None, old(player.ap));
                && (outcome.None? ==> Observed() == old(Observed()))
                && (outcome == Some(false) ==> Observed() == old(Observed()).(ui := SkillSelection, turn := Enemy))
                && (outcome == Some(true) ==>
                      Observed() == old(Observed()).(ui := ActionSelection, turn := Enemy, startedTurnAp := false,
                                                     playerAp := old(player.ap) - skill.Cost(),
                                                     playerHp := if skill.HealSkill? then HealedHp(old(player.hp), player.maxHp, skill.Magnitude()) else old(player.hp),
                                                     enemyHp := if skill.HealSkill? then old(enemy.hp) else DamagedHp(old(enemy.hp), skill.Magnitude())))
    {
      if !Accepts(command) {
        return;
      }
      match command
      case AttackCommand(roll) => Attack(roll);
      case GuardCommand => Guard();
      case OpenSkillsCommand => OpenSkills();
      case BackCommand => BackFromSkills();
      case CastCommand(index, qtePassed) =>
        var _ := CastSkill(index, qtePassed);
    }

    /**
     * MainLoop over a script of steps: while both sides stand, a player turn grants its AP
     * and takes the step's command, an enemy turn attacks with the step's defense result.
     * Some(win) once the battle is over, None while it goes on after the last step.
     */
    method MainLoop(script: seq<Step>) returns (finished: Option<bool>)
      requires Valid()
      modifies this`ui, this`playerGuard, this`startedTurnAp, turns, player`ap, player`hp, enemy`hp
      ensures player == old(player) && enemy == old(enemy) && Valid()
      ensures finished.Some? <==> BattleOver(player.hp, enemy.hp)
      ensures finished.Some? ==> finished.value == (player.hp > 0) && ui == ActionSelection
    {
      var k := 0;
      while k < |script| && player.hp > 0 && enemy.hp > 0
        invariant 0 <= k <= |script|
        invariant player == old(player) && enemy == old(enemy) && Valid()
        decreases |script| - k
      {
        if IsPlayerTurn() {
          PlayerTurnFrame();
          Dispatch(script[k].command);
        } else {
          var ended := EnemyTurn(script[k].defense);
          if ended {
            break;
          }
        }
        k := k + 1;
      }
      if player.hp > 0 && enemy.hp > 0 {
        return None;
      }
      ui := ActionSelection;
      return Some(player.hp > 0);
    }
  }

  /**
   * Player (100 HP, ATK 15) against an enemy of 20 HP and ATK 10: two full-damage
   * attacks take the enemy from 20 to 5 to 0, and the player wins.
   */
  method TwoFullHitsWin() returns (enemyHp: int, playerWins: bool)
    ensures enemyHp == 0 && playerWins
  {
    var m := new EncounterManager();
    var p := new Character.Player("Hero", 100, 15);
    var e := new Character.Enemy("Grunt T1", 20, 10);
    m.StartEncounter(p, e);
    m.PlayerTurnFrame();
    m.Attack(0.5);
    assert e.hp == 5 && m.turns.current == Enemy;
    var ended := m.EnemyTurn(CircularQte.Miss);
    assert p.hp == 90 && !ended && m.turns.current == Player;
    m.PlayerTurnFrame();
    m.Attack(0.5);
    enemyHp := e.hp;
    playerWins := BattleOver(p.hp, e.hp) && p.hp > 0;
  }
}

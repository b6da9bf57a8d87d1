/**
 * Combatants: the abstract Character of the game and its two concrete kinds,
 * the Player (who owns the fixed list of three skills) and the Enemy.
 */
module Identity {
  import opened Mathf

  /** The three skills of the player, with the constants their classes initialise. */
  datatype Skill = HealSkill | HeavySlashSkill | MagicBulletSkill {

    function Label(): string {
      match this
      case HealSkill => "Heal"
      case HeavySlashSkill => "Heavy Slash"
      case MagicBulletSkill => "Magic Bullet"
    }

    /** The text of the skill's button: label and magnitude. */
    function Name(): string {
      match this
      case HealSkill => "Heal (+20 HP)"
      case HeavySlashSkill => "Heavy Slash (30)"
      case MagicBulletSkill => "Magic Bullet (50)"
    }

    /** AP the skill spends. */
    function Cost(): int {
      match this
      case HealSkill => 2
      case HeavySlashSkill => 2
      case MagicBulletSkill => 3
    }

    /** HP healed (HealSkill) or damage dealt (the two attacks). */
    function Magnitude(): int {
      match this
      case HealSkill => 20
      case HeavySlashSkill => 30
      case MagicBulletSkill => 50
    }

    /** Every skill of the game asks for the arrow QTE. */
    predicate RequiresQte() {
      true
    }
  }

  /** The skill list a new Player registers, in registration order. */
  const PlayerSkills: seq<Skill> := [HealSkill, HeavySlashSkill, MagicBulletSkill]

  lemma SkillTable()
    ensures |PlayerSkills| == 3
    ensures PlayerSkills[0].Label() == "Heal" && PlayerSkills[0].Cost() == 2 && PlayerSkills[0].Magnitude() == 20
    ensures PlayerSkills[1].Label() == "Heavy Slash" && PlayerSkills[1].Cost() == 2 && PlayerSkills[1].Magnitude() == 30
    ensures PlayerSkills[2].Label() == "Magic Bullet" && PlayerSkills[2].Cost() == 3 && PlayerSkills[2].Magnitude() == 50
    ensures forall k :: 0 <= k < |PlayerSkills| ==> PlayerSkills[k].RequiresQte() && PlayerSkills[k].Cost() > 0
  {
  }

  /** HP after Heal(amount): raised by the non-negative part of amount, capped at maxHp. */
  function HealedHp(hp: int, maxHp: int, amount: int): (r: int)
    ensures r <= maxHp
    ensures r <= hp + Max(0, amount)
    ensures r == maxHp || r == hp + Max(0, amount)
    ensures hp <= maxHp ==> hp <= r
    ensures amount <= 0 && hp <= maxHp ==> r == hp
  {
    Min(maxHp, hp + Max(0, amount))
  }

  /** HP after TakeDamage(amount): lowered by the non-negative part of amount, floored at 0. */
  function DamagedHp(hp: int, amount: int): (r: int)
    ensures 0 <= r
    ensures r >= hp - Max(0, amount)
    ensures r == 0 || r == hp - Max(0, amount)
    ensures 0 <= hp ==> r <= hp
    ensures amount <= 0 && 0 <= hp ==> r == hp
  {
    Max(0, hp - Max(0, amount))
  }

  /** Any sequence of Heal and TakeDamage calls keeps an HP value that starts in [0, maxHp] inside it. */
  lemma {:induction false} HealsAndDamageStayInRange(hp: int, maxHp: int, amounts: seq<int>, heals: seq<bool>)
    requires 0 <= hp <= maxHp
    requires |amounts| == |heals|
    ensures 0 <= ApplyAll(hp, maxHp, amounts, heals) <= maxHp
    decreases |amounts|
  {
    if amounts != [] {
      var next := if heals[0] then HealedHp(hp, maxHp, amounts[0]) else DamagedHp(hp, amounts[0]);
      HealsAndDamageStayInRange(next, maxHp, amounts[1..], heals[1..]);
    }
  }

  /** Applies a sequence of Heal (heals[k]) or TakeDamage (!heals[k]) calls to an HP value. */
  function ApplyAll(hp: int, maxHp: int, amounts: seq<int>, heals: seq<bool>): int
    requires |amounts| == |heals|
    decreases |amounts|
  {
    if amounts == [] then hp
    else
      var next := if heals[0] then HealedHp(hp, maxHp, amounts[0]) else DamagedHp(hp, amounts[0]);
      ApplyAll(next, maxHp, amounts[1..], heals[1..])
  }

  /**
   * A combatant. Name, MaxHP, APMax and ATK have private setters in the game
   * and are constants here; HP and AP have public setters.
   * Skills is a get-only list: empty for an Enemy.
   */
  class Character {
    const name: string
    const maxHp: int
    const apMax: int
    const atk: int
    const skills: seq<Skill>
    var hp: int
    var ap: int

    /** The HP bound the mutation primitives keep. */
    ghost predicate Valid()
      reads this
    {
      0 <= hp <= maxHp
    }

    /** A Player: the Character constructor with the Player's defaults, then the three skills. */
    constructor Player(name: string := "Hero", maxHp: int := 100, atk: int := 15, apMax: int := 6, startAp: int := 0)
      ensures this.name == name && this.maxHp == maxHp && this.atk == atk && this.apMax == apMax
      ensures hp == maxHp && ap == startAp
      ensures skills == PlayerSkills
      ensures 0 <= maxHp ==> Valid()
    {
      this.name := name;
      this.maxHp := maxHp;
      this.atk := atk;
      this.apMax := apMax;
      this.skills := PlayerSkills;
      hp := maxHp;
      ap := startAp;
    }

    /** An Enemy: the Character constructor with the default apMax 6 and startAP 0. */
    constructor Enemy(name: string, maxHp: int, atk: int)
      ensures this.name == name && this.maxHp == maxHp && this.atk == atk && apMax == 6
      ensures hp == maxHp && ap == 0
      ensures skills == []
      ensures 0 <= maxHp ==> Valid()
    {
      this.name := name;
      this.maxHp := maxHp;
      this.atk := atk;
      this.apMax := 6;
      this.skills := [];
      hp := maxHp;
      ap := 0;
    }

    method Heal(amount: int)
      modifies this`hp
      ensures hp == HealedHp(old(hp), maxHp, amount)
      ensures old(Valid()) ==> Valid() && old(hp) <= hp
    {
      hp := Min(maxHp, hp + Max(0, amount));
    }

    method TakeDamage(amount: int)
      modifies this`hp
      ensures hp == DamagedHp(old(hp), amount)
      ensures old(Valid()) ==> Valid() && hp <= old(hp)
    {
      hp := Max(0, hp - Max(0, amount));
    }

    /** Spends cost AP when at least that much is available; reports whether it did. */
    method SpendAp(cost: int) returns (ok: bool)
      modifies this`ap
      ensures ok <==> old(ap) >= cost
      ensures ap == if ok then old(ap) - cost else old(ap)
      ensures 0 <= cost && ok ==> 0 <= ap
    {
      if ap < cost {
        return false;
      }
      ap := ap - cost;
      return true;
    }
  }
}

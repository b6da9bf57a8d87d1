/**
 * The skill execution protocol shared by HealSkill, HeavySlashSkill and MagicBulletSkill:
 * the arrow QTE gate, then SpendAP, then the effect, then exactly one call of onDone.
 *
 * The arrow QTE is taken as a parameter `arrowQte`: None when the encounter has no
 * arrow QTE component (ctx.ArrowQTE is null), Some(passed) for the result the QTE
 * delivers. The value each Perform returns is what it passes to onDone; None means
 * onDone is never called.
 */
module Skills {
  import opened Wrappers
  import opened Identity

  /** Whether the QTE gate lets the skill go on to the AP check. */
  predicate GatePasses(skill: Skill, arrowQte: Option<bool>)
    requires !(skill.HeavySlashSkill? && arrowQte.None?)
  {
    match skill
    case HeavySlashSkill => arrowQte.value
    case _ => !(skill.RequiresQte() && arrowQte.Some?) || arrowQte.value
  }

  /**
   * What a skill reports through onDone when its user holds `ap` AP.
   * HeavySlashSkill dereferences ctx.ArrowQTE without a null check: with no arrow QTE
   * its coroutine stops on the null reference before anything happens, and onDone is
   * never called.
   */
  function Outcome(skill: Skill, arrowQte: Option<bool>, ap: int): (r: Option<bool>)
    ensures r.None? <==> skill.HeavySlashSkill? && arrowQte.None?
    ensures r == Some(true) ==> ap >= skill.Cost()
    ensures arrowQte == Some(false) ==> r != Some(true)
    ensures r == Some(true) <==> r.Some? && GatePasses(skill, arrowQte) && ap >= skill.Cost()
    ensures !skill.HeavySlashSkill? && arrowQte.None? ==> r == Some(ap >= skill.Cost())
  {
    if skill.HeavySlashSkill? && arrowQte.None? then None
    else if !GatePasses(skill, arrowQte) then Some(false)
    else Some(ap >= skill.Cost())
  }

  /** HealSkill.Perform: heals the user by 20 for 2 AP; the target is not touched. */
  method PerformHeal(user: Character, target: Character, arrowQte: Option<bool>) returns (done: Option<bool>)
    modifies user`ap, user`hp
    ensures done == Outcome(HealSkill, arrowQte, old(user.ap))
    ensures done.Some?
    ensures user.ap == if done == Some(true) then old(user.ap) - 2 else old(user.ap)
    ensures user.hp == if done == Some(true) then HealedHp(old(user.hp), user.maxHp, 20) else old(user.hp)
    ensures user != target ==> unchanged(target)
  {
    var skill := HealSkill;
    if skill.RequiresQte() && arrowQte.Some? {
      var ok := arrowQte.value;
      if !ok {
        return Some(false);
      }
    }
    var spent := user.SpendAp(skill.Cost());
    if !spent {
      return Some(false);
    }
    user.Heal(skill.Magnitude());
    return Some(true);
  }

  /** HeavySlashSkill.Perform: deals 30 to the target for 2 AP; the QTE always runs. */
  method PerformHeavySlash(user: Character, target: Character, arrowQte: Option<bool>) returns (done: Option<bool>)
    modifies user`ap, target`hp
    ensures done == Outcome(HeavySlashSkill, arrowQte, old(user.ap))
    ensures user.ap == if done == Some(true) then old(user.ap) - 2 else old(user.ap)
    ensures target.hp == if done == Some(true) then DamagedHp(old(target.hp), 30) else old(target.hp)
    ensures user != target ==> user.hp == old(user.hp)
  {
    var skill := HeavySlashSkill;
    if arrowQte.None? {
      // ctx.ArrowQTE.RunQTE on a null reference: the coroutine ends here.
      return None;
    }
    var ok := arrowQte.value;
    if !ok {
      return Some(false);
    }
    var spent := user.SpendAp(skill.Cost());
    if !spent {
      return Some(false);
    }
    target.TakeDamage(skill.Magnitude());
    return Some(true);
  }

  /** MagicBulletSkill.Perform: deals 50 to the target for 3 AP. */
  method PerformMagicBullet(user: Character, target: Character, arrowQte: Option<bool>) returns (done: Option<bool>)
    modifies user`ap, target`hp
    ensures done == Outcome(MagicBulletSkill, arrowQte, old(user.ap))
    ensures done.Some?
    ensures user.ap == if done == Some(true) then old(user.ap) - 3 else old(user.ap)
    ensures target.hp == if done == Some(true) then DamagedHp(old(target.hp), 50) else old(target.hp)
    ensures user != target ==> user.hp == old(user.hp)
  {
    var skill := MagicBulletSkill;
    if skill.RequiresQte() && arrowQte.Some? {
      var ok := arrowQte.value;
      if !ok {
        return Some(false);
      }
    }
    var spent := user.SpendAp(skill.Cost());
    if !spent {
      return Some(false);
    }
    target.TakeDamage(skill.Magnitude());
    return Some(true);
  }

  /** ISkill.Perform, dispatched on the skill. */
  method Perform(skill: Skill, user: Character, target: Character, arrowQte: Option<bool>) returns (done: Option<bool>)
    modifies user`ap, user`hp, target`hp
    ensures done == Outcome(skill, arrowQte, old(user.ap))
    ensures user.ap == if done == Some(true) then old(user.ap) - skill.Cost() else old(user.ap)
    ensures user.hp == if done == Some(true) && skill.HealSkill? then HealedHp(old(user.hp), user.maxHp, skill.Magnitude())
                       else if done == Some(true) && user == target then DamagedHp(old(user.hp), skill.Magnitude())
                       else old(user.hp)
    ensures user != target ==> target.hp == if done == Some(true) && !skill.HealSkill? then DamagedHp(old(target.hp), skill.Magnitude()) else old(target.hp)
    ensures user != target ==> target.ap == old(target.ap)
  {
    match skill
    case HealSkill => done := PerformHeal(user, target, arrowQte);
    case HeavySlashSkill => done := PerformHeavySlash(user, target, arrowQte);
    case MagicBulletSkill => done := PerformMagicBullet(user, target, arrowQte);
  }
}

/**
 * World progression (WorldTierManager): a 0-based tier index and a 1-based stage within
 * the tier. Non-boss tiers have stagesPerTier stages; the last tier is the boss tier,
 * where progression stops. Each step is a pure function on a Progress value, and the
 * manager's methods apply those steps to its fields.
 */
module WorldTier {
  import opened Wrappers
  import opened Mathf

  /** WorldTierConfig: the tuning of one tier (the sprite-free data record). */
  datatype TierConfig = TierConfig(tierId: int, enemyStatMult: real, qteTimeToFail: real, arrowQteTimer: real)

  /** The configuration an asset starts with before it is edited. */
  const DefaultTier := TierConfig(1, 1.0, 2.0, 4.0)

  /** The stored tier index and stage, as they are before the properties clamp them. */
  datatype Progress = Progress(index: int, stage: int)

  /** A tier index clamped into [0, max(0, count - 1)]; an index in range is kept. */
  function ClampIndex(i: int, count: nat): (r: int)
    ensures 0 <= r <= Max(0, count - 1)
    ensures 0 <= i < count ==> r == i
    ensures count == 0 ==> r == 0
  {
    Clamp(i, 0, Max(0, count - 1))
  }

  predicate CanAdvance(p: Progress, count: nat) {
    p.index < count - 1
  }

  predicate IsBoss(p: Progress, count: nat) {
    count > 0 && p.index == count - 1
  }

  /** AdvanceTier: the next tier at stage 1 when there is one, otherwise nothing changes. */
  function AdvanceTierStep(p: Progress, count: nat): (q: Progress)
    ensures q == p || (q.index == p.index + 1 < count && q.stage == 1)
  {
    if !CanAdvance(p, count) then p else Progress(p.index + 1, 1)
  }

  /** AdvanceStage: nothing on the boss tier; else the next stage, rolling into AdvanceTier past the last one. */
  function AdvanceStageStep(p: Progress, count: nat, stagesPerTier: int): (q: Progress)
    ensures IsBoss(p, count) ==> q == p
    ensures q == p || (q.index == p.index && q.stage == p.stage + 1) || (q.index == p.index + 1 < count && q.stage == 1)
    ensures 0 <= p.index < count && q.index == p.index && q != p ==> q.stage == p.stage + 1 <= stagesPerTier
  {
    if IsBoss(p, count) then p
    else
      var q := Progress(p.index, p.stage + 1);
      if q.stage > stagesPerTier then AdvanceTierStep(q, count) else q
  }

  /** SetTierAndStage: the index clamped into range, the stage raised to at least 1. */
  function SetStep(tierIndex: int, stage: int, count: nat): (q: Progress)
    ensures q.stage >= 1 && (stage >= 1 ==> q.stage == stage)
    ensures 0 <= q.index && (count > 0 ==> q.index < count)
    ensures 0 <= tierIndex < count ==> q.index == tierIndex
  {
    Progress(ClampIndex(tierIndex, count), Max(1, stage))
  }

  /** n calls of AdvanceStage in a row. */
  function AdvanceStages(p: Progress, n: nat, count: nat, stagesPerTier: int): Progress
    decreases n
  {
    if n == 0 then p else AdvanceStages(AdvanceStageStep(p, count, stagesPerTier), n - 1, count, stagesPerTier)
  }

  /** The index lies in range, the stage is at least 1, and on a non-empty tier list at most stagesPerTier. */
  predicate Inv(p: Progress, count: nat, stagesPerTier: int) {
    0 <= p.index <= Max(0, count - 1) && 1 <= p.stage && (count > 0 ==> p.stage <= stagesPerTier)
  }

  /** The boss tier is the last one, so it can never advance; a tier that can advance is not the boss tier. */
  lemma BossTierIsFinal(p: Progress, count: nat)
    ensures IsBoss(p, count) ==> !CanAdvance(p, count)
    ensures CanAdvance(p, count) && 0 <= p.index ==> !IsBoss(p, count) && count >= 2
  {
  }

  /** Every step keeps Inv; setting a stage keeps it exactly when that stage fits the tier. */
  lemma StepsKeepInv(p: Progress, count: nat, stagesPerTier: int, tierIndex: int, stage: int)
    requires 1 <= stagesPerTier
    ensures Inv(p, count, stagesPerTier) ==> Inv(AdvanceStageStep(p, count, stagesPerTier), count, stagesPerTier)
    ensures Inv(p, count, stagesPerTier) ==> Inv(AdvanceTierStep(p, count), count, stagesPerTier)
    ensures Inv(SetStep(tierIndex, 1, count), count, stagesPerTier)
    ensures count > 0 ==> (Inv(SetStep(tierIndex, stage, count), count, stagesPerTier) <==> stage <= stagesPerTier)
  {
  }

  /** The boss tier is a fixed point of any number of AdvanceStage calls. */
  lemma {:induction false} BossStays(p: Progress, n: nat, count: nat, stagesPerTier: int)
    requires IsBoss(p, count)
    ensures AdvanceStages(p, n, count, stagesPerTier) == p
    decreases n
  {
    if n > 0 {
      BossStays(AdvanceStageStep(p, count, stagesPerTier), n - 1, count, stagesPerTier);
    }
  }

  /** Advancing a + b stages is advancing a stages, then b more. */
  lemma {:induction false} AdvanceStagesAdd(p: Progress, a: nat, b: nat, count: nat, stagesPerTier: int)
    ensures AdvanceStages(p, a + b, count, stagesPerTier) == AdvanceStages(AdvanceStages(p, a, count, stagesPerTier), b, count, stagesPerTier)
    decreases a
  {
    if a > 0 {
      AdvanceStagesAdd(AdvanceStageStep(p, count, stagesPerTier), a - 1, b, count, stagesPerTier);
    }
  }

  /** Within a non-boss tier each AdvanceStage is one stage further, so k < stagesPerTier calls from stage 1 reach stage 1 + k. */
  lemma {:induction false} StagesWithinTier(i: int, k: nat, count: nat, stagesPerTier: int)
    requires 0 <= i < count - 1 && k < stagesPerTier
    ensures AdvanceStages(Progress(i, 1), k, count, stagesPerTier) == Progress(i, 1 + k)
    decreases k
  {
    if k > 0 {
      StagesWithinTier(i, k - 1, count, stagesPerTier);
      AdvanceStagesAdd(Progress(i, 1), k - 1, 1, count, stagesPerTier);
    }
  }

  /** stagesPerTier calls from the first stage of a non-boss tier reach the first stage of the next tier. */
  lemma FullTier(i: int, count: nat, stagesPerTier: int)
    requires 0 <= i < count - 1 && 1 <= stagesPerTier
    ensures AdvanceStages(Progress(i, 1), stagesPerTier, count, stagesPerTier) == Progress(i + 1, 1)
  {
    StagesWithinTier(i, stagesPerTier - 1, count, stagesPerTier);
    AdvanceStagesAdd(Progress(i, 1), stagesPerTier - 1, 1, count, stagesPerTier);
  }

  /** A run from (0, 1) reaches the first stage of tier i after i * stagesPerTier calls; the boss tier after (count - 1) * stagesPerTier. */
  lemma {:induction false} RunReachesTier(i: nat, count: nat, stagesPerTier: int)
    requires i < count && 1 <= stagesPerTier
    ensures AdvanceStages(Progress(0, 1), i * stagesPerTier, count, stagesPerTier) == Progress(i, 1)
  {
    if i > 0 {
      RunReachesTier(i - 1, count, stagesPerTier);
      assert i * stagesPerTier == (i - 1) * stagesPerTier + stagesPerTier;
      AdvanceStagesAdd(Progress(0, 1), (i - 1) * stagesPerTier, stagesPerTier, count, stagesPerTier);
      FullTier(i - 1, count, stagesPerTier);
    }
  }

  class WorldTierManager {
    const tiers: seq<TierConfig>
    const stagesPerTier: int
    var currentIndex: int
    var currentStage: int

    /** A manager over the tier assets as serialized: index and stage default to 0 and 1 but may be any stored value. */
    constructor (tiers: seq<TierConfig>, stagesPerTier: int := 3, currentIndex: int := 0, currentStage: int := 1)
      ensures this.tiers == tiers && this.stagesPerTier == stagesPerTier
      ensures this.currentIndex == currentIndex && this.currentStage == currentStage
    {
      this.tiers := tiers;
      this.stagesPerTier := stagesPerTier;
      this.currentIndex := currentIndex;
      this.currentStage := currentStage;
    }

    function TierCount(): nat {
      |tiers|
    }

    function State(): Progress
      reads this
    {
      Progress(currentIndex, currentStage)
    }

    /** CurrentIndex: the stored index clamped into [0, max(0, TierCount - 1)]. */
    function CurrentIndex(): (r: int)
      reads this
      ensures 0 <= r <= Max(0, TierCount() - 1)
      ensures 0 <= currentIndex < TierCount() ==> r == currentIndex
    {
      ClampIndex(currentIndex, TierCount())
    }

    /** Current: no configuration without tiers, else the tier at the clamped index. */
    function Current(): (r: Option<TierConfig>)
      reads this
      ensures r.None? <==> TierCount() == 0
      ensures r.Some? ==> r.value == tiers[CurrentIndex()]
    {
      if |tiers| == 0 then None else Some(tiers[Clamp(currentIndex, 0, |tiers| - 1)])
    }

    /** CurrentStage: the stored stage, never reported below 1. */
    function CurrentStage(): (r: int)
      reads this
      ensures r >= 1 && r >= currentStage
      ensures currentStage >= 1 ==> r == currentStage
    {
      Max(1, currentStage)
    }

    function CanAdvanceTier(): (r: bool)
      reads this
      ensures r ==> !IsBoss(State(), TierCount())
      ensures 0 <= currentIndex ==> (r <==> currentIndex + 1 < TierCount())
    {
      CanAdvance(State(), TierCount())
    }

    function IsBossTier(): (r: bool)
      reads this
      ensures r ==> CurrentIndex() == TierCount() - 1 && Current() == Some(tiers[TierCount() - 1])
      ensures r ==> !CanAdvance(State(), TierCount())
    {
      IsBoss(State(), TierCount())
    }

    method ResetProgress(tierIndex: int := 0)
      modifies this
      ensures State() == SetStep(tierIndex, 1, TierCount())
    {
      currentIndex := Clamp(tierIndex, 0, Max(0, TierCount() - 1));
      currentStage := 1;
    }

    method AdvanceTier()
      modifies this
      ensures State() == AdvanceTierStep(old(State()), TierCount())
    {
      if !CanAdvanceTier() {
        return;
      }
      currentIndex := currentIndex + 1;
      currentStage := 1;
    }

    method AdvanceStage()
      modifies this
      ensures State() == AdvanceStageStep(old(State()), TierCount(), stagesPerTier)
    {
      if IsBossTier() {
        return;
      }
      currentStage := currentStage + 1;
      if currentStage > stagesPerTier {
        AdvanceTier();
        return;
      }
    }

    method SetTierAndStage(tierIndex: int, stage: int := 1)
      modifies this
      ensures State() == SetStep(tierIndex, stage, TierCount())
    {
      currentIndex := Clamp(tierIndex, 0, Max(0, TierCount() - 1));
      currentStage := Max(1, stage);
    }

    method SetCurrentIndex(tierIndex: int)
      modifies this
      ensures State() == SetStep(tierIndex, 1, TierCount())
    {
      SetTierAndStage(tierIndex, 1);
    }
  }
}

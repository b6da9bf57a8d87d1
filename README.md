# Turn-based combat core, modelled in Dafny

This project models the in-battle logic of a small Unity turn-based combat game. It also models the world progression and map generation around the battles. Unity, the clock, randomness and keyboard input become explicit inputs.

- **Combatants** (`Identity`). A `Character` class has constant name, MaxHP, APMax and ATK, and mutable HP and AP. Its constructors are `Player` and `Enemy`. `Heal` and `TakeDamage` clamp HP. `SpendAp` fails without enough AP. The Player's three skills are a `Skill` datatype that carries each skill's labels, cost and magnitude.
- **Skills** (`Skills`). Each skill follows one protocol: the arrow-QTE gate, then the AP spend, then the effect, then one completion callback. The QTE result is a parameter: `None` means there is no arrow QTE, `Some(passed)` means it ran. The callback's value is the method's result. `None` means the callback never runs.
- **Turns** (`Turns`). The two-state `TurnManager`.
- **Arrow QTE** (`ArrowQte`). There are two parts:
  - A Fisher–Yates shuffle of the four directions. It runs in place on a four-slot array, and the random draws are inputs.
  - The judging loop over per-frame sets of keys that went down. The arrow keys and WASD map to the four directions. Each frame carries its delta time.
- **Radial defense QTE** (`CircularQte`). Angle normalisation into [0, 360), as written with C#'s truncating `%`. Unity's `DeltaAngle`. The three-tier judge. The session with its single-run guard and its default Miss on timeout. Each frame carries its delta time, whether the trigger was pressed, and the needle's raw angle.
- **Encounter controller** (`Encounter`). The `EncounterManager` class:
  - the per-turn updates: the AP grant, the attack roll, guard, enemy damage, skill completion and termination;
  - the panel-visibility rules;
  - the main loop, run over a script of steps.
- **World progression** (`WorldTier`). Tier and stage bookkeeping, as pure steps on a `Progress` value. The `WorldTierManager` class applies those steps to its fields.
- **Map generation** (`MapGen`). Three of five pool nodes are drawn without replacement, then the fight guarantee is applied. The boss tier gets three boss nodes instead.
- **Helpers.** `Mathf` holds Unity's `Max`/`Min`/`Clamp`, and `Wrappers` holds `Option`.

Two details of the behaviour are easy to miss:

- An angle exactly at the outer edge of the good zone judges Good, not Miss, because the judge tests with `<=`.
- After a failed skill the UI mode stays in skill selection. The enemy turn that follows resets it to action selection (`EncounterManager.cs:194`). The model keeps both steps.

## Model

| member | source | states |
|---|---|---|
| Mathf.Clamp | Assets/Scripts/World/WorldTierManager.cs:25 | Unity's Clamp: the value when it lies in range, lo below it, hi above it; always in [lo, hi] when lo ≤ hi |
| Identity.SkillTable | Assets/Scripts/Identity/Player.cs:11-13 | the Player's skills are Heal, Heavy Slash, Magic Bullet in that order, with costs 2, 2, 3 and magnitudes 20, 30, 50, all requiring the QTE |
| Identity.HealedHp | Assets/Scripts/Identity/Character.cs:19 | healed HP is at most MaxHP. It is either MaxHP or HP plus the non-negative part of the amount. It never drops from a valid HP, and a non-positive amount changes nothing |
| Identity.DamagedHp | Assets/Scripts/Identity/Character.cs:20 | damaged HP is at least 0. It is either 0 or HP minus the non-negative part of the amount. It never rises, and a non-positive amount changes nothing |
| Identity.HealsAndDamageStayInRange | Assets/Scripts/Identity/Character.cs:19-20 | any sequence of heals and hits keeps an HP that starts in [0, MaxHP] inside it |
| Identity.Character.Player | Assets/Scripts/Identity/Player.cs:8-14 | defaults Hero/100/15/6/0; HP starts at MaxHP and AP at startAP; the skill list is the fixed three |
| Identity.Character.Enemy | Assets/Scripts/Identity/Character.cs:13-16 | an enemy starts with HP = MaxHP, AP 0, APMax 6 and no skills |
| Identity.Character.Heal | Assets/Scripts/Identity/Character.cs:19 | HP becomes HealedHp of the old HP; the bound 0 ≤ HP ≤ MaxHP is kept and HP does not decrease |
| Identity.Character.TakeDamage | Assets/Scripts/Identity/Character.cs:20 | HP becomes DamagedHp of the old HP; the bound is kept and HP does not increase |
| Identity.Character.SpendAp | Assets/Scripts/Identity/Character.cs:21-25 | succeeds iff AP ≥ cost. Success lowers AP by exactly cost. Failure leaves AP unchanged. A non-negative cost never drives AP negative |
| Skills.Outcome | Assets/Scripts/Identity/HealSkill.cs:18-32 | there is no callback iff this is Heavy Slash without an arrow QTE. Success holds iff the gate passes and AP ≥ cost. A failed QTE is never a success. Without a QTE, Heal and Magic Bullet succeed iff AP ≥ cost |
| Skills.PerformHeal | Assets/Scripts/Identity/HealSkill.cs:18-32 | the result is Outcome and always calls back. Only success spends 2 AP and heals the user by 20 (capped). The target is unchanged |
| Skills.PerformHeavySlash | Assets/Scripts/Identity/HeavySlashSkill.cs:18-28 | the result is Outcome. With no arrow QTE nothing happens and there is no callback. Only success spends 2 AP and deals 30 to the target (floored at 0). The user's HP is unchanged |
| Skills.PerformMagicBullet | Assets/Scripts/Identity/MagicBulletSkill.cs:18-45 | the result is Outcome and always calls back. Only success spends 3 AP and deals 50 to the target. The user's HP is unchanged |
| Skills.Perform | Assets/Scripts/CombatSystem/EncounterManager.cs:330 | dispatches on the skill. AP, the user's HP and the target's HP change exactly as the chosen skill says, and the target's AP never changes |
| Turns.Other | Assets/Scripts/CombatSystem/TurnManager.cs:8 | the next turn always differs from the current one |
| Turns.NextTwiceIsIdentity | Assets/Scripts/CombatSystem/TurnManager.cs:8 | two calls of Next restore the turn |
| Turns.PlayerIffEven | Assets/Scripts/CombatSystem/TurnManager.cs:8 | from Player, after n calls of Next the turn is Player iff n is even |
| Turns.TurnManager.constructor | Assets/Scripts/CombatSystem/TurnManager.cs:6 | the initial turn is Player |
| Turns.TurnManager.Reset | Assets/Scripts/CombatSystem/TurnManager.cs:7 | the turn becomes the given start, Player by default |
| Turns.TurnManager.Next | Assets/Scripts/CombatSystem/TurnManager.cs:8 | the turn becomes the other one |
| ArrowQte.Pressed | Assets/Scripts/CombatSystem/ArrowQTE.cs:105-114 | a direction is pressed when its arrow key or its WASD letter went down |
| ArrowQte.PressedIffMappedKey | Assets/Scripts/CombatSystem/ArrowQTE.cs:105-114 | a direction counts as pressed iff some key that went down maps to it |
| ArrowQte.PressedOtherThan | Assets/Scripts/CombatSystem/ArrowQTE.cs:116-130 | the wrong-press test: for each expected direction, whether any of the other three is pressed |
| ArrowQte.PressedOtherThanIff | Assets/Scripts/CombatSystem/ArrowQTE.cs:116-130 | the wrong-press test holds iff some direction other than the expected one is pressed |
| ArrowQte.Swap | Assets/Scripts/CombatSystem/ArrowQTE.cs:41 | exchanges the two positions and keeps every other one |
| ArrowQte.SwapPermutes | Assets/Scripts/CombatSystem/ArrowQTE.cs:41 | a swap keeps the multiset of directions |
| ArrowQte.ShufflePermutes | Assets/Scripts/CombatSystem/ArrowQTE.cs:36-42 | for draws j ∈ [0, i], the shuffle keeps the length and the multiset |
| ArrowQte.ShuffleKeepsTail | Assets/Scripts/CombatSystem/ArrowQTE.cs:38-42 | the shuffle fixes every position above the remaining index |
| ArrowQte.ShuffleInjective | Assets/Scripts/CombatSystem/ArrowQTE.cs:38-42 | over distinct directions, different draw sequences give different orders, so each of the 24 orders comes from exactly one draw sequence |
| ArrowQte.PoolShuffleIsPermutation | Assets/Scripts/CombatSystem/ArrowQTE.cs:27-42 | the shuffled pool holds Up, Right, Left and Down exactly once each |
| ArrowQte.Shuffle | Assets/Scripts/CombatSystem/ArrowQTE.cs:36-42 | the in-place loop yields the specified shuffle of the pool, each direction exactly once |
| ArrowQte.JudgeFrom | Assets/Scripts/CombatSystem/ArrowQTE.cs:59-84 | the cursor stays in [start, 4] and advances at most once per frame; a wrong press stops the loop before the cursor reaches 4 |
| ArrowQte.WrongPressFailsAtOnce | Assets/Scripts/CombatSystem/ArrowQTE.cs:71-79 | a frame without the expected arrow but with another one fails there, whatever frames follow |
| ArrowQte.ExpectedTakesPrecedence | Assets/Scripts/CombatSystem/ArrowQTE.cs:66-70 | a frame that holds the expected arrow advances the cursor as if nothing else had been pressed |
| ArrowQte.NoExpectedNoProgress | Assets/Scripts/CombatSystem/ArrowQTE.cs:65-80 | the cursor moves only on frames where the expected arrow is pressed |
| ArrowQte.Passes | Assets/Scripts/CombatSystem/ArrowQTE.cs:55-86 | the QTE passes iff the loop's cursor reaches 4, since a wrong press stops it earlier; a pass takes at least four frames |
| ArrowQte.StepAt | Assets/Scripts/CombatSystem/ArrowQTE.cs:62-83 | a frame judged while time remains moves the cursor on when it holds the expected arrow, and only spends its delta time when no mapped key went down |
| ArrowQte.IdleRun | Assets/Scripts/CombatSystem/ArrowQTE.cs:59-84 | a run of frames without any mapped key, up to a frame that starts while time remains, changes nothing but the time left (frame times non-negative) |
| ArrowQte.NoInputFails | Assets/Scripts/CombatSystem/ArrowQTE.cs:59-86 | with no mapped key on any frame the QTE fails (timeout) |
| ArrowQte.CorrectSequencePasses | Assets/Scripts/CombatSystem/ArrowQTE.cs:55-86 | the four targets pressed in order on frames k0 < k1 < k2 < k3, no mapped key on the other frames before k3, and frame k3 starting inside the budget: the QTE passes, whatever follows |
| ArrowQte.LateFramesIgnored | Assets/Scripts/CombatSystem/ArrowQTE.cs:59-82 | frames that start once the time is spent never affect the loop's result |
| ArrowQte.InputAfterBudgetIgnored | Assets/Scripts/CombatSystem/ArrowQTE.cs:55-86 | any frames appended after the budget is spent leave the result unchanged |
| ArrowQte.CompletionNeedsTime | Assets/Scripts/CombatSystem/ArrowQTE.cs:59-82 | with non-negative frame times, reaching cursor 4 takes at least one frame per target, all started before the time ran out. It names the frame n that consumes the last target: n starts before the time runs out, and the frames up to n already complete the sequence |
| ArrowQte.PassNeedsBudget | Assets/Scripts/CombatSystem/ArrowQTE.cs:55-86 | a pass needs at least four frames, the fourth starting inside the budget. It is decided by a frame n that starts inside the budget and holds the last target: the frames up to n already pass |
| ArrowQte.ArrowQteImages.constructor | Assets/Scripts/CombatSystem/ArrowQTE.cs:29 | the default budget is 3.5 seconds |
| ArrowQte.ArrowQteImages.SetTotalTime | Assets/Scripts/CombatSystem/ArrowQTE.cs:31 | the budget is clamped to at least 0.5, and larger values are kept |
| ArrowQte.ArrowQteImages.RunQte | Assets/Scripts/CombatSystem/ArrowQTE.cs:33-92 | the targets are the shuffle of the pool, each direction once. The single reported result is true iff all four are consumed in order before the budget runs out, with no wrong press |
| ArrowQte.JudgeInput | Assets/Scripts/CombatSystem/ArrowQTE.cs:55-86 | the judging while-loop computes Passes for the targets, frames and budget |
| CircularQte.CsRem360 | Assets/Scripts/CombatSystem/CircularQTE.cs:31 | C#'s `x % 360`: it lies in (−360, 360), has the sign of x, and differs from x by a whole number of turns |
| CircularQte.Repeat360 | Assets/Scripts/CombatSystem/CircularQTE.cs:132 | Unity's Repeat(x, 360) lies in [0, 360) |
| CircularQte.Normalize | Assets/Scripts/CombatSystem/CircularQTE.cs:31 | `((deg % 360) + 360) % 360` lies in [0, 360) and equals the floor-based remainder of deg |
| CircularQte.NormalizeIdempotent | Assets/Scripts/CombatSystem/CircularQTE.cs:126 | normalising twice is normalising once |
| CircularQte.DeltaAngle | Assets/Scripts/CombatSystem/CircularQTE.cs:132 | the signed difference lies in (−180, 180] |
| CircularQte.AngularError | Assets/Scripts/CombatSystem/CircularQTE.cs:132 | the absolute error lies in [0, 180] |
| CircularQte.ErrorIsShortest | Assets/Scripts/CombatSystem/CircularQTE.cs:132 | the error is no greater than the distance through any whole number of turns |
| CircularQte.ErrorIsAttained | Assets/Scripts/CombatSystem/CircularQTE.cs:132 | the error equals some such distance, so it is the shortest one |
| CircularQte.ErrorSymmetric | Assets/Scripts/CombatSystem/CircularQTE.cs:132 | the error of a from c equals the error of c from a |
| CircularQte.ErrorOfOffset | Assets/Scripts/CombatSystem/CircularQTE.cs:132 | an angle d ≤ 180 away from the centre on either side has error d |
| CircularQte.HalfWidth | Assets/Scripts/CombatSystem/CircularQTE.cs:133-134 | half of the width clamped to at least 0.1, so never below 0.05 |
| CircularQte.Tier | Assets/Scripts/CombatSystem/CircularQTE.cs:136-138 | Perfect iff err ≤ halfGreen. Good iff halfGreen < err ≤ halfGreen + halfYellow. Miss iff err exceeds both halves |
| CircularQte.TierMonotone | Assets/Scripts/CombatSystem/CircularQTE.cs:133-138 | a larger error never gives a better tier |
| CircularQte.Judge | Assets/Scripts/CombatSystem/CircularQTE.cs:129-139 | Perfect iff the shortest error is at most halfGreen. Good iff it lies beyond that but within halfGreen + halfYellow. Miss otherwise |
| CircularQte.CenterIsPerfect | Assets/Scripts/CombatSystem/CircularQTE.cs:136 | triggering at the centre is Perfect |
| CircularQte.OuterEdgeIsGood | Assets/Scripts/CombatSystem/CircularQTE.cs:137 | triggering exactly at the outer edge is Good, on either side |
| CircularQte.BeyondEdgeIsMiss | Assets/Scripts/CombatSystem/CircularQTE.cs:138 | triggering anywhere beyond the outer edge is Miss, on either side |
| CircularQte.DefenseFrom | Assets/Scripts/CombatSystem/CircularQTE.cs:69-95 | the routine's loop as a recursion over the frames. It is characterised by the next two rows |
| CircularQte.LateTriggerMisses | Assets/Scripts/CombatSystem/CircularQTE.cs:70-98 | with no trigger on any frame that starts before the duration is up, the result is Miss, whatever later frames hold |
| CircularQte.FirstTriggerJudged | Assets/Scripts/CombatSystem/CircularQTE.cs:72-92 | the first trigger, on a frame that starts before the duration is up (frame times non-negative), judges that frame's normalised needle angle |
| CircularQte.CircularQteSession.constructor | Assets/Scripts/CombatSystem/CircularQTE.cs:22-29 | not running, duration 2.0, centre 270, widths as given (20 and 90 by default) |
| CircularQte.CircularQteSession.SetDuration | Assets/Scripts/CombatSystem/CircularQTE.cs:30 | the duration is clamped to at least 0.1 |
| CircularQte.CircularQteSession.SetCenterAngle | Assets/Scripts/CombatSystem/CircularQTE.cs:31 | the centre becomes the normalised angle, which lies in [0, 360) |
| CircularQte.CircularQteSession.RunDefense | Assets/Scripts/CombatSystem/CircularQTE.cs:54-60 | while a session runs, returns with no result and is still running; otherwise delivers exactly the routine's outcome and ends not running |
| CircularQte.CircularQteSession.RunDefenseRoutine | Assets/Scripts/CombatSystem/CircularQTE.cs:62-107 | the elapsed-time loop yields the judged first trigger before the duration, else Miss, and clears the running flag |
| Encounter.HalfUp | Assets/Scripts/CombatSystem/EncounterManager.cs:204 | `CeilToInt(n * 0.5)`: the least r with 2r ≥ n |
| Encounter.HalfUpOfFifteen | Assets/Scripts/CombatSystem/EncounterManager.cs:204 | half of 15 rounds up to 8, half of 10 is 5 |
| Encounter.ReactionOf | Assets/Scripts/CombatSystem/EncounterManager.cs:257-271 | dodge iff roll < 0.10, guard iff 0.10 ≤ roll < 0.35, hit otherwise |
| Encounter.AttackDamage | Assets/Scripts/CombatSystem/EncounterManager.cs:257-277 | a dodge deals 0, a guard deals ⌈ATK/2⌉, a hit deals ATK |
| Encounter.AttackDamageMonotone | Assets/Scripts/CombatSystem/EncounterManager.cs:257-277 | a higher roll never deals less, and damage lies in [0, ATK] |
| Encounter.EnemyDamage | Assets/Scripts/CombatSystem/EncounterManager.cs:201-228 | guarded: ⌈ATK/2⌉. Otherwise Perfect deals 0, Good ⌈ATK/2⌉ and Miss ATK |
| Encounter.DefenseMonotone | Assets/Scripts/CombatSystem/EncounterManager.cs:212-228 | a defense judged with a smaller error never costs more HP, and never more than ATK |
| Encounter.GrantedAp | Assets/Scripts/CombatSystem/EncounterManager.cs:183 | the grant adds one AP capped at apMax, and keeps AP in [0, apMax] |
| Encounter.GainedHp | Assets/Scripts/CombatSystem/EncounterManager.cs:385 | the HP change is clamped into [0, MaxHP], and an in-range result is exact |
| Encounter.PanelsExclusive | Assets/Scripts/CombatSystem/EncounterManager.cs:358-359 | the two panels are never shown together and neither shows on the enemy turn. On the player's turn exactly one shows |
| Encounter.BattleOver | Assets/Scripts/CombatSystem/EncounterManager.cs:380 | the battle goes on iff both sides have HP above 0 |
| Encounter.ShowSkills | Assets/Scripts/CombatSystem/EncounterManager.cs:358 | the skill panel shows in skill selection on the player's turn |
| Encounter.ShowActions | Assets/Scripts/CombatSystem/EncounterManager.cs:359 | the action panel shows on the player's turn whenever the skill panel does not |
| Encounter.SkillInteractable | Assets/Scripts/CombatSystem/EncounterManager.cs:377 | a skill button is interactable iff the player's AP covers its cost |
| Encounter.EncounterManager.constructor | Assets/Scripts/CombatSystem/EncounterManager.cs:24-57 | apMax 6 by default, no combatants, action selection, the turn at Player |
| Encounter.EncounterManager.StartEncounter | Assets/Scripts/CombatSystem/EncounterManager.cs:65-83 | assigns the combatants, sets the turn to Player, clears both flags and selects actions |
| Encounter.EncounterManager.PlayerTurnFrame | Assets/Scripts/CombatSystem/EncounterManager.cs:179-190 | grants AP once (min(apMax, AP + 1)) until a turn change clears the flag; later frames change nothing |
| Encounter.EncounterManager.EnemyTurn | Assets/Scripts/CombatSystem/EncounterManager.cs:193-237 | selects actions and consumes the guard. The player takes EnemyDamage, which is Miss without a defense QTE. The turn passes back only if the battle goes on |
| Encounter.EncounterManager.Attack | Assets/Scripts/CombatSystem/EncounterManager.cs:250-290 | the enemy takes AttackDamage. The turn passes and the grant flag clears only if neither side is down |
| Encounter.EncounterManager.Guard | Assets/Scripts/CombatSystem/EncounterManager.cs:292-303 | sets the guard flag and always passes the turn; no HP or AP changes |
| Encounter.EncounterManager.OpenSkills | Assets/Scripts/CombatSystem/EncounterManager.cs:309-316 | the UI mode becomes skill selection |
| Encounter.EncounterManager.BackFromSkills | Assets/Scripts/CombatSystem/EncounterManager.cs:318-323 | the UI mode becomes action selection |
| Encounter.EncounterManager.CastSkill | Assets/Scripts/CombatSystem/EncounterManager.cs:325-352 | the result is the skill's Outcome. Either outcome passes the turn. Success spends the cost, heals the player by the magnitude (Heal) or damages the enemy by it (the attacks), selects actions and clears the grant flag. Failure stays in skill selection and keeps the flag, with AP and HP untouched. No callback changes nothing. The enemy's AP and the guard never change |
| Encounter.EncounterManager.PlayerGainHp | Assets/Scripts/CombatSystem/EncounterManager.cs:382-387 | without a player nothing happens. Otherwise HP is clamped into [0, MaxHP] and AP is unchanged |
| Encounter.EncounterManager.Accepts | Assets/Scripts/CombatSystem/EncounterManager.cs:355-378 | the action buttons on the action panel, Back and the skill buttons on the skill panel; a skill button only for a listed skill whose cost the player holds |
| Encounter.EncounterManager.Dispatch | Assets/Scripts/CombatSystem/EncounterManager.cs:355-378 | a press its panel does not accept changes nothing. An accepted press changes exactly what its step changes: attack, guard, the two panel switches, or the cast with its outcome. The encounter's bounds are kept |
| Encounter.EncounterManager.MainLoop | Assets/Scripts/CombatSystem/EncounterManager.cs:175-245 | the loop keeps HP and AP in bounds. It reports a result iff a side is down, and the result is `player.HP > 0` with actions selected |
| Encounter.TwoFullHitsWin | Assets/Scripts/World/GameManager.cs:147-150 | the player 100/15 beats an enemy of 20 HP with two full hits: 20 → 5 → 0 |
| WorldTier.ClampIndex | Assets/Scripts/World/WorldTierManager.cs:25 | the index lies in [0, max(0, TierCount − 1)], and an in-range index is kept |
| WorldTier.BossTierIsFinal | Assets/Scripts/World/WorldTierManager.cs:32-33 | the boss tier cannot advance; a tier that can advance is not the boss tier |
| WorldTier.AdvanceTierStep | Assets/Scripts/World/WorldTierManager.cs:71-80 | either nothing changes or the index moves to a next tier that exists, at stage 1 |
| WorldTier.AdvanceStageStep | Assets/Scripts/World/WorldTierManager.cs:49-68 | nothing on the boss tier. Otherwise either the stage goes up by one, staying within stagesPerTier for an index in range, or the index moves to an existing next tier at stage 1 |
| WorldTier.SetStep | Assets/Scripts/World/WorldTierManager.cs:83-89 | the stage is at least 1 and a valid stage is kept. The index is in range when there are tiers, and a valid index is kept |
| WorldTier.StepsKeepInv | Assets/Scripts/World/WorldTierManager.cs:41-93 | AdvanceStage, AdvanceTier, ResetProgress and SetCurrentIndex keep the index in range and the stage in [1, stagesPerTier]. SetTierAndStage keeps it iff the stage fits |
| WorldTier.BossStays | Assets/Scripts/World/WorldTierManager.cs:51-57 | on the boss tier any number of AdvanceStage calls changes nothing |
| WorldTier.StagesWithinTier | Assets/Scripts/World/WorldTierManager.cs:59-67 | within a non-boss tier, each call moves one stage forward |
| WorldTier.FullTier | Assets/Scripts/World/WorldTierManager.cs:59-79 | stagesPerTier calls from stage 1 of a non-boss tier reach stage 1 of the next tier |
| WorldTier.RunReachesTier | Assets/Scripts/World/WorldTierManager.cs:49-80 | from (0, 1), i · stagesPerTier calls reach (i, 1), so the boss tier is reached after (TierCount − 1) · stagesPerTier calls |
| WorldTier.WorldTierManager.constructor | Assets/Scripts/World/WorldTierManager.cs:9-18 | the tiers, stagesPerTier (3 by default) and the stored index and stage (0 and 1 by default) |
| WorldTier.WorldTierManager.CurrentIndex | Assets/Scripts/World/WorldTierManager.cs:25 | the stored index clamped into [0, max(0, TierCount − 1)] |
| WorldTier.WorldTierManager.Current | Assets/Scripts/World/WorldTierManager.cs:26-28 | no configuration iff there are no tiers, else the tier at the clamped index |
| WorldTier.WorldTierManager.CurrentStage | Assets/Scripts/World/WorldTierManager.cs:34 | never below 1, and the stored stage when that is at least 1 |
| WorldTier.WorldTierManager.CanAdvanceTier | Assets/Scripts/World/WorldTierManager.cs:32 | a tier that can advance is not the boss tier. For a non-negative index it can advance iff a next tier exists |
| WorldTier.WorldTierManager.IsBossTier | Assets/Scripts/World/WorldTierManager.cs:33 | the boss tier is the last tier, its configuration is the last one, and it cannot advance |
| WorldTier.WorldTierManager.ResetProgress | Assets/Scripts/World/WorldTierManager.cs:41-46 | the index is clamped, and the stage is 1 |
| WorldTier.WorldTierManager.AdvanceStage | Assets/Scripts/World/WorldTierManager.cs:49-68 | the state takes the AdvanceStage step: nothing on the boss tier, else the next stage, rolling into AdvanceTier past stagesPerTier |
| WorldTier.WorldTierManager.AdvanceTier | Assets/Scripts/World/WorldTierManager.cs:71-80 | nothing without a next tier; otherwise the index goes up by one and the stage resets to 1 |
| WorldTier.WorldTierManager.SetTierAndStage | Assets/Scripts/World/WorldTierManager.cs:83-89 | the index is clamped, and the stage is raised to at least 1 |
| WorldTier.WorldTierManager.SetCurrentIndex | Assets/Scripts/World/WorldTierManager.cs:90-93 | the index is clamped, and the stage is 1 |
| MapGen.RandomSide | Assets/Scripts/World/MapGenerator.cs:59-68 | a side node is never a boss, and is a fight iff the draw is 0 |
| MapGen.RemoveAt | Assets/Scripts/World/MapGenerator.cs:39 | removal shortens the pool by one and takes out only the removed node |
| MapGen.Drawn | Assets/Scripts/World/MapGenerator.cs:34-40 | one node per draw |
| MapGen.DrawnWithoutReplacement | Assets/Scripts/World/MapGenerator.cs:34-40 | the drawn nodes form a sub-multiset of the pool |
| MapGen.PoolHasNoBoss | Assets/Scripts/World/MapGenerator.cs:25-32 | the pool holds no boss node |
| MapGen.DrawnHasNoBoss | Assets/Scripts/World/MapGenerator.cs:34-40 | drawing from a boss-free pool yields no boss |
| MapGen.NonBossShape | Assets/Scripts/World/MapGenerator.cs:25-44 | the non-boss result has exactly three nodes, at least one fight and no boss |
| MapGen.PoolParts | Assets/Scripts/World/MapGenerator.cs:25-32 | the pool is two fights plus the three non-fight nodes |
| MapGen.FixUpOnlyWithoutFights | Assets/Scripts/World/MapGenerator.cs:43-44 | the fix-up fires only on the draw of Rest and both Events |
| MapGen.FixUp | Assets/Scripts/World/MapGenerator.cs:43-44 | the result keeps the length and holds a fight. A draw with a fight is kept. Only the chosen slot changes |
| MapGen.Pick | Assets/Scripts/World/MapGenerator.cs:34-40 | the pick loop takes exactly the specified draw without replacement |
| MapGen.Generate | Assets/Scripts/World/MapGenerator.cs:16-57 | tier ≥ 4 gives three Boss nodes, and the side draws do not matter. Below it: three drawn nodes plus the fix-up, with a fight and no boss. A draw that already holds a fight is returned unchanged |

## Left out

- Coroutines and frames. Each player action, each player-turn frame and each enemy turn is one atomic method call.
  - The game runs these as coroutines. That allows a second click during the attack flash or during a skill's QTE. The model does not capture such interleavings.
  - Pacing delays (`WaitForSeconds`) have no effect on state and are dropped.
- Floating point. Times, angles and the attack roll are exact `real` numbers. `CeilToInt(n * 0.5f)` is exact integer rounding. C# `int` overflow (for example HP + amount near 2^31) is not modelled.
- The clock is modelled as per-frame delta times, not as tick counts.
  - The defense and arrow sessions require their frames to span the configured duration, since a real clock always runs on.
  - The needle's sweep is not modelled. Each frame supplies the needle's sampled raw angle instead.
- The timing lemmas of both QTEs take every frame's delta time to be non-negative, as a frame clock's is.
- Randomness. `System.Random` draws, the attack roll and the QTE outcomes are all inputs.
- Input. Each frame supplies the set of keys whose key-down event fired in it. Keys other than the arrow keys and WASD are one `Unmapped` value.
- Presentation. Audio, animation, HUD, sliders, outcome flashes, info texts, button wiring and sprite assignment are left out. So are `GetLayerStageLabel` and the skill `Name` strings, apart from their constants.
- `ScaleEnemyForTier` is left out, because it is floating-point scaling. With a world present, the encounter would replace the enemy by a freshly scaled one. This model keeps the given enemy.
- The tier-driven `SetDuration` and `SetTotalTime` calls in `StartEncounter` and the enemy turn are left out. The sessions expose those setters.
- Events (`OnEncounterFinished`, `OnTierChanged`, `OnProgressChanged`) are not modelled.
- GameManager.cs, Enemy.cs, DemoStart.cs and the UI widgets are not part of this model. The enemy is taken to be a `Character` built from a name, MaxHP and ATK.
  - GameManager builds the player with `new Player("Hero", 100, 15, 0)`. That passes 0 as APMax. The controller grants AP against its own `apMax` of 6, never against the player's APMax, so the model does the same.
- Encounter.EncounterManager.StartEncounter: requires the two combatants to be distinct objects. Assigning combatants is the caller's duty.
- Encounter.EncounterManager.Dispatch: does not model a skill list longer than the number of skill buttons.
- Encounter.EncounterManager.MainLoop: its contract states bounds and the termination report, not the exact final state. The exact effect of each step is stated by the step methods it calls.
- Skills.PerformHeavySlash: without an arrow QTE the game throws inside the coroutine. The model returns `None`, meaning no callback, and changes nothing.
- WorldTier.WorldTierManager.constructor: the inspector's `[Min(1)]` limits on stagesPerTier and the stage are not enforced. Any stored values are accepted, and the step functions handle them as the code does. A null tiers array counts as an empty one.
- MapGen.Generate: map nodes are values without sprites. The pool's two "Encounter — Fight!" nodes are therefore equal values, where the game has two distinct objects.

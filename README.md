# Combat core of a third-person action game, in Dafny

This project models the combat rules of a Unity game. Each rule is written as Dafny functions and classes, and properties of them are proved. The modelled scripts are the six under `Assets/Scripts`:

- **PlayerStats** is the player's ledger. It holds:
  - a stamina pool with a regeneration delay;
  - the ordered damage rule: dodge i-frames, then an open parry window, then a block, then flat defense with a floor of one point;
  - the split between a hit reaction and death;
  - experience with its single level-up check, skill points and 32-bit money.
- **PlayerController** is the player's combat state machine. It covers:
  - the dodge, attack, block, parry, stun and death flags;
  - the combo counter that wraps 3 → 1 and resets after `comboResetTime`;
  - stamina-gated jump, dodge and attack;
  - the attack's safety timer;
  - the sword-swing hit event (`OnAttackHit`);
  - hit-reaction stuns;
  - a death that happens once.
- **SkillManager** holds the four-row skill table. Skill points buy unlocks, and each unlock changes one modifier of the controller.
- **EnemyAI** chases and strikes the player by distance, with an attack cooldown, and has a stun that cannot be re-entered.
- **EnemyHealth** and **DummyEnemy** take raw damage. Both die at or below zero health; EnemyHealth also grants experience.

Time is an input. Every operation that reads `Time.time` or `Time.deltaTime` takes `now` and `dt`. Distances, button signals and the colliders found by the overlap query are inputs too. Quantities are `real`.

A coroutine suspended in `WaitForSeconds` becomes a `Wait`: the frame it started in plus its deadline (module `Timing`). The engine resumes it in the first later frame whose time has reached the deadline. `PlayerController.Tick(now, dt)` and `EnemyAI.Tick(now)` resume what is pending for their owner.

Several parry, stun and attack coroutines can be pending at once. A new parry or stun does not cancel the older one, and a hit reaction lowers the attack flag without stopping the attack coroutine. So these coroutines are lists (`parryWaits`, `stunWaits`, `runs`), and the first one to finish lowers the shared flag.

Modules:

- `StatsRules` and `ControllerRules` hold the pure rules of the two player components.
- `FrameRules` composes one frame of the controller's `Update`.
- `Player` holds the two classes. They refer to each other, so they share a module.
- `Enemies` holds the three enemy classes.
- `MeleeHit` holds `OnAttackHit`. It reaches the enemies, which in turn reach the player, so it sits outside `Player`.
- `Skills` holds the skill table.
- `Scenarios` builds fresh objects with small hand-picked parameters. Each is a concrete call sequence whose resulting state Dafny proves. One example: a blocked hit of 40 costs 20 health and 10 stamina.

Each class method is proved against a rule function on values. The proved `ensures` ties the new fields to that function of the old ones. The rules' own properties are then proved as lemmas:

- the invariants each frame keeps;
- the gates for dodge and attack;
- combo cycling;
- idempotence and commutation of unlocks.

The code has these behaviours, and the model keeps them:

- `GainXP` checks the cap once and does not loop, so one large gain levels up at most once (`StatsRules.SingleLevelUpPerGain`).
- Neither PlayerStats, EnemyHealth nor DummyEnemy has a dead guard. A dead player keeps losing health. Only `OnDeath`'s own guard makes the player's death happen once. A dead enemy that takes another hit dies again and grants its experience again.
- Health is not clamped and may go below zero.
- `PerformComboAttack` without enough stamina starts no attack but still overwrites the pending damage.
- A hit reaction does not cancel the attack coroutine. `StopCoroutine("ExecuteAttack")` stops only coroutines started by name, and this one was started from an `IEnumerator`. The coroutine stays pending and ends at its next resumption, because the attack flag is then off.
- Nothing respawns an enemy; a destroyed enemy stays gone.

## Model

| member | source | states |
|---|---|---|
| StatsRules.Clamp | Assets/Scripts/PlayerStats.cs:59 | Mathf.Clamp puts the result within [lo, hi], leaves a value already there unchanged, and sends a value below lo to lo and one above hi to hi |
| StatsRules.Spend | Assets/Scripts/PlayerStats.cs:58-59 | stamina after a spend stays in [0, max]; it drops by exactly the amount when that is covered, and reaches 0 when the amount exceeds the current level |
| StatsRules.Regenerated | Assets/Scripts/PlayerStats.cs:39-49 | stamina changes only when strictly more than the delay has passed and the pool is below max; it then stays in [0, max] and does not fall for a non-negative rate; from a pool in [0, max) it is exactly the old stamina plus rate times dt, capped at max |
| StatsRules.Used | Assets/Scripts/PlayerStats.cs:56-61 | UseStamina keeps the pool valid even for an amount above the level or of 0, keeps the capacity, stamps the use time, and takes exactly the amount when it is covered |
| StatsRules.AfterDefense | Assets/Scripts/PlayerStats.cs:90 | the damage after defense is at least 1 and at least amount - defense, and equals one of the two |
| StatsRules.ResolveHit | Assets/Scripts/PlayerStats.cs:65-91 | the precedence of the damage rule: i-frames void the hit exactly when invulnerable; parry voids it exactly when parrying and not invulnerable; a landed hit is halved exactly when blocking, then reduced by defense with a floor of 1 |
| StatsRules.GainXPRule | Assets/Scripts/PlayerStats.cs:107 | at most one skill point per gain, granted exactly when xp + amount reaches the cap; then the remainder carries over and the cap grows by 1.2; otherwise only xp grows |
| StatsRules.SingleLevelUpPerGain | Assets/Scripts/PlayerStats.cs:107 | 950 of 1000 plus 2500 gives 2450 xp against a cap of 1200 with one point, so the remainder can stay above the new cap |
| StatsRules.BlockedFortyAtZeroDefense | Assets/Scripts/PlayerStats.cs:82-91 | a blocked hit of 40 at defense 0 lands 20 damage, and the block penalty takes a full pool of 100 to 90 |
| Timing.StillPending | Assets/Scripts/PlayerController.cs:191-196 | after a frame, exactly the waits not yet due stay pending, and fewer stay exactly when some wait was due |
| ControllerRules.NextCombo | Assets/Scripts/PlayerController.cs:301-302 | the counter counts up from 0..2 and wraps from 3 (or above) to 1, so after an attack it is in 1..3 |
| ControllerRules.ComboRunCycles | Assets/Scripts/PlayerController.cs:301-302 | from a counter c in 0..3, n back-to-back attacks show n counters and the i-th shows (c + i) mod 3 + 1 |
| ControllerRules.SixAttacksCycleTwice | Assets/Scripts/PlayerController.cs:301-302 | six attacks from a reset counter show 1, 2, 3, 1, 2, 3 |
| ControllerRules.StunDuration | Assets/Scripts/PlayerController.cs:339-340 | the stun is 1.0 exactly when the damage is at least 30, and 0.4 exactly when it is below 30 |
| ControllerRules.MoveSpeed | Assets/Scripts/PlayerController.cs:110-113 | blocking, then attacking, then walking scales the speed, the first that applies winning; with multipliers in [0, 1] the speed stays in [0, moveSpeed] |
| ControllerRules.HitReaction | Assets/Scripts/PlayerController.cs:333-341 | no change while parrying, blocking, dead or invulnerable; otherwise the attack flag drops and a stun of StunDuration(damage) starts; nothing else changes, and the controller invariants are kept |
| ControllerRules.Died | Assets/Scripts/PlayerController.cs:343-349 | afterwards the player is dead; a second call changes nothing; the first one disables movement; nothing else changes, and the invariants are kept |
| ControllerRules.Roll | Assets/Scripts/PlayerController.cs:274-282 | one resumption of the roll loop: before the duration is over it keeps the dodge and keeps raised i-frames exactly while now is within start + invulnerabilityDuration; once the duration is over it drops the dodge and i-frames and starts the cooldown wait; canDodge never changes |
| ControllerRules.DodgeStep | Assets/Scripts/PlayerController.cs:274-284 | the dodge coroutine keeps i-frames inside a dodge; leaves the dodge exactly as it was while now is within both the i-frame window and the duration; never re-raises i-frames; drops them once now is past start + invulnerabilityDuration; ends the dodge and starts the cooldown when the duration is over; re-allows dodging only when the cooldown wait is due |
| ControllerRules.DodgeStarted | Assets/Scripts/PlayerController.cs:253-278 | a dodge starts dodging and invulnerable and forbids a new dodge; with a zero duration, it goes straight to the cooldown |
| ControllerRules.ResumeAttacks | Assets/Scripts/PlayerController.cs:309-314 | one frame of every pending safety loop, in start order; defined by recursion, its properties are stated in ResumeAttacksSpec |
| ControllerRules.ResumeAttacksSpec | Assets/Scripts/PlayerController.cs:308-315 | the flag stays on exactly when it was on and every coroutine started before this frame was below 2.0 and within the cooldown after adding dt; the safety loop never raises the attack flag, and if the flag was already off before this frame, only coroutines started in it survive; while it stays on, every resumed coroutine was below 2.0 and within the cooldown and has its timer advanced; timers stay within the cooldown |
| ControllerRules.StartedIn | Assets/Scripts/PlayerController.cs:309 | the coroutines started in the current frame, which have not yet reached their first resumption: at most the pending ones, and exactly those with a start time at or after now |
| ControllerRules.ResumeWhenOff | Assets/Scripts/PlayerController.cs:309-314 | with the attack flag already off, every older safety loop ends at its loop test and exactly the coroutines started this frame remain, in order |
| ControllerRules.ResumeWhenFlagFalls | Assets/Scripts/PlayerController.cs:308-315 | when the coroutine at k is the first to fail its loop tests, the flag falls; every coroutine resumed before it stays pending with its timer advanced; of those after it, exactly the ones started this frame remain |
| ControllerRules.AttackStep | Assets/Scripts/PlayerController.cs:308-315 | resuming the attack coroutines changes only the flag and the coroutine list; the flag stays up exactly when it was up and every older coroutine passes both loop tests; while it stays up every coroutine is advanced in place; if the flag was already down before this frame, only coroutines started in it remain; keeps the attack invariant |
| ControllerRules.AttackStarted | Assets/Scripts/PlayerController.cs:298-313 | an attack start stamps lastAttackTime, advances the combo counter, and stays attacking exactly when the first frame time is within the cooldown; it records the pending coroutine exactly then, and keeps the invariant |
| ControllerRules.ParryExpired | Assets/Scripts/PlayerController.cs:191-196 | the parry flag drops when a parry wait is due and is otherwise kept; exactly the waits not due stay; the block flag is untouched |
| ControllerRules.StunExpired | Assets/Scripts/PlayerController.cs:351 | the stun flag drops when a stun wait is due and is otherwise kept; exactly the waits not due stay; death and movement are untouched |
| ControllerRules.IFramesLastTheirWindow | Assets/Scripts/PlayerController.cs:274-281 | a frame no later than the end of the i-frame window, within the roll, leaves the dodge as it was and resolves a hit as dodged (PlayerStats.cs:68-72) |
| ControllerRules.Ticked | Assets/Scripts/PlayerController.cs:191-351 | resuming every coroutine keeps the controller invariants (i-frames only while dodging, combo in 0..3, a raised flag has a pending coroutine) and never raises the attack or i-frame flags |
| FrameRules.CombatModeRule | Assets/Scripts/PlayerController.cs:178-182 | the toggle key flips combat mode; the combo counter resets to 0 exactly when more than comboResetTime has passed since the last attack; nothing else changes |
| FrameRules.DefenseRule | Assets/Scripts/PlayerController.cs:184-189 | key-down opens a parry window only when neither attacking nor dodging; holding blocks under the same condition; key-up otherwise drops both block and parry |
| FrameRules.JumpRule | Assets/Scripts/PlayerController.cs:233-235 | a jump press on the ground with stamina of at least jumpCost spends exactly UseStamina(jumpCost); otherwise the pool is unchanged |
| FrameRules.DodgeRule | Assets/Scripts/PlayerController.cs:240-257 | a dodge starts only when allowed, not attacking and covered by the stamina, and then spends dodgeCost; otherwise nothing changes |
| FrameRules.ComboRule | Assets/Scripts/PlayerController.cs:287-302 | the pending damage is always overwritten; too little stamina changes nothing else; otherwise combat mode comes on, the cost is spent and the attack starts |
| FrameRules.ActionRule | Assets/Scripts/PlayerController.cs:231-249 | the action input leaves the defense, status and modifiers unchanged |
| FrameRules.FrameRule | Assets/Scripts/PlayerController.cs:92-127 | a dead, stunned or dodging player's frame changes nothing and chooses no speed; otherwise the speed follows the block flag after this frame's input and the attack flag before it |
| FrameRules.FrameKeepsInvariant | Assets/Scripts/PlayerController.cs:92-127 | a frame keeps every controller invariant and keeps the stamina within [0, max] |
| FrameRules.ActionKeepsInvariant | Assets/Scripts/PlayerController.cs:231-249 | jump, dodge and attack keep every controller invariant and the stamina within [0, max] |
| FrameRules.FrameDodgeGate | Assets/Scripts/PlayerController.cs:240-257 | the dodge state changes in a frame if and only if the player is active, not blocking, presses dodge while allowed and not attacking, and has dodgeCost left after the jump; it then becomes a fresh dodge |
| FrameRules.FrameAttackGate | Assets/Scripts/PlayerController.cs:245-300 | an attack press records the damage; the attack starts if and only if the stamina covers the cost, and then sets combat mode, stamps the time, leaves the combo in 1..3 and spends the cost; otherwise the flag, stamp and coroutines stay |
| FrameRules.BlockingFrameActsNot | Assets/Scripts/PlayerController.cs:118-121 | a frame that ends blocking spends no stamina and starts no dodge |
| FrameRules.FrameNeverRaisesStamina | Assets/Scripts/PlayerController.cs:92-127 | with non-negative costs, a frame never raises stamina |
| FrameRules.ActionNeverRaisesStamina | Assets/Scripts/PlayerController.cs:231-249 | with non-negative costs, jump, dodge and attack together never raise stamina |
| FrameRules.UsedNeverRaises | Assets/Scripts/PlayerStats.cs:56-61 | spending a non-negative amount from a valid pool keeps it valid and never raises it |
| Player.AddWrapped | Assets/Scripts/PlayerStats.cs:108 | C# unchecked int addition: the exact sum when it fits in 32 bits, otherwise the sum wrapped by 2^32 |
| Player.PlayerStats.constructor | Assets/Scripts/PlayerStats.cs:6-32 | Start fills health and stamina; no xp, a cap of 1000, no money, no points; the pool is valid for a non-negative max |
| Player.PlayerStats.HasStamina | Assets/Scripts/PlayerStats.cs:51-54 | true exactly when currentStamina >= amount, and then a spend takes exactly the amount |
| Player.PlayerStats.UseStamina | Assets/Scripts/PlayerStats.cs:56-61 | the pool becomes Used(old pool, amount, now): within [0, max], stamped with now |
| Player.PlayerStats.HandleStaminaRegen | Assets/Scripts/PlayerStats.cs:39-49 | the stamina becomes Regenerated of the old stamina, and a valid pool stays valid |
| Player.PlayerStats.TakeDamage | Assets/Scripts/PlayerStats.cs:63-105 | dodged or parried hits change neither stats nor controller; a landed hit costs exactly its mitigated damage; a blocked hit also costs the 10-stamina penalty; then exactly one follows, the hit reaction if health stays above 0, death otherwise; the pool stays valid |
| Player.PlayerStats.Die | Assets/Scripts/PlayerStats.cs:113-120 | the controller, if any, goes through its one-shot death |
| Player.PlayerStats.GainXP | Assets/Scripts/PlayerStats.cs:107 | the progression becomes GainXPRule of the old one |
| Player.PlayerStats.GainMoney | Assets/Scripts/PlayerStats.cs:108 | money grows by the amount when the sum fits, and always agrees with it modulo 2^32 |
| Player.PlayerStats.IncreaseMaxHealth | Assets/Scripts/PlayerStats.cs:109 | max and current health both grow by the amount, so the missing health is preserved |
| Player.PlayerStats.IncreaseMaxStamina | Assets/Scripts/PlayerStats.cs:110 | max and current stamina both grow by the amount, so the missing stamina is preserved; a valid pool stays valid if and only if the new level is not negative |
| Player.PlayerStats.IncreaseDefense | Assets/Scripts/PlayerStats.cs:111 | defense grows by exactly the amount |
| Player.PlayerController.constructor | Assets/Scripts/PlayerController.cs:56-74 | the field initialisers: the initial state, with the stats linked back to this controller |
| Player.PlayerController.HandleCombatMode | Assets/Scripts/PlayerController.cs:178-182 | the attack state becomes CombatModeRule of the old one |
| Player.PlayerController.PerformParryWindow | Assets/Scripts/PlayerController.cs:191-196 | the parry flag rises and a wait of parryWindowDuration is appended |
| Player.PlayerController.HandleDefenseInput | Assets/Scripts/PlayerController.cs:184-189 | the defense state becomes DefenseRule with the attacking/dodging condition |
| Player.PlayerController.PerformDodge | Assets/Scripts/PlayerController.cs:251-279 | the dodge becomes DodgeStarted(now) and the pool is charged dodgeCost |
| Player.PlayerController.ResumeDodge | Assets/Scripts/PlayerController.cs:274-284 | the dodge becomes DodgeStep of the old one |
| Player.PlayerController.ExecuteAttack | Assets/Scripts/PlayerController.cs:296-316 | the attack becomes AttackStarted of the old one and the pool is charged the cost |
| Player.PlayerController.PerformComboAttack | Assets/Scripts/PlayerController.cs:287-294 | the controller and pool become ComboRule of the old ones |
| Player.PlayerController.HandleActionInput | Assets/Scripts/PlayerController.cs:231-249 | the controller and pool become ActionRule of the old ones |
| Player.PlayerController.Update | Assets/Scripts/PlayerController.cs:92-127 | the controller, pool and chosen speed are FrameRule of the old state, and the invariants are kept |
| Player.PlayerController.ResumeAttackRuns | Assets/Scripts/PlayerController.cs:308-315 | the loop over pending attack coroutines gives AttackStep of the old attack state |
| Player.PlayerController.PlayHitReaction | Assets/Scripts/PlayerController.cs:333-341 | the state becomes HitReaction of the old one |
| Player.PlayerController.OnDeath | Assets/Scripts/PlayerController.cs:343-349 | the state becomes Died of the old one, so a second call changes nothing |
| Player.PlayerController.StunRoutine | Assets/Scripts/PlayerController.cs:351 | the stun flag rises and a wait of the duration is appended |
| Player.PlayerController.Tick | Assets/Scripts/PlayerController.cs:251-316 | resuming every coroutine gives Ticked of the old state and keeps the invariants |
| Enemies.Decide | Assets/Scripts/EnemyAI.cs:32-60 | each of the five decisions holds if and only if its condition does: nothing while stunned or without a target; out of sight beyond lookRadius; chase within it; strike within attackRadius exactly when strictly more than the cooldown has passed |
| Enemies.StrikesAreSpaced | Assets/Scripts/EnemyAI.cs:45-57 | a strike after one stamped at t1 comes strictly more than the cooldown later, and nothing beyond lookRadius is chased |
| Enemies.EnemyAI.constructor | Assets/Scripts/EnemyAI.cs:7-30 | the settings and the target; not stunned, enabled, no attack yet |
| Enemies.EnemyAI.Update | Assets/Scripts/EnemyAI.cs:32-60 | the decision is Decide of the state; a strike stamps now and sends exactly attackDamage through the player's TakeDamage; every other decision changes nothing |
| Enemies.EnemyAI.Attack | Assets/Scripts/EnemyAI.cs:62-71 | the target, if it has stats, goes through TakeDamage(attackDamage) |
| Enemies.EnemyAI.Stun | Assets/Scripts/EnemyAI.cs:74-78 | a stun while stunned keeps the running wait; otherwise it stuns with a wait of the duration |
| Enemies.EnemyAI.StunRoutine | Assets/Scripts/EnemyAI.cs:80-90 | the stun flag rises with a wait of the duration |
| Enemies.EnemyAI.Tick | Assets/Scripts/EnemyAI.cs:90-95 | after the frame the enemy is stunned exactly when it was and its wait is not due |
| Enemies.EnemyAI.Frame | Assets/Scripts/EnemyAI.cs:32-35 | a disabled AI makes no decision and changes nothing; an enabled one decides as Update does: a strike stamps the attack time and damages the target, anything else changes nothing |
| Enemies.EnemyHealth.constructor | Assets/Scripts/EnemyHealth.cs:17-24 | Start sets full health, with the collider on and no destruction requested |
| Enemies.EnemyHealth.TakeDamage | Assets/Scripts/EnemyHealth.cs:26-41 | health drops by exactly the amount, unmitigated and unclamped; death follows exactly when the health is then at or below 0, however often; a surviving hit changes neither the player nor the AI |
| Enemies.EnemyHealth.Die | Assets/Scripts/EnemyHealth.cs:43-55 | the player's progression becomes GainXPRule with xpReward; the AI is disabled and otherwise kept; the collider is off and destruction is requested |
| Enemies.DummyEnemy.constructor | Assets/Scripts/DummyEnemy.cs:15-24 | Start sets full health, not removed |
| Enemies.DummyEnemy.TakeDamage | Assets/Scripts/DummyEnemy.cs:26-39 | health drops by exactly the amount, so it never rises for a non-negative amount; the dummy is removed exactly when it was or its health is at or below 0 |
| Enemies.DummyEnemy.Die | Assets/Scripts/DummyEnemy.cs:41-46 | the dummy is removed, and nothing is granted |
| MeleeHit.FirstHealth | Assets/Scripts/PlayerController.cs:324-327 | the position of the first collider with an EnemyHealth, where the visit ends |
| MeleeHit.DestroyedWithinClosedForm | Assets/Scripts/DummyEnemy.cs:26-39 | n hits of p destroy a dummy exactly when the first or the last of them leaves it at or below 0 |
| MeleeHit.OneMoreHit | Assets/Scripts/DummyEnemy.cs:26-39 | one more hit on a dummy adds one to the count of hits taken |
| MeleeHit.OnAttackHit | Assets/Scripts/PlayerController.cs:318-331 | no change without a running attack; otherwise each dummy before the first EnemyHealth loses pendingDamage once per collider of it and is removed exactly when some hit reached 0, and the first EnemyHealth takes pendingDamage once |
| Skills.FindSkill | Assets/Scripts/SkillManager.cs:54 | List.Find: the first row with the id, or -1 exactly when there is none |
| Skills.SkillEffect | Assets/Scripts/SkillManager.cs:81-101 | combat_1 adds 0.1 to the damage multiplier; stamina_1 takes 0.1 from the cost multiplier; heavy_strike and double_jump set their flags; no other modifier changes |
| Skills.UnlockRule | Assets/Scripts/SkillManager.cs:52-79 | an unknown id, an unlocked skill or too few points changes nothing; otherwise exactly the cost is paid, only that row is unlocked and its effect is applied once |
| Skills.UnlockIsMonotone | Assets/Scripts/SkillManager.cs:67-78 | no unlock locks a row or changes one other than its flag, and points never go negative from an unlock |
| Skills.UnlockKeepsLookup | Assets/Scripts/SkillManager.cs:52-79 | after an unlock, every id is found at the same row with the same cost |
| Skills.UnlockTwiceChargesOnce | Assets/Scripts/SkillManager.cs:61-65 | unlocking the same id again changes nothing, so a skill is paid for at most once |
| Skills.UnlockOrderIrrelevant | Assets/Scripts/SkillManager.cs:52-79 | with points for both, two different skills unlock to the same result in either order |
| Skills.UnlockBoth | Assets/Scripts/SkillManager.cs:67-78 | two locked skills unlocked in turn: both rows unlocked, both costs paid, both effects applied |
| Skills.EffectsCommute | Assets/Scripts/SkillManager.cs:81-101 | the effects of two different skills commute |
| Skills.InitialTableFacts | Assets/Scripts/SkillManager.cs:31-40 | the initial table holds four locked skills with distinct ids costing 1, 2, 1 and 2 |
| Skills.Skill.constructor | Assets/Scripts/SkillManager.cs:9-17 | the record holds the given fields |
| Skills.Infos | Assets/Scripts/SkillManager.cs:19 | the rows of the skill list, one per record in order |
| Skills.SkillManager.constructor | Assets/Scripts/SkillManager.cs:23-29 | Start with the components given: the table is InitialSkills, each record held once |
| Skills.SkillManager.InitializeSkills | Assets/Scripts/SkillManager.cs:31-40 | four new records, the initial table, are appended and the list before them is kept |
| Skills.SkillManager.Add | Assets/Scripts/SkillManager.cs:34 | List.Add appends the record |
| Skills.SkillManager.UnlockSkill | Assets/Scripts/SkillManager.cs:52-79 | the table, the player's skill points and the controller's modifiers become UnlockRule of the old ones |
| Skills.SkillManager.ApplySkillEffect | Assets/Scripts/SkillManager.cs:81-101 | the controller's modifiers become SkillEffect of the old ones |

## Left out

- Movement and physics are not modelled: `Vector3` velocities, rotation, gravity, the jump's velocity (`Mathf.Sqrt`), `CharacterController.Move` and the dodge's motion. Only the speed the frame chooses and what the actions cost are modelled.
- Animator triggers and parameters, `Debug.Log`, gizmos and the enemies' `FlashColor` coroutine are not modelled. The model assumes the player has an Animator. Most calls are guarded, but three are not. Without an Animator, PlayerController.cs:237 throws after the jump's `UseStamina`, so that frame's dodge and attack input are never read. PlayerController.cs:304-305 throw after `ExecuteAttack` has raised `isAttacking`, spent the cost and advanced the combo. The flag then stays up with no safety loop to clear it. The model also assumes a main camera. Without `Camera.main`, `cameraTransform` stays null (PlayerController.cs:85-88). Any movement input then throws at PlayerController.cs:222, inside the call at :115 and before `HandleActionInput` at :121, so no jump, dodge or attack is read in a moving frame.
- Player.PlayerStats.constructor: starts from the declared defaults (no XP, a level-up cap of 1000, no money, no skill points) rather than taking those inspector values as parameters. The pools and the regeneration settings are parameters.
- Player.PlayerController.constructor: starts the skill fields `unlockedHeavyAttack`, `unlockedDoubleJump`, `staminaCostMultiplier` and `damageMultiplier` (PlayerController.cs:42-46) at their declared values rather than at values set in the inspector.
- Skills.SkillManager.constructor: starts from the declared empty `skills` list (SkillManager.cs:19). A list pre-filled in the inspector would keep its rows ahead of the four that `InitializeSkills` appends, and `FindSkill` would see those rows first.
- `InventoryManager` is not part of this model. The equipped weapon's damage and stamina cost are parameters of the controller's frame.
- The NavMesh agent and `FaceTarget` are not modelled. The AI's decision (chase, face, strike) is the result instead, and the distance to the target is an input.
- `Physics.OverlapSphere` is not modelled. The colliders it returns are an input, in its order.
- `jumpCount` is not modelled. It is reset on the ground but never read, and the double-jump unlock only sets its flag.
- `stealthDetectionMultiplier` is not modelled, because nothing in the core changes or reads it.
- SkillManager's debug `Update` is not modelled. It only calls `UnlockSkill` for number keys.
- The `GetComponent` lookups in `Start` are not modelled. The components are passed to the constructors, so a missing PlayerController is a null `controller` and a missing target is `hasTarget` false. SkillManager's `playerController` and `playerStats` (SkillManager.cs:25-26) are assumed present. Without PlayerStats, `UnlockSkill` throws at SkillManager.cs:67. Without PlayerController, it pays the points and unlocks the row (SkillManager.cs:69-72), then throws in `ApplySkillEffect` (SkillManager.cs:87-98), so the effect is lost.
- Engine objects are not modelled: `Destroy` with its delay becomes `destroyScheduled`/`removed`, and disabling the character controller becomes `movementEnabled`.
- Float arithmetic is modelled as exact `real` numbers, without rounding. In particular, 1.2 × cap and the ±0.1 multipliers are exact.
- Player.PlayerStats.GainXP, Skills.SkillManager.UnlockSkill: `skillPoints` is an unbounded `int`. A C# `int` would wrap after 2^31 − 1 level-ups, which cannot be reached in play. `currentMoney` is modelled as the 32-bit `Int32`.
- Player.PlayerController.Tick: the engine resumes coroutines after the `Update` calls of a frame. The model states that order rather than enforcing it. It also assumes strictly increasing frame times: a coroutine never resumes in the frame that started it.
- MeleeHit.OnAttackHit: the model takes the colliders as returned. It does not capture that a disabled collider would never be returned.
- The variants under `Assets/Ashore Player Stuff/Scripts`, the camera, menus, HUD, cutscenes, house spawner and animation-event forwarder are not part of this model.

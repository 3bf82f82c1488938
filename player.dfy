/** The player: PlayerStats (health, stamina, defense, experience and
    money) and PlayerController (the combat state machine). The two refer
    to each other, so they share a module. Each method is proved against
    the rules of StatsRules, ControllerRules and FrameRules; the engine's
    clock, frame time and input are parameters. */
module Player {
  import opened StatsRules
  import opened Timing
  import opened ControllerRules
  import opened FrameRules

  /** C#'s 32-bit `int`. */
  newtype Int32 = x: int | -0x8000_0000 <= x < 0x8000_0000

  /** Unchecked 32-bit addition, as C# does it: the sum wraps around. */
  function AddWrapped(a: Int32, b: Int32): (r: Int32)
    ensures -0x8000_0000 <= a as int + b as int < 0x8000_0000 ==> r as int == a as int + b as int
    ensures a as int + b as int >= 0x8000_0000 ==> r as int == a as int + b as int - 0x1_0000_0000
    ensures a as int + b as int < -0x8000_0000 ==> r as int == a as int + b as int + 0x1_0000_0000
  {
    var s := a as int + b as int;
    if s >= 0x8000_0000 then (s - 0x1_0000_0000) as Int32
    else if s < -0x8000_0000 then (s + 0x1_0000_0000) as Int32
    else s as Int32
  }

  class PlayerStats {
    var maxHealth: real
    var currentHealth: real
    var defense: real
    var maxStamina: real
    var currentStamina: real
    const staminaRegenRate: real
    const staminaRegenDelay: real
    var currentXP: real
    var maxXP: real
    var currentMoney: Int32
    var skillPoints: int
    var lastStaminaUseTime: real
    var controller: PlayerController?

    /** The stamina pool. */
    function Stamina(): Pool
      reads this
    {
      Pool(currentStamina, maxStamina, lastStaminaUseTime)
    }

    /** Experience, its cap and the skill points. */
    function Progression(): Progress
      reads this
    {
      Progress(currentXP, maxXP, skillPoints)
    }

    /** Everything the component holds. */
    function Snapshot(): Ledger
      reads this
    {
      Ledger(currentHealth, maxHealth, defense, Stamina(), Progression(), currentMoney as int)
    }

    /** What the damage rule sees of the controller; None without one. */
    function GuardView(): Option<Guard>
      reads this, controller
    {
      if controller == null then None else Some(GuardOf(controller.State()))
    }

    /** Stamina within the pool. */
    predicate Valid()
      reads this
    {
      PoolValid(Stamina())
    }

    /** The inspector values, then Start: health and stamina full, no
      experience, a cap of 1000, no money, no skill points, no controller
      linked yet. */
    constructor (maxHealth: real, defense: real, maxStamina: real, regenRate: real,
                 regenDelay: real)
      ensures Snapshot() == Ledger(maxHealth, maxHealth, defense, Pool(maxStamina, maxStamina, 0.0),
                                 Progress(0.0, 1000.0, 0), 0)
      ensures staminaRegenRate == regenRate && staminaRegenDelay == regenDelay
      ensures controller == null
      ensures 0.0 <= maxStamina ==> Valid()
    {
      this.maxHealth := maxHealth;
      currentHealth := maxHealth;
      this.defense := defense;
      this.maxStamina := maxStamina;
      currentStamina := maxStamina;
      staminaRegenRate := regenRate;
      staminaRegenDelay := regenDelay;
      currentXP := 0.0;
      maxXP := 1000.0;
      currentMoney := 0;
      skillPoints := 0;
      lastStaminaUseTime := 0.0;
      controller := null;
    }

    /** The stamina gate of every action. Passing it with a non-negative
        amount means the spend takes exactly that amount. */
    function HasStamina(amount: real): (r: bool)
      reads this
      ensures r <==> currentStamina >= amount
      ensures r && 0.0 <= amount && currentStamina <= maxStamina ==>
                Spend(currentStamina, maxStamina, amount) == currentStamina - amount
    {
      currentStamina >= amount
    }

    /** Spend stamina at time `now`: the pool never leaves [0, max], even
        for an amount above the current level, and the spend is stamped. */
    method UseStamina(amount: real, now: real)
      modifies this`currentStamina, this`lastStaminaUseTime
      ensures Stamina() == Used(old(Stamina()), amount, now)
      ensures 0.0 <= maxStamina ==> Valid()
      ensures lastStaminaUseTime == now
    {
      currentStamina := currentStamina - amount;
      currentStamina := Clamp(currentStamina, 0.0, maxStamina);
      lastStaminaUseTime := now;
    }

    /** The regeneration of one frame at time `now` with frame time `dt`:
        only strictly after the delay and below the cap, clamped. */
    method HandleStaminaRegen(now: real, dt: real)
      modifies this`currentStamina
      ensures currentStamina == Regenerated(old(currentStamina), maxStamina, staminaRegenRate, dt,
                                            now - lastStaminaUseTime, staminaRegenDelay)
      ensures old(Valid()) ==> Valid()
    {
      if now - lastStaminaUseTime > staminaRegenDelay {
        if currentStamina < maxStamina {
          currentStamina := currentStamina + staminaRegenRate * dt;
          currentStamina := Clamp(currentStamina, 0.0, maxStamina);
        }
      }
    }

    /** The effect of TakeDamage(amount) at time `now`. The hit is resolved
        against the controller's guard as it was: dodged or parried hits
        change nothing; a landed hit costs its mitigated damage in health,
        and a blocked one also the block penalty in stamina. Then exactly
        one follows: the hit reaction while health stays positive, or
        death. */
    twostate predicate TookDamage(amount: real, now: real)
      reads this, controller
    {
      && controller == old(controller)
      && match ResolveHit(old(GuardView()), amount, old(defense))
         case Dodged =>
           Snapshot() == old(Snapshot()) && (controller != null ==> controller.State() == old(controller.State()))
         case Parried =>
           Snapshot() == old(Snapshot()) && (controller != null ==> controller.State() == old(controller.State()))
         case Landed(damage, blocked) =>
           && Snapshot() == old(Snapshot()).(health := old(currentHealth) - damage,
                                         stamina := if blocked then Used(old(Stamina()), BlockStaminaPenalty, now)
                                                    else old(Stamina()))
           && (controller != null ==>
                 controller.State() == if currentHealth > 0.0 then HitReaction(old(controller.State()), damage, now)
                                       else Died(old(controller.State())))
    }

    /** TakeDamage with the ordered mitigation rule. */
    method TakeDamage(amount: real, now: real)
      modifies this`currentHealth, this`currentStamina, this`lastStaminaUseTime, controller
      ensures TookDamage(amount, now)
      ensures old(Valid()) ==> Valid()
    {
      var amt := amount;
      if controller != null {
        if controller.dodge.isInvulnerable {
          return;
        }
        if controller.defense.isParrying {
          return;
        }
        if controller.defense.isBlocking {
          amt := amt * BlockFactor;
          UseStamina(BlockStaminaPenalty, now);
        }
      }
      var damageAfterDefense := if amt - defense > MinimumDamage then amt - defense else MinimumDamage;
      currentHealth := currentHealth - damageAfterDefense;
      if controller != null && currentHealth > 0.0 {
        controller.PlayHitReaction(damageAfterDefense, now);
      }
      if currentHealth <= 0.0 {
        Die();
      }
    }

    /** Die: the controller, if any, goes through its death. */
    method Die()
      modifies controller
      ensures controller != null ==> controller.State() == Died(old(controller.State()))
    {
      if controller != null {
        controller.OnDeath();
      }
    }

    /** GainXP with its single level check. */
    method GainXP(amount: real)
      modifies this`currentXP, this`maxXP, this`skillPoints
      ensures Progression() == GainXPRule(old(Progression()), amount)
    {
      currentXP := currentXP + amount;
      if currentXP >= maxXP {
        currentXP := currentXP - maxXP;
        maxXP := maxXP * XPCapGrowth;
        skillPoints := skillPoints + 1;
      }
    }

    /** GainMoney: a 32-bit addition that wraps on overflow. */
    method GainMoney(amount: Int32)
      modifies this`currentMoney
      ensures -0x8000_0000 <= old(currentMoney) as int + amount as int < 0x8000_0000 ==>
                currentMoney as int == old(currentMoney) as int + amount as int
      ensures (currentMoney as int - old(currentMoney) as int - amount as int) % 0x1_0000_0000 == 0
    {
      currentMoney := AddWrapped(currentMoney, amount);
    }

    /** Both the cap and the current health rise by `amount`, so the
        missing health stays the same. */
    method IncreaseMaxHealth(amount: real)
      modifies this`maxHealth, this`currentHealth
      ensures maxHealth == old(maxHealth) + amount && currentHealth == old(currentHealth) + amount
      ensures maxHealth - currentHealth == old(maxHealth - currentHealth)
    {
      maxHealth := maxHealth + amount;
      currentHealth := currentHealth + amount;
    }

    /** Both the cap and the current stamina rise by `amount`, so the
        missing stamina stays the same; a valid pool stays valid exactly
        when the new level is not negative. */
    method IncreaseMaxStamina(amount: real)
      modifies this`maxStamina, this`currentStamina
      ensures maxStamina == old(maxStamina) + amount && currentStamina == old(currentStamina) + amount
      ensures maxStamina - currentStamina == old(maxStamina - currentStamina)
      ensures old(Valid()) ==> (Valid() <==> old(currentStamina) + amount >= 0.0)
    {
      maxStamina := maxStamina + amount;
      currentStamina := currentStamina + amount;
    }

    /** A plain addition to defense. */
    method IncreaseDefense(amount: real)
      modifies this`defense
      ensures defense == old(defense) + amount
    {
      defense := defense + amount;
    }
  }

  class PlayerController {
    const cfg: ControllerConfig
    const stats: PlayerStats
    var dodge: DodgeState
    var attack: AttackState
    var defense: DefenseState
    var status: StatusState
    var mods: Modifiers

    /** The controller's fields as one value. */
    function State(): ControllerState
      reads this
    {
      ControllerState(dodge, attack, defense, status, mods)
    }

    /** The controller with the stamina pool of its PlayerStats. */
    function Snapshot(): Actor
      reads this, stats
    {
      Actor(State(), stats.Stamina())
    }

    /** The invariants of the state machine and of the stamina pool. */
    ghost predicate Valid()
      reads this, stats
    {
      ControllerInv(State(), cfg) && PoolValid(stats.Stamina())
    }

    /** The field initialisers, and Start linking the PlayerStats of the
        same object to this controller. */
    constructor (stats: PlayerStats, cfg: ControllerConfig)
      modifies stats`controller
      ensures this.stats == stats && this.cfg == cfg && stats.controller == this
      ensures State() == InitialState()
      ensures stats.Valid() ==> Valid()
    {
      this.stats := stats;
      this.cfg := cfg;
      dodge := DodgeState(false, false, true, Ready);
      attack := AttackState(false, false, 0, 0.0, 0.0, []);
      defense := DefenseState(false, false, []);
      status := StatusState(false, [], false, true);
      mods := Modifiers(1.0, 1.0, false, false);
      new;
      stats.controller := this;
    }

    /** HandleCombatMode at time `now`. */
    method HandleCombatMode(togglePressed: bool, now: real)
      modifies this`attack
      ensures attack == CombatModeRule(old(attack), togglePressed, now, cfg)
    {
      if togglePressed {
        attack := attack.(isCombatMode := !attack.isCombatMode);
      }
      if now - attack.lastAttackTime > cfg.comboResetTime {
        attack := attack.(comboCount := 0);
      }
    }

    /** PerformParryWindow up to its wait: the parry flag rises and a
        coroutine waits for the parry window. */
    method PerformParryWindow(now: real)
      modifies this`defense
      ensures defense == old(defense).(isParrying := true,
                                       parryWaits := old(defense.parryWaits) + [Wait(now, now + cfg.parryWindowDuration)])
    {
      defense := defense.(isParrying := true,
                          parryWaits := defense.parryWaits + [Wait(now, now + cfg.parryWindowDuration)]);
    }

    /** HandleDefenseInput with the key signals of the frame at `now`. */
    method HandleDefenseInput(down: bool, held: bool, up: bool, now: real)
      modifies this`defense
      ensures defense == DefenseRule(old(defense), down, held, up,
                                     !attack.isAttacking && !dodge.isDodging, now, cfg)
    {
      if down && !attack.isAttacking && !dodge.isDodging {
        PerformParryWindow(now);
      }
      if held && !attack.isAttacking && !dodge.isDodging {
        defense := defense.(isBlocking := true);
      } else if up {
        defense := defense.(isBlocking := false, isParrying := false);
      }
    }

    /** PerformDodge up to its first suspension at time `now`. */
    method PerformDodge(now: real)
      modifies this`dodge, stats`currentStamina, stats`lastStaminaUseTime
      ensures dodge == DodgeStarted(now, cfg)
      ensures stats.Stamina() == Used(old(stats.Stamina()), cfg.dodgeCost, now)
    {
      dodge := DodgeState(true, true, false, Rolling(now));
      stats.UseStamina(cfg.dodgeCost, now);
      var startTime := now;
      if now < startTime + cfg.dodgeDuration {
        if now > startTime + cfg.invulnerabilityDuration {
          dodge := dodge.(isInvulnerable := false);
        }
      } else {
        dodge := dodge.(isInvulnerable := false, isDodging := false,
                        phase := Cooling(Wait(now, now + cfg.dodgeCooldown)));
      }
    }

    /** The dodge coroutine resumed in the frame at `now`. */
    method ResumeDodge(now: real)
      modifies this`dodge
      ensures dodge == DodgeStep(old(dodge), now, cfg)
    {
      match dodge.phase {
        case Ready =>
        case Rolling(start) =>
          if start < now {
            if now < start + cfg.dodgeDuration {
              if now > start + cfg.invulnerabilityDuration {
                dodge := dodge.(isInvulnerable := false);
              }
            } else {
              dodge := dodge.(isInvulnerable := false, isDodging := false,
                              phase := Cooling(Wait(now, now + cfg.dodgeCooldown)));
            }
          }
        case Cooling(w) =>
          if Due(w, now) {
            dodge := dodge.(canDodge := true, phase := Ready);
          }
      }
    }

    /** ExecuteAttack up to its first suspension at time `now` with frame
        time `dt`, for a swing costing `cost`. */
    method ExecuteAttack(cost: real, now: real, dt: real)
      modifies this`attack, stats`currentStamina, stats`lastStaminaUseTime
      ensures attack == AttackStarted(old(attack), now, dt, cfg)
      ensures stats.Stamina() == Used(old(stats.Stamina()), cost, now)
    {
      attack := attack.(isAttacking := true);
      stats.UseStamina(cost, now);
      attack := attack.(lastAttackTime := now, comboCount := attack.comboCount + 1);
      if attack.comboCount > 3 {
        attack := attack.(comboCount := 1);
      }
      var safetyTimer := 0.0;
      if attack.isAttacking && safetyTimer < SafetyTimerCeiling {
        safetyTimer := safetyTimer + dt;
        if safetyTimer > cfg.attackCooldown {
          attack := attack.(isAttacking := false);
        } else {
          attack := attack.(runs := attack.runs + [AttackRun(now, safetyTimer)]);
        }
      }
    }

    /** PerformComboAttack with the equipped weapon's damage and stamina
        cost, at time `now` with frame time `dt`. */
    method PerformComboAttack(weaponDamage: real, weaponCost: real, now: real, dt: real)
      modifies this`attack, stats`currentStamina, stats`lastStaminaUseTime
      ensures Snapshot() == ComboRule(old(Snapshot()), weaponDamage, weaponCost, now, dt, cfg)
    {
      attack := attack.(pendingDamage := weaponDamage * mods.damageMultiplier);
      var cost := weaponCost * mods.staminaCostMultiplier;
      if !stats.HasStamina(cost) {
        return;
      }
      attack := attack.(isCombatMode := true);
      ExecuteAttack(cost, now, dt);
    }

    /** HandleActionInput: jump, dodge and attack in that order. The jump's
        velocity change is not modelled; only its stamina cost is. */
    method HandleActionInput(input: Input, now: real, dt: real, weaponDamage: real, weaponCost: real)
      modifies this`dodge, this`attack, stats`currentStamina, stats`lastStaminaUseTime
      ensures Snapshot() == ActionRule(old(Snapshot()), input, now, dt, weaponDamage, weaponCost, cfg)
    {
      if input.jumpPressed && input.grounded && stats.HasStamina(cfg.jumpCost) {
        stats.UseStamina(cfg.jumpCost, now);
      }
      if input.dodgePressed && dodge.canDodge && !attack.isAttacking {
        if stats.HasStamina(cfg.dodgeCost) {
          PerformDodge(now);
        }
      }
      if input.attackPressed && !attack.isAttacking {
        PerformComboAttack(weaponDamage, weaponCost, now, dt);
      }
    }

    /** The controller's Update for the frame at `now` with frame time
        `dt`; returns the movement speed chosen, or None when the frame
        returns early. */
    method Update(input: Input, now: real, dt: real, weaponDamage: real, weaponCost: real)
      returns (speed: Option<real>)
      modifies this`dodge, this`attack, this`defense, stats`currentStamina, stats`lastStaminaUseTime
      ensures FrameResult(Snapshot(), speed) ==
              FrameRule(old(Snapshot()), input, now, dt, weaponDamage, weaponCost, cfg)
      ensures old(Valid()) ==> Valid()
    {
      ghost var before := Snapshot();
      if status.isDead {
        return None;
      }
      if status.isStunned || dodge.isDodging {
        return None;
      }
      HandleDefenseInput(input.blockPressed, input.blockHeld, input.blockReleased, now);
      HandleCombatMode(input.togglePressed, now);
      ghost var handled := Snapshot();
      assert handled == AfterHandlers(before, input, now, cfg);
      var currentSpeed := MoveSpeed(cfg.moveSpeed, defense.isBlocking, attack.isAttacking,
                                    input.walkHeld, cfg.blockMovementMultiplier,
                                    cfg.attackMovementMultiplier);
      if !defense.isBlocking {
        HandleActionInput(input, now, dt, weaponDamage, weaponCost);
        assert Snapshot() == ActionRule(handled, input, now, dt, weaponDamage, weaponCost, cfg);
      }
      speed := Some(currentSpeed);
      if ControllerInv(before.ctl, cfg) && PoolValid(before.stamina) {
        FrameKeepsInvariant(before, input, now, dt, weaponDamage, weaponCost, cfg);
      }
    }

    /** The pending attack coroutines resumed in start order in the frame
        at `now` with frame time `dt`. */
    method ResumeAttackRuns(now: real, dt: real)
      modifies this`attack
      ensures attack == AttackStep(old(attack), now, dt, cfg)
    {
      var runs := attack.runs;
      var on := attack.isAttacking;
      var kept: seq<AttackRun> := [];
      var i := 0;
      ghost var total := ResumeAttacks(on, runs, now, dt, cfg.attackCooldown);
      assert runs[i..] == runs;
      while i < |runs|
        invariant 0 <= i <= |runs|
        invariant total.0 == ResumeAttacks(on, runs[i..], now, dt, cfg.attackCooldown).0
        invariant total.1 == kept + ResumeAttacks(on, runs[i..], now, dt, cfg.attackCooldown).1
      {
        var x := runs[i];
        assert runs[i..][0] == x && runs[i..][1..] == runs[i + 1..];
        ghost var whole := ResumeAttacks(on, runs[i..], now, dt, cfg.attackCooldown);
        ghost var rest := ResumeAttacks(on, runs[i + 1..], now, dt, cfg.attackCooldown);
        if x.startedAt >= now {
          assert whole == (rest.0, [x] + rest.1);
          assert kept + whole.1 == (kept + [x]) + rest.1;
          kept := kept + [x];
        } else if on && x.timer < SafetyTimerCeiling && x.timer + dt <= cfg.attackCooldown {
          assert whole == (rest.0, [x.(timer := x.timer + dt)] + rest.1);
          assert kept + whole.1 == (kept + [x.(timer := x.timer + dt)]) + rest.1;
          kept := kept + [x.(timer := x.timer + dt)];
        } else {
          assert whole == ResumeAttacks(false, runs[i + 1..], now, dt, cfg.attackCooldown);
          on := false;
        }
        i := i + 1;
      }
      assert runs[i..] == [];
      attack := attack.(isAttacking := on, runs := kept);
    }

    /** PlayHitReaction with the damage that landed, at time `now`. */
    method PlayHitReaction(damageAmount: real, now: real)
      modifies this`attack, this`status
      ensures State() == HitReaction(old(State()), damageAmount, now)
    {
      if defense.isParrying || defense.isBlocking || status.isDead || dodge.isInvulnerable {
        return;
      }
      if attack.isAttacking {
        attack := attack.(isAttacking := false);
      }
      if damageAmount >= HeavyHitThreshold {
        StunRoutine(HeavyStun, now);
      } else {
        StunRoutine(LightStun, now);
      }
    }

    /** OnDeath: only the first call has an effect. */
    method OnDeath()
      modifies this`status
      ensures State() == Died(old(State()))
    {
      if status.isDead {
        return;
      }
      status := status.(isDead := true, movementEnabled := false);
    }

    /** StunRoutine up to its wait: the stun flag rises and a coroutine
        waits for `duration`. */
    method StunRoutine(duration: real, now: real)
      modifies this`status
      ensures status == old(status).(isStunned := true,
                                     stunWaits := old(status.stunWaits) + [Wait(now, now + duration)])
    {
      status := status.(isStunned := true, stunWaits := status.stunWaits + [Wait(now, now + duration)]);
    }

    /** The engine resuming every pending coroutine of the controller in
        the frame at `now` with frame time `dt`, after the Update calls of
        that frame. */
    method Tick(now: real, dt: real)
      modifies this`dodge, this`attack, this`defense, this`status
      ensures State() == Ticked(old(State()), now, dt, cfg)
      ensures old(Valid()) ==> Valid()
    {
      ResumeDodge(now);
      ResumeAttackRuns(now, dt);
      defense := ParryExpired(defense, now);
      status := StunExpired(status, now);
    }
  }
}

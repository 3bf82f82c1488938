/** The player's frame as pure rules: the input handlers of the
    controller's Update (combat-mode toggle and combo reset, block and
    parry keys, jump, dodge and attack) and their composition with the
    early returns of a dead, stunned or dodging player. The controller and
    the stamina pool form one `Actor`, because the actions spend stamina
    in PlayerStats. */
module FrameRules {
  import opened StatsRules
  import opened Timing
  import opened ControllerRules

  /** The input signals of one frame, with the character controller's
      grounded test. */
  datatype Input = Input(
    blockPressed: bool,
    blockHeld: bool,
    blockReleased: bool,
    togglePressed: bool,
    walkHeld: bool,
    jumpPressed: bool,
    dodgePressed: bool,
    attackPressed: bool,
    grounded: bool)

  /** The controller together with the player's stamina pool. */
  datatype Actor = Actor(ctl: ControllerState, stamina: Pool)

  /** The outcome of the controller's Update: the new actor and the
      movement speed chosen, or None when the frame returned before
      choosing one. */
  datatype FrameResult = FrameResult(actor: Actor, speed: Option<real>)

  /** HandleCombatMode: the toggle key flips combat mode, and the combo
      counter resets when more than the reset time has passed since the
      last attack started. */
  function CombatModeRule(a: AttackState, toggle: bool, now: real, c: ControllerConfig): (r: AttackState)
    ensures r.isCombatMode == (toggle != a.isCombatMode)
    ensures now - a.lastAttackTime > c.comboResetTime ==> r.comboCount == 0
    ensures now - a.lastAttackTime <= c.comboResetTime ==> r.comboCount == a.comboCount
    ensures r == a.(isCombatMode := r.isCombatMode, comboCount := r.comboCount)
  {
    var a1 := if toggle then a.(isCombatMode := !a.isCombatMode) else a;
    if now - a.lastAttackTime > c.comboResetTime then a1.(comboCount := 0) else a1
  }

  /** HandleDefenseInput, where `free` says the player is neither
      attacking nor dodging: a key press opens a parry window, holding the
      key blocks, and releasing it drops both block and parry. */
  function DefenseRule(d: DefenseState, down: bool, held: bool, up: bool, free: bool,
                       now: real, c: ControllerConfig): (r: DefenseState)
    ensures down && free ==> r.parryWaits == d.parryWaits + [Wait(now, now + c.parryWindowDuration)]
    ensures !(down && free) ==> r.parryWaits == d.parryWaits
    ensures held && free ==> r.isBlocking && (r.isParrying <==> down || d.isParrying)
    ensures !(held && free) && up ==> !r.isBlocking && !r.isParrying
    ensures !(held && free) && !up ==>
              r.isBlocking == d.isBlocking && (r.isParrying <==> (down && free) || d.isParrying)
    ensures (d.isParrying ==> d.parryWaits != []) ==> (r.isParrying ==> r.parryWaits != [])
  {
    var d1 := if down && free
              then d.(isParrying := true, parryWaits := d.parryWaits + [Wait(now, now + c.parryWindowDuration)])
              else d;
    if held && free then d1.(isBlocking := true)
    else if up then d1.(isBlocking := false, isParrying := false)
    else d1
  }

  /** The jump: a press on the ground with enough stamina spends the jump
      cost. */
  function JumpRule(p: Pool, input: Input, now: real, c: ControllerConfig): (r: Pool)
    ensures input.jumpPressed && input.grounded && p.current >= c.jumpCost ==>
              r == Used(p, c.jumpCost, now)
    ensures !(input.jumpPressed && input.grounded && p.current >= c.jumpCost) ==> r == p
  {
    if input.jumpPressed && input.grounded && p.current >= c.jumpCost then Used(p, c.jumpCost, now)
    else p
  }

  /** The dodge key starts a dodge only when dodging is allowed, no attack
      is running and the stamina covers the dodge cost. */
  predicate DodgeGate(x: Actor, pressed: bool, c: ControllerConfig)
  {
    pressed && x.ctl.dodge.canDodge && !x.ctl.attack.isAttacking && x.stamina.current >= c.dodgeCost
  }

  /** The dodge part of HandleActionInput with PerformDodge. */
  function DodgeRule(x: Actor, pressed: bool, now: real, c: ControllerConfig): (r: Actor)
    ensures DodgeGate(x, pressed, c) ==>
              r == Actor(x.ctl.(dodge := DodgeStarted(now, c)), Used(x.stamina, c.dodgeCost, now))
    ensures !DodgeGate(x, pressed, c) ==> r == x
  {
    if DodgeGate(x, pressed, c)
    then Actor(x.ctl.(dodge := DodgeStarted(now, c)), Used(x.stamina, c.dodgeCost, now))
    else x
  }

  /** The stamina cost of a swing of the equipped weapon. */
  function AttackCost(x: Actor, weaponCost: real): real
  {
    weaponCost * x.ctl.mods.staminaCostMultiplier
  }

  /** PerformComboAttack with ExecuteAttack: the swing's damage is always
      recorded; with enough stamina combat mode comes on, the cost is
      spent and the attack starts. */
  function ComboRule(x: Actor, weaponDamage: real, weaponCost: real, now: real, dt: real,
                     c: ControllerConfig): (r: Actor)
    ensures r.ctl.attack.pendingDamage == weaponDamage * x.ctl.mods.damageMultiplier
    ensures x.stamina.current < AttackCost(x, weaponCost) ==>
              r == Actor(x.ctl.(attack := x.ctl.attack.(pendingDamage := r.ctl.attack.pendingDamage)),
                         x.stamina)
    ensures x.stamina.current >= AttackCost(x, weaponCost) ==>
              && r.stamina == Used(x.stamina, AttackCost(x, weaponCost), now)
              && r.ctl.attack.isCombatMode
              && r.ctl.attack == AttackStarted(x.ctl.attack.(pendingDamage := r.ctl.attack.pendingDamage,
                                                             isCombatMode := true), now, dt, c)
    ensures r.ctl.dodge == x.ctl.dodge && r.ctl.defense == x.ctl.defense
    ensures r.ctl.status == x.ctl.status && r.ctl.mods == x.ctl.mods
  {
    var a0 := x.ctl.attack.(pendingDamage := weaponDamage * x.ctl.mods.damageMultiplier);
    if x.stamina.current < AttackCost(x, weaponCost) then Actor(x.ctl.(attack := a0), x.stamina)
    else Actor(x.ctl.(attack := AttackStarted(a0.(isCombatMode := true), now, dt, c)),
               Used(x.stamina, AttackCost(x, weaponCost), now))
  }

  /** The actor after the jump and the dodge, just before the attack
      button is looked at. */
  function BeforeAttack(x: Actor, input: Input, now: real, c: ControllerConfig): Actor
  {
    DodgeRule(x.(stamina := JumpRule(x.stamina, input, now, c)), input.dodgePressed, now, c)
  }

  /** HandleActionInput: jump, then dodge, then attack, each seeing the
      stamina the previous ones left. */
  function ActionRule(x: Actor, input: Input, now: real, dt: real, weaponDamage: real,
                      weaponCost: real, c: ControllerConfig): (r: Actor)
    ensures r.ctl.defense == x.ctl.defense && r.ctl.status == x.ctl.status
    ensures r.ctl.mods == x.ctl.mods
  {
    var x2 := BeforeAttack(x, input, now, c);
    if input.attackPressed && !x2.ctl.attack.isAttacking
    then ComboRule(x2, weaponDamage, weaponCost, now, dt, c)
    else x2
  }

  /** The player does nothing in a frame when dead, stunned or dodging. */
  predicate Inert(s: ControllerState)
  {
    s.status.isDead || s.status.isStunned || s.dodge.isDodging
  }

  /** The controller right after the defense and combat-mode handlers of
      an active frame. */
  function AfterHandlers(x: Actor, input: Input, now: real, c: ControllerConfig): Actor
  {
    var free := !x.ctl.attack.isAttacking && !x.ctl.dodge.isDodging;
    Actor(x.ctl.(defense := DefenseRule(x.ctl.defense, input.blockPressed, input.blockHeld,
                                        input.blockReleased, free, now, c),
                 attack := CombatModeRule(x.ctl.attack, input.togglePressed, now, c)),
          x.stamina)
  }

  /** The controller's Update for one frame at time `now` with frame time
      `dt`, with the weapon's damage and stamina cost: nothing when dead,
      stunned or dodging; otherwise defense input, combat mode, the speed
      choice, and the actions unless the player blocks. */
  function FrameRule(x: Actor, input: Input, now: real, dt: real, weaponDamage: real,
                     weaponCost: real, c: ControllerConfig): (r: FrameResult)
    ensures Inert(x.ctl) ==> r == FrameResult(x, None)
    ensures !Inert(x.ctl) ==>
              r.speed == Some(MoveSpeed(c.moveSpeed, r.actor.ctl.defense.isBlocking,
                                        x.ctl.attack.isAttacking, input.walkHeld,
                                        c.blockMovementMultiplier, c.attackMovementMultiplier))
    ensures r.actor.ctl.status == x.ctl.status && r.actor.ctl.mods == x.ctl.mods
  {
    if Inert(x.ctl) then FrameResult(x, None)
    else
      var x1 := AfterHandlers(x, input, now, c);
      var speed := MoveSpeed(c.moveSpeed, x1.ctl.defense.isBlocking, x1.ctl.attack.isAttacking,
                             input.walkHeld, c.blockMovementMultiplier, c.attackMovementMultiplier);
      FrameResult(if x1.ctl.defense.isBlocking then x1
                  else ActionRule(x1, input, now, dt, weaponDamage, weaponCost, c),
                  Some(speed))
  }

  /** A frame keeps the controller's invariants and keeps the stamina
      pool within its capacity. */
  lemma FrameKeepsInvariant(x: Actor, input: Input, now: real, dt: real, weaponDamage: real,
                            weaponCost: real, c: ControllerConfig)
    requires ControllerInv(x.ctl, c) && PoolValid(x.stamina)
    ensures ControllerInv(FrameRule(x, input, now, dt, weaponDamage, weaponCost, c).actor.ctl, c)
    ensures PoolValid(FrameRule(x, input, now, dt, weaponDamage, weaponCost, c).actor.stamina)
  {
    var r := FrameRule(x, input, now, dt, weaponDamage, weaponCost, c);
    if Inert(x.ctl) {
      assert r.actor == x;
    } else {
      var x1 := AfterHandlers(x, input, now, c);
      assert ControllerInv(x1.ctl, c) && x1.stamina == x.stamina;
      if x1.ctl.defense.isBlocking {
        assert r.actor == x1;
      } else {
        assert r.actor == ActionRule(x1, input, now, dt, weaponDamage, weaponCost, c);
        ActionKeepsInvariant(x1, input, now, dt, weaponDamage, weaponCost, c);
      }
    }
  }

  /** The actions keep the controller's invariants and the stamina pool
      within its capacity. */
  lemma ActionKeepsInvariant(x: Actor, input: Input, now: real, dt: real, weaponDamage: real,
                             weaponCost: real, c: ControllerConfig)
    requires ControllerInv(x.ctl, c) && PoolValid(x.stamina)
    ensures ControllerInv(ActionRule(x, input, now, dt, weaponDamage, weaponCost, c).ctl, c)
    ensures PoolValid(ActionRule(x, input, now, dt, weaponDamage, weaponCost, c).stamina)
  {
    var b := BeforeAttack(x, input, now, c);
    assert ControllerInv(b.ctl, c) && PoolValid(b.stamina);
    if input.attackPressed && !b.ctl.attack.isAttacking {
      var r := ComboRule(b, weaponDamage, weaponCost, now, dt, c);
      assert AttackInv(b.ctl.attack.(pendingDamage := r.ctl.attack.pendingDamage, isCombatMode := true), c);
    }
  }

  /** A dodge starts in a frame exactly when the player is active, does
      not block after this frame's block key, presses the dodge key while
      allowed to dodge and not attacking, and has the dodge cost left after
      the jump; it then spends exactly the dodge cost. */
  lemma FrameDodgeGate(x: Actor, input: Input, now: real, dt: real, weaponDamage: real,
                       weaponCost: real, c: ControllerConfig)
    requires DodgeInv(x.ctl.dodge)
    ensures var r := FrameRule(x, input, now, dt, weaponDamage, weaponCost, c);
            var afterJump := x.(stamina := JumpRule(x.stamina, input, now, c));
            (r.actor.ctl.dodge != x.ctl.dodge <==>
               && !Inert(x.ctl)
               && !AfterHandlers(x, input, now, c).ctl.defense.isBlocking
               && DodgeGate(afterJump, input.dodgePressed, c))
    ensures var r := FrameRule(x, input, now, dt, weaponDamage, weaponCost, c);
            r.actor.ctl.dodge != x.ctl.dodge ==> r.actor.ctl.dodge == DodgeStarted(now, c)
  {
  }

  /** An attack button press in an active, non-blocking frame with no
      attack running always records the swing's damage. The attack starts
      exactly when the stamina left after the jump and the dodge covers the
      swing's cost: then combat mode is on, the start is stamped, the combo
      counter is in 1..3 and the cost is spent. Otherwise the attack state
      keeps its flag, its stamp and its coroutines. */
  lemma FrameAttackGate(x: Actor, input: Input, now: real, dt: real, weaponDamage: real,
                        weaponCost: real, c: ControllerConfig)
    requires 0 <= x.ctl.attack.comboCount
    ensures var r := FrameRule(x, input, now, dt, weaponDamage, weaponCost, c);
            var x1 := AfterHandlers(x, input, now, c);
            var b := BeforeAttack(x1, input, now, c);
            var tries := !Inert(x.ctl) && !x1.ctl.defense.isBlocking && input.attackPressed &&
                         !x.ctl.attack.isAttacking;
            && (tries ==> r.actor.ctl.attack.pendingDamage == weaponDamage * x.ctl.mods.damageMultiplier)
            && (tries && b.stamina.current >= AttackCost(x, weaponCost) ==>
                  && r.actor.ctl.attack.isCombatMode
                  && r.actor.ctl.attack.lastAttackTime == now
                  && 1 <= r.actor.ctl.attack.comboCount <= 3
                  && r.actor.stamina == Used(b.stamina, AttackCost(x, weaponCost), now))
            && (tries && b.stamina.current < AttackCost(x, weaponCost) ==> r.actor.stamina == b.stamina)
            && (!(tries && b.stamina.current >= AttackCost(x, weaponCost)) ==>
                  && r.actor.ctl.attack.isAttacking == x.ctl.attack.isAttacking
                  && r.actor.ctl.attack.lastAttackTime == x.ctl.attack.lastAttackTime
                  && r.actor.ctl.attack.runs == x.ctl.attack.runs)
  {
    if !Inert(x.ctl) {
      var x1 := AfterHandlers(x, input, now, c);
      assert x1.ctl.attack.isAttacking == x.ctl.attack.isAttacking;
      assert x1.ctl.attack.runs == x.ctl.attack.runs;
      assert x1.ctl.attack.lastAttackTime == x.ctl.attack.lastAttackTime;
      assert 0 <= x1.ctl.attack.comboCount;
      if !x1.ctl.defense.isBlocking {
        var b := BeforeAttack(x1, input, now, c);
        assert b.ctl.attack == x1.ctl.attack && b.ctl.mods == x.ctl.mods;
        assert AttackCost(b, weaponCost) == AttackCost(x, weaponCost);
      }
    }
  }

  /** A blocking frame starts no action: the stamina and the dodge are
      untouched. */
  lemma BlockingFrameActsNot(x: Actor, input: Input, now: real, dt: real, weaponDamage: real,
                             weaponCost: real, c: ControllerConfig)
    ensures var r := FrameRule(x, input, now, dt, weaponDamage, weaponCost, c);
            r.actor.ctl.defense.isBlocking ==>
              r.actor.stamina == x.stamina && r.actor.ctl.dodge == x.ctl.dodge
  {
  }

  /** With non-negative costs the player's frame never raises stamina. */
  lemma FrameNeverRaisesStamina(x: Actor, input: Input, now: real, dt: real, weaponDamage: real,
                                weaponCost: real, c: ControllerConfig)
    requires PoolValid(x.stamina)
    requires 0.0 <= c.jumpCost && 0.0 <= c.dodgeCost && 0.0 <= AttackCost(x, weaponCost)
    ensures FrameRule(x, input, now, dt, weaponDamage, weaponCost, c).actor.stamina.current
            <= x.stamina.current
  {
    var r := FrameRule(x, input, now, dt, weaponDamage, weaponCost, c);
    if Inert(x.ctl) {
      assert r.actor == x;
    } else {
      var x1 := AfterHandlers(x, input, now, c);
      assert x1.stamina == x.stamina && x1.ctl.mods == x.ctl.mods;
      if x1.ctl.defense.isBlocking {
        assert r.actor == x1;
      } else {
        assert r.actor == ActionRule(x1, input, now, dt, weaponDamage, weaponCost, c);
        ActionNeverRaisesStamina(x1, input, now, dt, weaponDamage, weaponCost, c);
      }
    }
  }

  /** With non-negative costs the actions never raise stamina. */
  lemma ActionNeverRaisesStamina(x: Actor, input: Input, now: real, dt: real, weaponDamage: real,
                                 weaponCost: real, c: ControllerConfig)
    requires PoolValid(x.stamina)
    requires 0.0 <= c.jumpCost && 0.0 <= c.dodgeCost && 0.0 <= AttackCost(x, weaponCost)
    ensures ActionRule(x, input, now, dt, weaponDamage, weaponCost, c).stamina.current
            <= x.stamina.current
  {
    var j := JumpRule(x.stamina, input, now, c);
    UsedNeverRaises(x.stamina, c.jumpCost, now);
    var b := BeforeAttack(x, input, now, c);
    UsedNeverRaises(j, c.dodgeCost, now);
    assert PoolValid(b.stamina) && b.stamina.current <= x.stamina.current;
    assert AttackCost(b, weaponCost) == AttackCost(x, weaponCost);
    UsedNeverRaises(b.stamina, AttackCost(x, weaponCost), now);
  }

  /** Spending a non-negative amount from a valid pool never raises it. */
  lemma UsedNeverRaises(p: Pool, amount: real, now: real)
    requires PoolValid(p) && 0.0 <= amount
    ensures PoolValid(Used(p, amount, now)) && Used(p, amount, now).current <= p.current
  {
  }
}

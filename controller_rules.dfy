/** Pure rules of the player's combat state machine: the snapshot of the
    controller's flags and timers, the combo counter, stun lengths, the
    choice of movement speed, and the wake-up lists that replace the timed
    coroutines. The class PlayerController in module Player is proved
    against these definitions. */
module ControllerRules {
  import opened StatsRules
  import opened Timing

  /** Tuning values set in the inspector; the core never changes them. */
  datatype ControllerConfig = ControllerConfig(
    moveSpeed: real,
    jumpCost: real,
    dodgeDuration: real,
    dodgeCost: real,
    dodgeCooldown: real,
    invulnerabilityDuration: real,
    parryWindowDuration: real,
    blockMovementMultiplier: real,
    comboResetTime: real,
    attackCooldown: real,
    attackMovementMultiplier: real)

  /** The inspector defaults of the controller. */
  function DefaultConfig(): ControllerConfig
  {
    ControllerConfig(6.0, 10.0, 0.5, 20.0, 0.8, 0.4, 0.2, 0.5, 1.0, 0.5, 0.1)
  }

  /** Walking (the walk key held) halves the speed. */
  const WalkMultiplier: real := 0.5

  /** The attack safety loop never runs once its timer has reached this. */
  const SafetyTimerCeiling: real := 2.0

  /** Hits of at least this much damage cause the long stun. */
  const HeavyHitThreshold: real := 30.0
  const HeavyStun: real := 1.0
  const LightStun: real := 0.4

  /** Where the dodge coroutine is: not running, in its rolling loop
      (started in the frame at `start`), or waiting out the cooldown. */
  datatype DodgePhase = Ready | Rolling(start: real) | Cooling(wait: Wait)

  /** The dodge flags and the dodge coroutine. */
  datatype DodgeState = DodgeState(isDodging: bool, isInvulnerable: bool, canDodge: bool,
                                   phase: DodgePhase)

  /** One pending attack coroutine: the frame it started in and its
      safety timer, the frame time it has accumulated. */
  datatype AttackRun = AttackRun(startedAt: real, timer: real)

  /** The attack flag, the combo counter, the damage of the current swing
      and the pending attack coroutines in the order they started. */
  datatype AttackState = AttackState(isAttacking: bool, isCombatMode: bool, comboCount: int,
                                     lastAttackTime: real, pendingDamage: real,
                                     runs: seq<AttackRun>)

  /** The block and parry flags, with the pending parry-window
      coroutines. */
  datatype DefenseState = DefenseState(isBlocking: bool, isParrying: bool,
                                       parryWaits: seq<Wait>)

  /** Stun and death, with the pending stun coroutines and whether the
      character controller still moves. */
  datatype StatusState = StatusState(isStunned: bool, stunWaits: seq<Wait>, isDead: bool,
                                     movementEnabled: bool)

  /** The values that unlocked skills change. */
  datatype Modifiers = Modifiers(damageMultiplier: real, staminaCostMultiplier: real,
                                 unlockedHeavyAttack: bool, unlockedDoubleJump: bool)

  /** Every field of the controller that its methods change, grouped by
      the coroutine or handler that owns it. Several attack, parry-window
      and stun coroutines can be pending at once: a hit reaction clears the
      attack flag without stopping the attack coroutine, and a new parry
      or stun does not cancel the older one. */
  datatype ControllerState = ControllerState(dodge: DodgeState, attack: AttackState,
                                             defense: DefenseState, status: StatusState,
                                             mods: Modifiers)

  /** The field initialisers of the controller. */
  function InitialState(): ControllerState
  {
    ControllerState(DodgeState(false, false, true, Ready),
                    AttackState(false, false, 0, 0.0, 0.0, []),
                    DefenseState(false, false, []),
                    StatusState(false, [], false, true),
                    Modifiers(1.0, 1.0, false, false))
  }

  /** I-frames only inside a dodge, and the dodge flags agree with the
      dodge coroutine. */
  ghost predicate DodgeInv(d: DodgeState)
  {
    && (d.isInvulnerable ==> d.isDodging)
    && (d.isDodging <==> d.phase.Rolling?)
    && (d.canDodge <==> d.phase.Ready?)
  }

  /** The combo counter stays in 0..3, a running attack has a pending
      coroutine that will end it, and no pending attack coroutine has
      accumulated more than the attack cooldown. */
  ghost predicate AttackInv(a: AttackState, c: ControllerConfig)
  {
    && 0 <= a.comboCount <= 3
    && (a.isAttacking ==> a.runs != [])
    && (forall i :: 0 <= i < |a.runs| ==> a.runs[i].timer <= c.attackCooldown)
  }

  /** The invariants the state machine keeps: those of the dodge and the
      attack, and a raised parry or stun flag has a pending coroutine that
      will lower it. */
  ghost predicate ControllerInv(s: ControllerState, c: ControllerConfig)
  {
    && DodgeInv(s.dodge)
    && AttackInv(s.attack, c)
    && (s.defense.isParrying ==> s.defense.parryWaits != [])
    && (s.status.isStunned ==> s.status.stunWaits != [])
  }

  /** What the damage rule reads from the controller. */
  function GuardOf(s: ControllerState): Guard
  {
    Guard(s.dodge.isInvulnerable, s.defense.isParrying, s.defense.isBlocking)
  }

  /** The combo counter after one more attack: it counts up and wraps
      from 3 back to 1, never to 0. */
  function NextCombo(c: int): (r: int)
    ensures 0 <= c ==> 1 <= r <= 3
    ensures 0 <= c < 3 ==> r == c + 1
    ensures 3 <= c ==> r == 1
  {
    if c + 1 > 3 then 1 else c + 1
  }

  /** The counters shown by `n` back-to-back attacks starting from counter
      `c`, with no reset in between. */
  function ComboRun(c: int, n: nat): seq<int>
    decreases n
  {
    if n == 0 then [] else [NextCombo(c)] + ComboRun(NextCombo(c), n - 1)
  }

  /** Back-to-back attacks cycle through 1, 2, 3. */
  lemma {:induction false} ComboRunCycles(c: int, n: nat)
    requires 0 <= c <= 3
    decreases n
    ensures |ComboRun(c, n)| == n
    ensures forall i :: 0 <= i < n ==> ComboRun(c, n)[i] == (c + i) % 3 + 1
  {
    if n > 0 {
      var c' := NextCombo(c);
      ComboRunCycles(c', n - 1);
      forall i | 0 <= i < n
        ensures ComboRun(c, n)[i] == (c + i) % 3 + 1
      {
        if i > 0 {
          assert ComboRun(c, n)[i] == ComboRun(c', n - 1)[i - 1];
          if c == 3 {
            assert (c' + (i - 1)) % 3 == (c + i) % 3;
          }
        }
      }
    }
  }

  /** Six attacks from a reset counter show 1, 2, 3, 1, 2, 3. */
  lemma SixAttacksCycleTwice()
    ensures ComboRun(0, 6) == [1, 2, 3, 1, 2, 3]
  {
    ComboRunCycles(0, 6);
  }

  /** The stun a hit reaction causes: long for heavy hits, short otherwise. */
  function StunDuration(damage: real): (r: real)
    ensures r == HeavyStun <==> damage >= HeavyHitThreshold
    ensures r == LightStun <==> damage < HeavyHitThreshold
  {
    if damage >= HeavyHitThreshold then HeavyStun else LightStun
  }

  /** The movement speed of a frame: blocking, then attacking, then walking
      scales the base speed; the first that applies wins. */
  function MoveSpeed(base: real, blocking: bool, attacking: bool, walking: bool,
                     blockMultiplier: real, attackMultiplier: real): (r: real)
    ensures blocking ==> r == base * blockMultiplier
    ensures !blocking && attacking ==> r == base * attackMultiplier
    ensures !blocking && !attacking && walking ==> r == base * WalkMultiplier
    ensures !blocking && !attacking && !walking ==> r == base
    ensures 0.0 <= base && 0.0 <= blockMultiplier <= 1.0 && 0.0 <= attackMultiplier <= 1.0
            ==> 0.0 <= r <= base
  {
    if blocking then ScaledDown(base, blockMultiplier); base * blockMultiplier
    else if attacking then ScaledDown(base, attackMultiplier); base * attackMultiplier
    else if walking then base * WalkMultiplier
    else base
  }

  /** A multiplier in [0, 1] never raises a non-negative speed. */
  lemma ScaledDown(x: real, m: real)
    ensures 0.0 <= x && 0.0 <= m <= 1.0 ==> 0.0 <= x * m <= x
  {
    if 0.0 <= x && 0.0 <= m <= 1.0 {
      assert x * (1.0 - m) >= 0.0;
    }
  }

  /** PlayHitReaction: nothing while parrying, blocking, dead or
      invulnerable; otherwise the attack flag drops and a stun coroutine
      starts, long or short by the damage. The attack coroutine is not
      stopped. */
  function HitReaction(s: ControllerState, damage: real, now: real): (r: ControllerState)
    ensures (s.defense.isParrying || s.defense.isBlocking || s.status.isDead ||
             s.dodge.isInvulnerable) ==> r == s
    ensures !(s.defense.isParrying || s.defense.isBlocking || s.status.isDead ||
              s.dodge.isInvulnerable) ==>
              && !r.attack.isAttacking
              && r.status.isStunned
              && r.status.stunWaits == s.status.stunWaits + [Wait(now, now + StunDuration(damage))]
    ensures r.attack == s.attack.(isAttacking := r.attack.isAttacking)
    ensures r.status == s.status.(isStunned := r.status.isStunned, stunWaits := r.status.stunWaits)
    ensures r.dodge == s.dodge && r.defense == s.defense && r.mods == s.mods
    ensures forall c :: ControllerInv(s, c) ==> ControllerInv(r, c)
  {
    if s.defense.isParrying || s.defense.isBlocking || s.status.isDead || s.dodge.isInvulnerable
    then s
    else s.(attack := s.attack.(isAttacking := false),
            status := s.status.(isStunned := true,
                                stunWaits := s.status.stunWaits + [Wait(now, now + StunDuration(damage))]))
  }

  /** OnDeath: the first call marks the controller dead and disables its
      movement; any later call changes nothing. */
  function Died(s: ControllerState): (r: ControllerState)
    ensures r.status.isDead
    ensures s.status.isDead ==> r == s
    ensures !s.status.isDead ==> !r.status.movementEnabled
    ensures r.status.isStunned == s.status.isStunned && r.status.stunWaits == s.status.stunWaits
    ensures r.dodge == s.dodge && r.attack == s.attack && r.defense == s.defense && r.mods == s.mods
    ensures forall c :: ControllerInv(s, c) ==> ControllerInv(r, c)
  {
    if s.status.isDead then s else s.(status := s.status.(isDead := true, movementEnabled := false))
  }

  /** One pass of the rolling loop of the dodge coroutine at time `now`
      for a roll that started at `start`: while the roll lasts, the
      i-frames drop once their window has passed; once it is over both
      flags drop and the cooldown wait starts. */
  function Roll(d: DodgeState, start: real, now: real, c: ControllerConfig): (r: DodgeState)
    ensures r.canDodge == d.canDodge
    ensures now < start + c.dodgeDuration ==>
              && r.isDodging == d.isDodging && r.phase == d.phase
              && (r.isInvulnerable <==> d.isInvulnerable && now <= start + c.invulnerabilityDuration)
    ensures now >= start + c.dodgeDuration ==>
              !r.isDodging && !r.isInvulnerable && r.phase == Cooling(Wait(now, now + c.dodgeCooldown))
  {
    if now < start + c.dodgeDuration then
      if now > start + c.invulnerabilityDuration then d.(isInvulnerable := false) else d
    else d.(isInvulnerable := false, isDodging := false,
            phase := Cooling(Wait(now, now + c.dodgeCooldown)))
  }

  /** The dodge coroutine resumed in the frame at `now`. The rolling loop
      runs in every frame after the one that started it; the cooldown wait
      ends the dodge's lock-out when it is due. */
  function DodgeStep(d: DodgeState, now: real, c: ControllerConfig): (r: DodgeState)
    ensures DodgeInv(d) ==> DodgeInv(r)
    ensures r.isInvulnerable ==> d.isInvulnerable
    ensures (d.phase.Rolling? && d.phase.start < now &&
             now > d.phase.start + c.invulnerabilityDuration) ==> !r.isInvulnerable
    ensures d.phase.Rolling? && d.phase.start < now && now >= d.phase.start + c.dodgeDuration ==>
              !r.isDodging && !r.isInvulnerable && r.canDodge == d.canDodge &&
              r.phase == Cooling(Wait(now, now + c.dodgeCooldown))
    ensures d.phase.Rolling? && (now <= d.phase.start || now < d.phase.start + c.dodgeDuration) ==>
              r.phase == d.phase && r.isDodging == d.isDodging && r.canDodge == d.canDodge
    ensures (d.phase.Rolling? && now <= d.phase.start + c.invulnerabilityDuration &&
             now < d.phase.start + c.dodgeDuration) ==> r == d
    ensures d.phase.Cooling? && !Due(d.phase.wait, now) ==> r == d
    ensures d.phase.Cooling? && Due(d.phase.wait, now) ==> r.canDodge && r.phase == Ready
    ensures d.phase.Ready? ==> r == d
  {
    match d.phase
    case Ready => d
    case Rolling(start) => if now <= start then d else Roll(d, start, now, c)
    case Cooling(w) => if Due(w, now) then d.(canDodge := true, phase := Ready) else d
  }

  /** PerformDodge up to its first suspension: the dodge flags rise, the
      roll starts at `now`, and the rolling loop runs once in the same
      frame. */
  function DodgeStarted(now: real, c: ControllerConfig): (r: DodgeState)
    ensures DodgeInv(r) && !r.canDodge
    ensures c.dodgeDuration > 0.0 && c.invulnerabilityDuration >= 0.0 ==>
              r == DodgeState(true, true, false, Rolling(now))
    ensures c.dodgeDuration <= 0.0 ==>
              r == DodgeState(false, false, false, Cooling(Wait(now, now + c.dodgeCooldown)))
  {
    Roll(DodgeState(true, true, false, Rolling(now)), now, now, c)
  }

  /** A pending attack coroutine after resuming in the frame at `now`
      with frame time `dt`, if it keeps running. */
  function Advanced(x: AttackRun, now: real, dt: real): AttackRun
  {
    if x.startedAt < now then x.(timer := x.timer + dt) else x
  }

  /** The pending attack coroutines resumed in order in the frame at `now`
      with frame time `dt`, sharing the attack flag `on`. Each one started
      in an earlier frame checks its loop condition (the flag is on and its
      timer is below 2.0), adds the frame time and stops once its timer
      exceeds `cooldown`; a coroutine that stops clears the flag. Returns
      the new flag and the coroutines still pending. */
  function ResumeAttacks(on: bool, runs: seq<AttackRun>, now: real, dt: real,
                         cooldown: real): (bool, seq<AttackRun>)
    decreases |runs|
  {
    if runs == [] then (on, [])
    else
      var x := runs[0];
      if x.startedAt >= now then
        var rest := ResumeAttacks(on, runs[1..], now, dt, cooldown);
        (rest.0, [x] + rest.1)
      else if on && x.timer < SafetyTimerCeiling && x.timer + dt <= cooldown then
        var rest := ResumeAttacks(on, runs[1..], now, dt, cooldown);
        (rest.0, [x.(timer := x.timer + dt)] + rest.1)
      else
        ResumeAttacks(false, runs[1..], now, dt, cooldown)
  }

  /** What resuming the attack coroutines does: at most the pending
      coroutines stay; if the flag was already off before this frame, only
      the ones started in it survive; the flag stays on exactly when it was on and every
      coroutine resumed is below the safety ceiling with its advanced timer
      within the cooldown, and then every coroutine is kept with its timer
      advanced; and timers within the cooldown stay within it. */
  lemma {:induction false} ResumeAttacksSpec(on: bool, runs: seq<AttackRun>, now: real, dt: real,
                                             cooldown: real)
    ensures var r := ResumeAttacks(on, runs, now, dt, cooldown);
            && |r.1| <= |runs|
            && (!on ==> forall x :: x in r.1 ==> x in runs && x.startedAt >= now)
            && (r.0 ==> |r.1| == |runs| &&
                        forall i :: 0 <= i < |runs| ==> r.1[i] == Advanced(runs[i], now, dt))
            && (r.0 <==> on && forall i :: 0 <= i < |runs| && runs[i].startedAt < now ==>
                                 runs[i].timer < SafetyTimerCeiling && runs[i].timer + dt <= cooldown)
            && ((forall i :: 0 <= i < |runs| ==> runs[i].timer <= cooldown) ==>
                  forall i :: 0 <= i < |r.1| ==> r.1[i].timer <= cooldown)
    decreases |runs|
  {
    if runs != [] {
      var x := runs[0];
      assert forall i :: 0 <= i < |runs[1..]| ==> runs[1..][i] == runs[i + 1];
      if x.startedAt >= now || (on && x.timer < SafetyTimerCeiling && x.timer + dt <= cooldown) {
        ResumeAttacksSpec(on, runs[1..], now, dt, cooldown);
      } else {
        ResumeAttacksSpec(false, runs[1..], now, dt, cooldown);
      }
    }
  }

  /** An attack coroutine that gets past its loop tests in the frame at
      `now`: one started in this frame is not resumed, an older one is below
      the 2.0 ceiling and its advanced timer stays within the cooldown. */
  predicate Passes(x: AttackRun, now: real, dt: real, cooldown: real)
  {
    x.startedAt < now ==> x.timer < SafetyTimerCeiling && x.timer + dt <= cooldown
  }

  /** The coroutines of `runs` started in the frame at `now`, in order. */
  function StartedIn(runs: seq<AttackRun>, now: real): (r: seq<AttackRun>)
    ensures |r| <= |runs|
    ensures forall x :: x in r <==> x in runs && x.startedAt >= now
    decreases |runs|
  {
    if runs == [] then []
    else (if runs[0].startedAt >= now then [runs[0]] else []) + StartedIn(runs[1..], now)
  }

  /** With the attack flag already off, the safety loops of older
      coroutines all end, and exactly the coroutines started in this frame
      remain, in order. */
  lemma {:induction false} ResumeWhenOff(runs: seq<AttackRun>, now: real, dt: real, cooldown: real)
    ensures ResumeAttacks(false, runs, now, dt, cooldown) == (false, StartedIn(runs, now))
    decreases |runs|
  {
    if runs != [] {
      ResumeWhenOff(runs[1..], now, dt, cooldown);
      if runs[0].startedAt < now {
        assert StartedIn(runs, now) == [] + StartedIn(runs[1..], now);
        assert [] + StartedIn(runs[1..], now) == StartedIn(runs[1..], now);
      }
    }
  }

  /** When the flag falls during the frame, because the coroutine at `k`
      is the first to fail its loop tests, every coroutine resumed before it
      stays pending with its timer advanced, the failing one ends, and of the
      coroutines after it exactly the ones started in this frame remain. */
  lemma {:induction false} ResumeWhenFlagFalls(runs: seq<AttackRun>, now: real, dt: real,
                                               cooldown: real, k: nat)
    requires k < |runs|
    requires forall j :: 0 <= j < k ==> Passes(runs[j], now, dt, cooldown)
    requires !Passes(runs[k], now, dt, cooldown)
    ensures var r := ResumeAttacks(true, runs, now, dt, cooldown);
            && !r.0
            && |r.1| >= k
            && (forall j :: 0 <= j < k ==> r.1[j] == Advanced(runs[j], now, dt))
            && r.1[k..] == StartedIn(runs[k + 1..], now)
    decreases k
  {
    if k == 0 {
      ResumeWhenOff(runs[1..], now, dt, cooldown);
    } else {
      var tail := runs[1..];
      assert forall j :: 0 <= j < k - 1 ==> tail[j] == runs[j + 1];
      assert tail[k - 1] == runs[k];
      ResumeWhenFlagFalls(tail, now, dt, cooldown, k - 1);
      assert tail[k..] == runs[k + 1..];
    }
  }

  /** The attack coroutines resumed in the frame at `now`: the attack
      stays on exactly when it was on and every coroutine resumed stays
      below the 2.0 ceiling with its timer, advanced by `dt`, within the
      cooldown; it then keeps every coroutine with its timer advanced. An
      attack that was off keeps only the coroutines started this frame. */
  function AttackStep(a: AttackState, now: real, dt: real, c: ControllerConfig): (r: AttackState)
    ensures r == a.(isAttacking := r.isAttacking, runs := r.runs)
    ensures r.isAttacking <==>
              a.isAttacking &&
              forall i :: 0 <= i < |a.runs| && a.runs[i].startedAt < now ==>
                a.runs[i].timer < SafetyTimerCeiling && a.runs[i].timer + dt <= c.attackCooldown
    ensures r.isAttacking ==>
              |r.runs| == |a.runs| && forall i :: 0 <= i < |a.runs| ==> r.runs[i] == Advanced(a.runs[i], now, dt)
    ensures !a.isAttacking ==> forall x :: x in r.runs ==> x in a.runs && x.startedAt >= now
    ensures AttackInv(a, c) ==> AttackInv(r, c)
  {
    ResumeAttacksSpec(a.isAttacking, a.runs, now, dt, c.attackCooldown);
    var res := ResumeAttacks(a.isAttacking, a.runs, now, dt, c.attackCooldown);
    a.(isAttacking := res.0, runs := res.1)
  }

  /** ExecuteAttack up to its first suspension: the attack is on, stamped
      at `now`, the combo counter advances, and the safety loop runs once
      in the same frame, ending the attack at once if the frame time
      already exceeds the cooldown. */
  function AttackStarted(a: AttackState, now: real, dt: real, c: ControllerConfig): (r: AttackState)
    ensures r.lastAttackTime == now
    ensures r.comboCount == NextCombo(a.comboCount)
    ensures r.isAttacking <==> dt <= c.attackCooldown
    ensures r.isAttacking ==> r.runs == a.runs + [AttackRun(now, dt)]
    ensures !r.isAttacking ==> r.runs == a.runs
    ensures r.isCombatMode == a.isCombatMode && r.pendingDamage == a.pendingDamage
    ensures AttackInv(a, c) ==> AttackInv(r, c)
  {
    var a1 := a.(isAttacking := true, lastAttackTime := now, comboCount := NextCombo(a.comboCount));
    if dt > c.attackCooldown then a1.(isAttacking := false)
    else a1.(runs := a.runs + [AttackRun(now, dt)])
  }

  /** The parry-window coroutines due at `now` resume and lower the parry
      flag. */
  function ParryExpired(d: DefenseState, now: real): (r: DefenseState)
    ensures AnyDue(d.parryWaits, now) ==> !r.isParrying
    ensures !AnyDue(d.parryWaits, now) ==> r.isParrying == d.isParrying
    ensures forall w :: w in r.parryWaits <==> w in d.parryWaits && !Due(w, now)
    ensures r.isBlocking == d.isBlocking
    ensures (d.isParrying ==> d.parryWaits != []) ==> (r.isParrying ==> r.parryWaits != [])
  {
    DefenseState(d.isBlocking,
                 if AnyDue(d.parryWaits, now) then false else d.isParrying,
                 StillPending(d.parryWaits, now))
  }

  /** The stun coroutines due at `now` resume and lower the stun flag. */
  function StunExpired(st: StatusState, now: real): (r: StatusState)
    ensures AnyDue(st.stunWaits, now) ==> !r.isStunned
    ensures !AnyDue(st.stunWaits, now) ==> r.isStunned == st.isStunned
    ensures forall w :: w in r.stunWaits <==> w in st.stunWaits && !Due(w, now)
    ensures r.isDead == st.isDead && r.movementEnabled == st.movementEnabled
    ensures (st.isStunned ==> st.stunWaits != []) ==> (r.isStunned ==> r.stunWaits != [])
  {
    StatusState(if AnyDue(st.stunWaits, now) then false else st.isStunned,
                StillPending(st.stunWaits, now), st.isDead, st.movementEnabled)
  }

  /** Every pending coroutine of the controller resumed in the frame at
      `now` with frame time `dt`. The dodge, attack, parry and stun
      coroutines touch disjoint fields, so the order in which the engine
      resumes them does not matter. */
  function Ticked(s: ControllerState, now: real, dt: real, c: ControllerConfig): (r: ControllerState)
    ensures ControllerInv(s, c) ==> ControllerInv(r, c)
    ensures r.mods == s.mods && r.status.isDead == s.status.isDead
    ensures r.defense.isBlocking == s.defense.isBlocking
    ensures r.attack.comboCount == s.attack.comboCount
    ensures r.attack.isAttacking ==> s.attack.isAttacking
    ensures r.dodge.isInvulnerable ==> s.dodge.isInvulnerable
  {
    ControllerState(DodgeStep(s.dodge, now, c), AttackStep(s.attack, now, dt, c),
                    ParryExpired(s.defense, now), StunExpired(s.status, now), s.mods)
  }

  /** A roll's i-frames last their whole window: resuming the coroutines
      in a frame no later than the window's end, and before the roll is
      over, keeps the dodge as it was, so a hit in that frame is voided. */
  lemma IFramesLastTheirWindow(s: ControllerState, now: real, dt: real, c: ControllerConfig,
                               amount: real, defense: real)
    requires s.dodge.phase.Rolling? && s.dodge.isInvulnerable
    requires now <= s.dodge.phase.start + c.invulnerabilityDuration
    requires now < s.dodge.phase.start + c.dodgeDuration
    ensures Ticked(s, now, dt, c).dodge == s.dodge
    ensures ResolveHit(Some(GuardOf(Ticked(s, now, dt, c))), amount, defense) == Dodged
  {
  }
}

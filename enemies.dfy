/** The enemies: the chasing and attacking EnemyAI with its stun, the
    EnemyHealth that grants experience on death, and the older DummyEnemy
    target. Distances come in as parameters; the navigation agent, the
    animator and the colour flash are not modelled. */
module Enemies {
  import opened StatsRules
  import opened Timing
  import opened Player

  /** What the AI does in one Update. */
  datatype Decision =
    | Idle        // stunned or without a target: nothing at all
    | OutOfSight  // the target is beyond the look radius
    | Chase       // in sight: head for the target
    | Face        // in attack range: turn to the target, attack still cooling down
    | Strike      // in attack range and off cooldown: attack

  /** The decision of EnemyAI.Update from the stun flag, the target, the
      distance to it and the time since the last attack. */
  function Decide(stunned: bool, hasTarget: bool, distance: real, lookRadius: real,
                  attackRadius: real, sinceLastAttack: real, cooldown: real): (r: Decision)
    ensures r == Idle <==> stunned || !hasTarget
    ensures r == OutOfSight <==> !stunned && hasTarget && distance > lookRadius
    ensures r == Chase <==> !stunned && hasTarget && distance <= lookRadius && distance > attackRadius
    ensures r == Face <==>
              !stunned && hasTarget && distance <= lookRadius && distance <= attackRadius &&
              sinceLastAttack <= cooldown
    ensures r == Strike <==>
              !stunned && hasTarget && distance <= lookRadius && distance <= attackRadius &&
              sinceLastAttack > cooldown
  {
    if stunned || !hasTarget then Idle
    else if distance > lookRadius then OutOfSight
    else if distance > attackRadius then Chase
    else if sinceLastAttack > cooldown then Strike
    else Face
  }

  /** The AI heads for the target exactly when the target is in sight. */
  predicate Chases(d: Decision)
  {
    d == Chase || d == Face || d == Strike
  }

  /** Two strikes decided at `t1` and then at `t2`, with the first one
      stamped as the last attack, are more than the cooldown apart; no
      strike happens out of sight. */
  lemma StrikesAreSpaced(stunned: bool, hasTarget: bool, distance: real, lookRadius: real,
                         attackRadius: real, t1: real, t2: real, cooldown: real)
    ensures Decide(stunned, hasTarget, distance, lookRadius, attackRadius, t2 - t1, cooldown) == Strike
            ==> t2 > t1 + cooldown
    ensures distance > lookRadius ==>
              !Chases(Decide(stunned, hasTarget, distance, lookRadius, attackRadius, t2 - t1, cooldown))
  {
  }

  class EnemyAI {
    const lookRadius: real
    const attackRadius: real
    const attackDamage: real
    const attackCooldown: real
    /** Whether Start found an object tagged as the player. */
    const hasTarget: bool
    /** The target's PlayerStats, if it has one. */
    const targetStats: PlayerStats?
    var lastAttackTime: real
    var isStunned: bool
    /** The pending stun coroutine while stunned. */
    var stunWait: Wait
    /** The component's enabled flag; the engine calls Update only while
        it is set. */
    var enabled: bool

    /** The field initialisers and Start. */
    constructor (lookRadius: real, attackRadius: real, attackDamage: real, attackCooldown: real,
                 hasTarget: bool, targetStats: PlayerStats?)
      ensures this.lookRadius == lookRadius && this.attackRadius == attackRadius
      ensures this.attackDamage == attackDamage && this.attackCooldown == attackCooldown
      ensures this.hasTarget == hasTarget && this.targetStats == targetStats
      ensures lastAttackTime == 0.0 && !isStunned && enabled
    {
      this.lookRadius := lookRadius;
      this.attackRadius := attackRadius;
      this.attackDamage := attackDamage;
      this.attackCooldown := attackCooldown;
      this.hasTarget := hasTarget;
      this.targetStats := targetStats;
      lastAttackTime := 0.0;
      isStunned := false;
      stunWait := Wait(0.0, 0.0);
      enabled := true;
    }

    /** The objects an attack may change: the target's PlayerStats and
        its controller. */
    function Reach(): set<object>
      reads this, targetStats
    {
      if targetStats == null then {}
      else if targetStats.controller == null then {targetStats}
      else {targetStats, targetStats.controller}
    }

    /** Update in the frame at `now`, with `distance` to the target. A
        strike stamps the attack time and sends exactly the attack damage
        through the player's damage pipeline; every other decision changes
        nothing. */
    method Update(now: real, distance: real) returns (d: Decision)
      modifies this`lastAttackTime, Reach()
      ensures d == Decide(isStunned, hasTarget, distance, lookRadius, attackRadius,
                          now - old(lastAttackTime), attackCooldown)
      ensures d == Strike ==> lastAttackTime == now
      ensures d == Strike && targetStats != null ==> targetStats.TookDamage(attackDamage, now)
      ensures d != Strike ==> lastAttackTime == old(lastAttackTime)
      ensures d != Strike ==> unchanged(old(Reach()))
    {
      d := Decide(isStunned, hasTarget, distance, lookRadius, attackRadius,
                  now - lastAttackTime, attackCooldown);
      if isStunned || !hasTarget {
        return;
      }
      if distance <= lookRadius {
        if distance <= attackRadius {
          if now - lastAttackTime > attackCooldown {
            Attack(now);
            lastAttackTime := now;
          }
        }
      }
    }

    /** Attack: the target's PlayerStats, if any, takes the attack damage. */
    method Attack(now: real)
      modifies Reach()
      ensures targetStats != null ==> targetStats.TookDamage(attackDamage, now)
    {
      if targetStats != null {
        targetStats.TakeDamage(attackDamage, now);
      }
    }

    /** Stun for `duration` at time `now`; a stun already running is not
        extended or restarted. */
    method Stun(duration: real, now: real)
      modifies this`isStunned, this`stunWait
      ensures old(isStunned) ==> isStunned && stunWait == old(stunWait)
      ensures !old(isStunned) ==> isStunned && stunWait == Wait(now, now + duration)
    {
      if isStunned {
        return;
      }
      StunRoutine(duration, now);
    }

    /** StunRoutine up to its wait. */
    method StunRoutine(duration: real, now: real)
      modifies this`isStunned, this`stunWait
      ensures isStunned && stunWait == Wait(now, now + duration)
    {
      isStunned := true;
      stunWait := Wait(now, now + duration);
    }

    /** The stun coroutine resumed in the frame at `now`: the stun ends
        when its wait is due. Coroutines keep running while the component
        is disabled. */
    method Tick(now: real)
      modifies this`isStunned
      ensures isStunned <==> old(isStunned) && !Due(stunWait, now)
    {
      if isStunned && Due(stunWait, now) {
        isStunned := false;
      }
    }

    /** The engine's call of Update in a frame: none while disabled. */
    method Frame(now: real, distance: real) returns (d: Option<Decision>)
      modifies this`lastAttackTime, Reach()
      ensures !enabled ==> d == None && lastAttackTime == old(lastAttackTime)
      ensures !enabled ==> unchanged(old(Reach()))
      ensures enabled ==> d == Some(Decide(isStunned, hasTarget, distance, lookRadius, attackRadius,
                                           now - old(lastAttackTime), attackCooldown))
      ensures enabled && d == Some(Strike) ==> lastAttackTime == now
      ensures enabled && d == Some(Strike) && targetStats != null ==> targetStats.TookDamage(attackDamage, now)
      ensures enabled && d != Some(Strike) ==> lastAttackTime == old(lastAttackTime)
      ensures enabled && d != Some(Strike) ==> unchanged(old(Reach()))
    {
      if !enabled {
        return None;
      }
      var decision := Update(now, distance);
      d := Some(decision);
    }
  }

  class EnemyHealth {
    const maxHealth: real
    /** Experience granted on death (a C# `int`). */
    const xpReward: Int32
    /** The EnemyAI on the same object, if any. */
    const ai: EnemyAI?
    /** The PlayerStats found in the scene at death, if any. */
    const player: PlayerStats?
    var currentHealth: real
    /** The enemy's collider, switched off at death. */
    var colliderEnabled: bool
    /** Whether the object's delayed destruction has been requested. */
    var destroyScheduled: bool

    /** Start: full health. */
    constructor (maxHealth: real, xpReward: Int32, ai: EnemyAI?, player: PlayerStats?)
      ensures this.maxHealth == maxHealth && this.xpReward == xpReward
      ensures this.ai == ai && this.player == player
      ensures currentHealth == maxHealth && colliderEnabled && !destroyScheduled
    {
      this.maxHealth := maxHealth;
      this.xpReward := xpReward;
      this.ai := ai;
      this.player := player;
      currentHealth := maxHealth;
      colliderEnabled := true;
      destroyScheduled := false;
    }

    /** The effect of Die: experience to the player, AI disabled, collider
        off, destruction requested. */
    twostate predicate Died()
      reads this, ai, player
    {
      && (player != null ==>
            && player.Snapshot() == old(player.Snapshot()).(progress := GainXPRule(old(player.Progression()),
                                                                                 xpReward as real))
            && player.controller == old(player.controller))
      && (ai != null ==> !ai.enabled && AIKept(ai))
      && !colliderEnabled && destroyScheduled
    }

    /** Apart from its enabled flag, the AI is as it was. */
    twostate predicate AIKept(ai: EnemyAI)
      reads ai
    {
      ai.lastAttackTime == old(ai.lastAttackTime) && ai.isStunned == old(ai.isStunned) &&
      ai.stunWait == old(ai.stunWait)
    }

    /** The effect of TakeDamage(amount): exactly `amount` less health,
        unmitigated and unclamped, and death exactly when the health is
        then at or below zero, however often that happens. */
    twostate predicate TookHit(amount: real)
      reads this, ai, player
    {
      && currentHealth == old(currentHealth) - amount
      && (currentHealth <= 0.0 ==> Died())
      && (currentHealth > 0.0 ==>
            && colliderEnabled == old(colliderEnabled) && destroyScheduled == old(destroyScheduled)
            && (player != null ==> unchanged(player))
            && (ai != null ==> unchanged(ai)))
    }

    /** TakeDamage: no dead guard, so every lethal hit dies again. */
    method TakeDamage(amount: real)
      modifies this`currentHealth, this`colliderEnabled, this`destroyScheduled
      modifies ai, player
      ensures TookHit(amount)
    {
      currentHealth := currentHealth - amount;
      if currentHealth <= 0.0 {
        Die();
      }
    }

    /** Die. */
    method Die()
      modifies this`colliderEnabled, this`destroyScheduled
      modifies ai, player
      ensures Died()
    {
      if player != null {
        player.GainXP(xpReward as real);
      }
      if ai != null {
        ai.enabled := false;
      }
      colliderEnabled := false;
      destroyScheduled := true;
    }
  }

  class DummyEnemy {
    const maxHealth: real
    var currentHealth: real
    /** Whether Destroy has been called; the engine removes the object at
        the end of the frame. */
    var removed: bool

    /** Start: full health. */
    constructor (maxHealth: real)
      ensures this.maxHealth == maxHealth && currentHealth == maxHealth && !removed
    {
      this.maxHealth := maxHealth;
      currentHealth := maxHealth;
      removed := false;
    }

    /** TakeDamage: exactly `amount` less health, and removal once the
        health is at or below zero. Nothing is granted. */
    method TakeDamage(amount: real)
      modifies this
      ensures currentHealth == old(currentHealth) - amount
      ensures removed <==> old(removed) || currentHealth <= 0.0
      ensures 0.0 <= amount ==> currentHealth <= old(currentHealth)
    {
      currentHealth := currentHealth - amount;
      if currentHealth <= 0.0 {
        Die();
      }
    }

    /** Die: the object is destroyed. */
    method Die()
      modifies this`removed
      ensures removed
    {
      removed := true;
    }
  }

  /** What a collider returned by the overlap query carries: its
      EnemyHealth and its DummyEnemy component, each possibly absent. */
  datatype Collider = Collider(health: EnemyHealth?, dummy: DummyEnemy?)
}

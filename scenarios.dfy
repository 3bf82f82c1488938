/** Concrete call sequences on fresh objects with small hand-picked
    parameters: each method builds the components, makes a short sequence
    of calls, and Dafny proves the state the model reaches. */
module Scenarios {
  import opened StatsRules
  import opened Timing
  import opened ControllerRules
  import opened FrameRules
  import opened Player
  import opened Enemies
  import opened Skills

  /** A blocked hit of 40 at defense 0 costs 20 health and the 10 stamina
      of the block penalty, and the block protects from the stun. */
  method BlockedHit()
  {
    var stats := new PlayerStats(100.0, 0.0, 100.0, 10.0, 1.0);
    var pc := new PlayerController(stats, DefaultConfig());
    pc.HandleDefenseInput(false, true, false, 0.5);
    assert pc.defense.isBlocking && !pc.defense.isParrying;
    stats.TakeDamage(40.0, 0.6);
    assert stats.currentHealth == 80.0;
    assert stats.currentStamina == 90.0 && stats.lastStaminaUseTime == 0.6;
    assert !pc.status.isStunned;
  }

  /** An open hit of 35 at defense 5 costs 30 health and is heavy enough
      for the long stun; a second hit that ends the health kills the
      player, and a dead player's frame does nothing. */
  method OpenHitsAndDeath()
  {
    var stats := new PlayerStats(40.0, 5.0, 100.0, 10.0, 1.0);
    var pc := new PlayerController(stats, DefaultConfig());
    stats.TakeDamage(35.0, 1.0);
    assert stats.currentHealth == 10.0;
    assert pc.status.isStunned && pc.status.stunWaits == [Wait(1.0, 2.0)];
    stats.TakeDamage(6.0, 1.5);
    assert stats.currentHealth == 9.0;
    stats.TakeDamage(20.0, 1.6);
    assert stats.currentHealth == -6.0 && pc.status.isDead && !pc.status.movementEnabled;
    var input := Input(false, false, false, false, false, true, true, true, true);
    var speed := pc.Update(input, 1.7, 0.02, 10.0, 5.0);
    assert speed == None && stats.currentStamina == 100.0;
  }

  /** The first level-up gives one skill point, which buys the first
      damage boost. */
  method LevelUpBuysSkill()
  {
    var stats := new PlayerStats(100.0, 0.0, 100.0, 10.0, 1.0);
    var pc := new PlayerController(stats, DefaultConfig());
    var manager := new SkillManager(pc, stats);
    stats.GainXP(1000.0);
    assert stats.skillPoints == 1 && stats.maxXP == 1200.0 && stats.currentXP == 0.0;
    manager.UnlockSkill("combat_1");
    assert stats.skillPoints == 0 && pc.mods.damageMultiplier == 1.1;
  }

  /** The dummy loses the exact damage and is removed once at or below
      zero; an enemy hit twice past zero grants its experience twice. */
  method EnemiesTakeHits()
  {
    var stats := new PlayerStats(100.0, 0.0, 100.0, 10.0, 1.0);
    var dummy := new DummyEnemy(25.0);
    dummy.TakeDamage(10.0);
    assert dummy.currentHealth == 15.0 && !dummy.removed;
    dummy.TakeDamage(15.0);
    assert dummy.currentHealth == 0.0 && dummy.removed;
    var enemy := new EnemyHealth(20.0, 600, null, stats);
    enemy.TakeDamage(25.0);
    assert enemy.currentHealth == -5.0 && stats.currentXP == 600.0;
    enemy.TakeDamage(5.0);
    assert stats.currentXP == 200.0 && stats.skillPoints == 1 && stats.maxXP == 1200.0;
  }
}

/** The skill tree: a table of skills bought with the skill points of
    PlayerStats, each of which changes one modifier of PlayerController.
    The rules work on the table as values; SkillManager keeps the table as
    a list of Skill objects and is proved against them. */
module Skills {
  import opened ControllerRules
  import opened Player

  /** A row of the skill table as a value. */
  datatype SkillInfo = SkillInfo(id: string, displayName: string, description: string,
                                 isUnlocked: bool, cost: int)

  /** The skill points and the controller's modifiers, with the table. */
  datatype SkillBook = SkillBook(table: seq<SkillInfo>, points: int, mods: Modifiers)

  /** The table InitializeSkills builds: two combat skills and two agility
      skills, all locked. */
  function InitialSkills(): seq<SkillInfo>
  {
    [ SkillInfo("combat_1", "Damage Boost I", "+10% Damage", false, 1),
      SkillInfo("heavy_strike", "Heavy Attack", "Unlock RMB Action", false, 2),
      SkillInfo("stamina_1", "Endurance I", "Stamina Costs -10%", false, 1),
      SkillInfo("double_jump", "Air Step", "Jump in mid-air", false, 2) ]
  }

  /** The lookup of `skills.Find`: the position of the first row with the
      given id, or -1 when there is none. */
  function FindSkill(table: seq<SkillInfo>, id: string): (k: int)
    ensures -1 <= k < |table|
    ensures k == -1 <==> forall j :: 0 <= j < |table| ==> table[j].id != id
    ensures 0 <= k ==> table[k].id == id && forall j :: 0 <= j < k ==> table[j].id != id
  {
    if table == [] then -1
    else if table[0].id == id then 0
    else
      var k := FindSkill(table[1..], id);
      assert forall j :: 0 < j < |table| ==> table[j] == table[1..][j - 1];
      if k == -1 then -1 else k + 1
  }

  /** ApplySkillEffect on the controller's modifiers: each known skill
      changes exactly one modifier, any other id changes nothing. */
  function SkillEffect(id: string, m: Modifiers): (r: Modifiers)
    ensures r.damageMultiplier == m.damageMultiplier + (if id == "combat_1" then 0.1 else 0.0)
    ensures r.staminaCostMultiplier == m.staminaCostMultiplier - (if id == "stamina_1" then 0.1 else 0.0)
    ensures r.unlockedHeavyAttack <==> m.unlockedHeavyAttack || id == "heavy_strike"
    ensures r.unlockedDoubleJump <==> m.unlockedDoubleJump || id == "double_jump"
  {
    if id == "combat_1" then m.(damageMultiplier := m.damageMultiplier + 0.1)
    else if id == "heavy_strike" then m.(unlockedHeavyAttack := true)
    else if id == "stamina_1" then m.(staminaCostMultiplier := m.staminaCostMultiplier - 0.1)
    else if id == "double_jump" then m.(unlockedDoubleJump := true)
    else m
  }

  /** UnlockSkill on the table: an unknown id, a skill already unlocked or
      too few points leave everything as it was; otherwise the cost is
      paid, the row is unlocked and the skill's effect is applied once. */
  function UnlockRule(b: SkillBook, id: string): (r: SkillBook)
    ensures |r.table| == |b.table|
    ensures var k := FindSkill(b.table, id);
            if 0 <= k && !b.table[k].isUnlocked && b.points >= b.table[k].cost
            then && r.points == b.points - b.table[k].cost
                 && r.table == b.table[k := b.table[k].(isUnlocked := true)]
                 && r.mods == SkillEffect(id, b.mods)
            else r == b
  {
    var k := FindSkill(b.table, id);
    if k == -1 then b
    else
      var skill := b.table[k];
      if skill.isUnlocked then b
      else if b.points >= skill.cost then
        SkillBook(b.table[k := skill.(isUnlocked := true)], b.points - skill.cost,
                  SkillEffect(skill.id, b.mods))
      else b
  }

  /** Unlocking never locks a skill again and never changes a row other
      than by unlocking it; the points only change to pay a cost they
      covered, so they never become negative by an unlock. */
  lemma UnlockIsMonotone(b: SkillBook, id: string)
    ensures var r := UnlockRule(b, id);
            && (forall i :: 0 <= i < |b.table| ==> b.table[i].isUnlocked ==> r.table[i].isUnlocked)
            && (forall i :: 0 <= i < |b.table| ==>
                  r.table[i] == b.table[i].(isUnlocked := r.table[i].isUnlocked))
            && (r.points != b.points ==> 0 <= r.points)
            && (0 <= b.points ==> 0 <= r.points)
  {
  }

  /** The lookup sees only the ids, so two tables with the same ids in
      the same order find the same row. */
  lemma {:induction false} FindSkillSeesIds(t1: seq<SkillInfo>, t2: seq<SkillInfo>, id: string)
    requires |t1| == |t2| && forall j :: 0 <= j < |t1| ==> t1[j].id == t2[j].id
    ensures FindSkill(t1, id) == FindSkill(t2, id)
  {
    if t1 != [] && t1[0].id != id {
      FindSkillSeesIds(t1[1..], t2[1..], id);
    }
  }

  /** An unlock keeps every row's id and cost, so every lookup and every
      cost stays as it was. */
  lemma UnlockKeepsLookup(b: SkillBook, id: string, other: string)
    ensures var r := UnlockRule(b, id);
            FindSkill(r.table, other) == FindSkill(b.table, other) &&
            CostOf(r.table, other) == CostOf(b.table, other)
  {
    var r := UnlockRule(b, id);
    assert forall j :: 0 <= j < |b.table| ==> r.table[j].id == b.table[j].id && r.table[j].cost == b.table[j].cost;
    FindSkillSeesIds(r.table, b.table, other);
  }

  /** A skill is never paid for twice: unlocking the same id again
      changes nothing. */
  lemma UnlockTwiceChargesOnce(b: SkillBook, id: string)
    ensures UnlockRule(UnlockRule(b, id), id) == UnlockRule(b, id)
  {
    UnlockKeepsLookup(b, id, id);
  }

  /** The cost of the first row with the given id, or 0 when there is
      none. */
  function CostOf(table: seq<SkillInfo>, id: string): int
  {
    var k := FindSkill(table, id);
    if k == -1 then 0 else table[k].cost
  }

  /** With points enough for both, two different skills can be unlocked
      in either order with the same outcome. */
  lemma UnlockOrderIrrelevant(b: SkillBook, id1: string, id2: string)
    requires id1 != id2
    requires forall i :: 0 <= i < |b.table| ==> 0 <= b.table[i].cost
    requires b.points >= CostOf(b.table, id1) + CostOf(b.table, id2)
    ensures UnlockRule(UnlockRule(b, id1), id2) == UnlockRule(UnlockRule(b, id2), id1)
  {
    UnlockKeepsLookup(b, id1, id2);
    UnlockKeepsLookup(b, id2, id1);
    var k1 := FindSkill(b.table, id1);
    var k2 := FindSkill(b.table, id2);
    if 0 <= k1 && 0 <= k2 && !b.table[k1].isUnlocked && !b.table[k2].isUnlocked {
      var t := b.table;
      var u1 := t[k1].(isUnlocked := true);
      var u2 := t[k2].(isUnlocked := true);
      UnlockBoth(b, id1, id2);
      UnlockBoth(b, id2, id1);
      assert t[k1 := u1][k2 := u2] == t[k2 := u2][k1 := u1];
      EffectsCommute(id1, id2, b.mods);
    } else if 0 <= k1 && 0 <= k2 && b.table[k1].isUnlocked {
      assert UnlockRule(b, id1) == b && UnlockRule(b, id2).table[k1] == b.table[k1];
    } else if 0 <= k1 && 0 <= k2 {
      assert UnlockRule(b, id2) == b && UnlockRule(b, id1).table[k2] == b.table[k2];
    }
  }

  /** Unlocking two different locked skills one after the other, with
      points enough for both: both rows unlocked, both costs paid, both
      effects applied in that order. */
  lemma UnlockBoth(b: SkillBook, id1: string, id2: string)
    requires id1 != id2
    requires 0 <= FindSkill(b.table, id1) && !b.table[FindSkill(b.table, id1)].isUnlocked
    requires 0 <= FindSkill(b.table, id2) && !b.table[FindSkill(b.table, id2)].isUnlocked
    requires 0 <= b.table[FindSkill(b.table, id1)].cost && 0 <= b.table[FindSkill(b.table, id2)].cost
    requires b.points >= b.table[FindSkill(b.table, id1)].cost + b.table[FindSkill(b.table, id2)].cost
    ensures var k1 := FindSkill(b.table, id1);
            var k2 := FindSkill(b.table, id2);
            UnlockRule(UnlockRule(b, id1), id2) ==
              SkillBook(b.table[k1 := b.table[k1].(isUnlocked := true)][k2 := b.table[k2].(isUnlocked := true)],
                        b.points - b.table[k1].cost - b.table[k2].cost,
                        SkillEffect(id2, SkillEffect(id1, b.mods)))
  {
    var k1 := FindSkill(b.table, id1);
    var k2 := FindSkill(b.table, id2);
    var b1 := UnlockRule(b, id1);
    UnlockKeepsLookup(b, id1, id2);
    assert k1 != k2;
    assert b1.table[k2] == b.table[k2];
  }

  /** The effects of two different skills commute. */
  lemma EffectsCommute(id1: string, id2: string, m: Modifiers)
    requires id1 != id2
    ensures SkillEffect(id2, SkillEffect(id1, m)) == SkillEffect(id1, SkillEffect(id2, m))
  {
  }

  /** The initial table: four locked skills with distinct ids, and the
      costs 1, 2, 1 and 2. */
  lemma InitialTableFacts()
    ensures forall i :: 0 <= i < |InitialSkills()| ==> !InitialSkills()[i].isUnlocked
    ensures forall i, j :: 0 <= i < j < |InitialSkills()| ==> InitialSkills()[i].id != InitialSkills()[j].id
    ensures CostOf(InitialSkills(), "combat_1") == 1 && CostOf(InitialSkills(), "heavy_strike") == 2
    ensures CostOf(InitialSkills(), "stamina_1") == 1 && CostOf(InitialSkills(), "double_jump") == 2
  {
  }

  /** A skill record; only its unlocked flag ever changes. */
  class Skill {
    const id: string
    const displayName: string
    const description: string
    var isUnlocked: bool
    const cost: int

    /** The object initialiser of InitializeSkills. */
    constructor (id: string, displayName: string, description: string, isUnlocked: bool, cost: int)
      ensures Info() == SkillInfo(id, displayName, description, isUnlocked, cost)
    {
      this.id := id;
      this.displayName := displayName;
      this.description := description;
      this.isUnlocked := isUnlocked;
      this.cost := cost;
    }

    /** The record as a value. */
    function Info(): SkillInfo
      reads this
    {
      SkillInfo(id, displayName, description, isUnlocked, cost)
    }
  }

  /** The rows of a list of skill records. */
  function Infos(skills: seq<Skill>): (r: seq<SkillInfo>)
    reads skills
    ensures |r| == |skills| && forall i :: 0 <= i < |skills| ==> r[i] == skills[i].Info()
  {
    seq(|skills|, i requires 0 <= i < |skills| reads skills => skills[i].Info())
  }

  class SkillManager {
    const playerController: PlayerController
    const playerStats: PlayerStats
    var skills: seq<Skill>

    /** The table, the player's skill points and the controller's
        modifiers as one value. */
    function Book(): SkillBook
      reads this, skills, playerStats, playerController
    {
      SkillBook(Infos(skills), playerStats.skillPoints, playerController.mods)
    }

    /** The list holds each record once, so a record's flag is one row. */
    ghost predicate Valid()
      reads this
    {
      forall i, j :: 0 <= i < j < |skills| ==> skills[i] != skills[j]
    }

    /** Start with the two components given: the table is filled. */
    constructor (playerController: PlayerController, playerStats: PlayerStats)
      ensures this.playerController == playerController && this.playerStats == playerStats
      ensures Infos(skills) == InitialSkills() && Valid()
      ensures forall s :: s in skills ==> fresh(s)
    {
      this.playerController := playerController;
      this.playerStats := playerStats;
      skills := [];
      new;
      InitializeSkills();
    }

    /** InitializeSkills: four new locked records appended to the list. */
    method InitializeSkills()
      requires Valid()
      modifies this`skills
      ensures |skills| == |old(skills)| + 4 && skills[..|old(skills)|] == old(skills)
      ensures Infos(skills[|old(skills)|..]) == InitialSkills()
      ensures forall s :: s in skills[|old(skills)|..] ==> fresh(s)
      ensures Valid()
    {
      var combat := new Skill("combat_1", "Damage Boost I", "+10% Damage", false, 1);
      Add(combat);
      var heavy := new Skill("heavy_strike", "Heavy Attack", "Unlock RMB Action", false, 2);
      Add(heavy);
      var stamina := new Skill("stamina_1", "Endurance I", "Stamina Costs -10%", false, 1);
      Add(stamina);
      var jump := new Skill("double_jump", "Air Step", "Jump in mid-air", false, 2);
      Add(jump);
      assert skills[|old(skills)|..] == [combat, heavy, stamina, jump];
      assert Infos([combat, heavy, stamina, jump]) == [combat.Info(), heavy.Info(), stamina.Info(), jump.Info()];
    }

    /** `skills.Add` of a record not yet in the list. */
    method Add(s: Skill)
      requires Valid() && s !in skills
      modifies this`skills
      ensures skills == old(skills) + [s] && Valid()
    {
      skills := skills + [s];
    }

    /** UnlockSkill: the table, the points and the modifiers move as
        UnlockRule says, and nothing else changes. */
    method UnlockSkill(skillId: string)
      requires Valid()
      modifies (set s | s in skills), playerStats`skillPoints, playerController`mods
      ensures Book() == UnlockRule(old(Book()), skillId)
    {
      ghost var b0 := Book();
      var k := FindSkill(Infos(skills), skillId);
      if k == -1 {
        return;
      }
      var skill := skills[k];
      assert skill.Info() == b0.table[k];
      if skill.isUnlocked {
        return;
      }
      if playerStats.skillPoints >= skill.cost {
        playerStats.skillPoints := playerStats.skillPoints - skill.cost;
        skill.isUnlocked := true;
        assert forall j :: 0 <= j < |skills| && j != k ==> skills[j] != skill;
        ghost var t := b0.table[k := b0.table[k].(isUnlocked := true)];
        assert Infos(skills) == t;
        label Unlocked:
        ApplySkillEffect(skill.id);
        assert unchanged@Unlocked(skills);
        assert Infos(skills) == t;
      }
    }

    /** ApplySkillEffect on the controller. */
    method ApplySkillEffect(id: string)
      modifies playerController`mods
      ensures playerController.mods == SkillEffect(id, old(playerController.mods))
    {
      if id == "combat_1" {
        playerController.mods := playerController.mods.(damageMultiplier := playerController.mods.damageMultiplier + 0.1);
      } else if id == "heavy_strike" {
        playerController.mods := playerController.mods.(unlockedHeavyAttack := true);
      } else if id == "stamina_1" {
        playerController.mods := playerController.mods.(staminaCostMultiplier := playerController.mods.staminaCostMultiplier - 0.1);
      } else if id == "double_jump" {
        playerController.mods := playerController.mods.(unlockedDoubleJump := true);
      }
    }
  }
}

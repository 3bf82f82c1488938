/** Pure rules behind the player's resource and damage ledger: stamina
    clamping and regeneration, the ordered mitigation of an incoming hit,
    and the single-step level-up of experience. The class PlayerStats in
    module Player is proved against these functions. */
module StatsRules {

  datatype Option<T> = None | Some(value: T)

  /** Fixed stamina penalty for a blocked hit. */
  const BlockStaminaPenalty: real := 10.0

  /** A blocked hit keeps this fraction of its damage. */
  const BlockFactor: real := 0.5

  /** Damage that survives mitigation is never below this floor. */
  const MinimumDamage: real := 1.0

  /** Each level-up multiplies the experience cap by this factor. */
  const XPCapGrowth: real := 1.2

  /** Unity's Mathf.Clamp: a value below `lo` becomes `lo`, otherwise a
      value above `hi` becomes `hi`. */
  function Clamp(x: real, lo: real, hi: real): (r: real)
    ensures lo <= hi ==> lo <= r <= hi
    ensures lo <= x <= hi ==> r == x
    ensures lo <= hi && x < lo ==> r == lo
    ensures lo <= hi && x > hi ==> r == hi
  {
    if x < lo then lo else if x > hi then hi else x
  }

  /** Stamina left after spending `amount` from `current` in a pool of
      capacity `max`. */
  function Spend(current: real, max: real, amount: real): (r: real)
    ensures 0.0 <= max ==> 0.0 <= r <= max
    ensures 0.0 <= amount <= current <= max ==> r == current - amount
    ensures 0.0 <= max && current < amount ==> r == 0.0
  {
    Clamp(current - amount, 0.0, max)
  }

  /** Stamina after one regeneration frame: it only grows once strictly
      more than `delay` has passed since the last use, and only while the
      pool is not full. */
  function Regenerated(current: real, max: real, rate: real, dt: real,
                       sinceUse: real, delay: real): (r: real)
    ensures !(sinceUse > delay && current < max) ==> r == current
    ensures sinceUse > delay && current < max && 0.0 <= max ==> 0.0 <= r <= max
    ensures sinceUse > delay && 0.0 <= current < max && 0.0 <= rate * dt ==> current <= r
    ensures sinceUse > delay && 0.0 <= current < max && 0.0 <= rate * dt ==>
              r == if current + rate * dt <= max then current + rate * dt else max
  {
    if sinceUse > delay && current < max then Clamp(current + rate * dt, 0.0, max)
    else current
  }

  /** The stamina pool: its level, its capacity and the time of the last
      spend. */
  datatype Pool = Pool(current: real, max: real, lastUse: real)

  /** The pool stays within its capacity. */
  predicate PoolValid(p: Pool)
  {
    0.0 <= p.current <= p.max
  }

  /** UseStamina on a pool at time `now`: the level drops by `amount`,
      clamped into the pool, and the spend is stamped. */
  function Used(p: Pool, amount: real, now: real): (r: Pool)
    ensures 0.0 <= p.max ==> PoolValid(r)
    ensures r.max == p.max && r.lastUse == now
    ensures 0.0 <= amount <= p.current <= p.max ==> r.current == p.current - amount
    ensures 0.0 <= p.max && p.current < amount ==> r.current == 0.0
  {
    Pool(Spend(p.current, p.max, amount), p.max, now)
  }

  /** Unity's Mathf.Max(amount - defense, 1): the flat defense reduction
      with a floor of one point. */
  function AfterDefense(amount: real, defense: real): (r: real)
    ensures r >= MinimumDamage && r >= amount - defense
    ensures r == MinimumDamage || r == amount - defense
  {
    if amount - defense > MinimumDamage then amount - defense else MinimumDamage
  }

  /** The defender's state that the damage rule consults. */
  datatype Guard = Guard(invulnerable: bool, parrying: bool, blocking: bool)

  /** What an incoming hit turns into. */
  datatype HitOutcome =
    | Dodged                               // voided by dodge i-frames
    | Parried                              // voided by an open parry window
    | Landed(damage: real, blocked: bool)  // health loss, and whether a block halved it

  /** The ordered damage rule: i-frames first, then parry, then block
      (half damage), then flat defense with a floor of one. `guard` is
      None when the defender has no combat controller; then no check
      applies. */
  function ResolveHit(guard: Option<Guard>, amount: real, defense: real): (r: HitOutcome)
    ensures r.Dodged? <==> guard.Some? && guard.value.invulnerable
    ensures r.Parried? <==> guard.Some? && !guard.value.invulnerable && guard.value.parrying
    ensures r.Landed? ==> r.blocked == (guard.Some? && guard.value.blocking)
    ensures r.Landed? ==>
      r.damage == AfterDefense(if r.blocked then amount * BlockFactor else amount, defense)
    ensures r.Landed? ==> r.damage >= MinimumDamage
  {
    match guard
    case None => Landed(AfterDefense(amount, defense), false)
    case Some(g) =>
      if g.invulnerable then Dodged
      else if g.parrying then Parried
      else if g.blocking then Landed(AfterDefense(amount * BlockFactor, defense), true)
      else Landed(AfterDefense(amount, defense), false)
  }

  /** Experience, its cap and the unspent skill points. */
  datatype Progress = Progress(xp: real, cap: real, skillPoints: int)

  /** GainXP: add the experience, then check the cap once; reaching it
      carries the remainder over, scales the cap by 1.2 and grants one
      skill point. There is no loop, so the remainder may still be at or
      above the new cap. */
  function GainXPRule(p: Progress, amount: real): (r: Progress)
    ensures r.skillPoints == p.skillPoints || r.skillPoints == p.skillPoints + 1
    ensures r.skillPoints == p.skillPoints + 1 <==> p.xp + amount >= p.cap
    ensures r.skillPoints == p.skillPoints + 1 ==>
              r.xp == p.xp + amount - p.cap && r.cap == p.cap * XPCapGrowth
    ensures r.skillPoints == p.skillPoints ==> r.xp == p.xp + amount && r.cap == p.cap
  {
    var xp := p.xp + amount;
    if xp >= p.cap then Progress(xp - p.cap, p.cap * XPCapGrowth, p.skillPoints + 1)
    else p.(xp := xp)
  }

  /** Everything PlayerStats holds: health, its cap, defense, the
      stamina pool, experience with skill points, and money. */
  datatype Ledger = Ledger(health: real, maxHealth: real, defense: real, stamina: Pool,
                           progress: Progress, money: int)

  /** One large gain levels up only once: 950 of 1000 plus 2500 leaves 2450
      experience against a cap of 1200, with a single skill point. */
  lemma SingleLevelUpPerGain()
    ensures GainXPRule(Progress(950.0, 1000.0, 0), 2500.0) == Progress(2450.0, 1200.0, 1)
    ensures GainXPRule(Progress(950.0, 1000.0, 0), 2500.0).xp >=
            GainXPRule(Progress(950.0, 1000.0, 0), 2500.0).cap
  {
  }

  /** The worked block example: 40 against a block with no defense loses
      exactly 20 health, and the block costs 10 stamina from a full pool. */
  lemma BlockedFortyAtZeroDefense()
    ensures ResolveHit(Some(Guard(false, false, true)), 40.0, 0.0) == Landed(20.0, true)
    ensures Spend(100.0, 100.0, BlockStaminaPenalty) == 90.0
  {
  }
}

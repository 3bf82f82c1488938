/** PlayerController.OnAttackHit, the animation event of a sword swing.
    It lives in its own module because it reaches the enemies, which
    reach the player. The colliders found by the overlap sphere in front
    of the player are a parameter, in the order the physics query returns
    them. */
module MeleeHit {
  import opened Player
  import opened Enemies

  /** The position of the first collider with an EnemyHealth, or the
      length of `hits` when there is none. */
  function FirstHealth(hits: seq<Collider>): (k: nat)
    ensures k <= |hits|
    ensures forall j :: 0 <= j < k ==> hits[j].health == null
    ensures k < |hits| ==> hits[k].health != null
  {
    if hits == [] then 0
    else if hits[0].health != null then 0
    else 1 + FirstHealth(hits[1..])
  }

  /** How many colliders of `hits` pass their hit to the dummy `d`: those
      without an EnemyHealth whose DummyEnemy is `d`. */
  function DummyHits(hits: seq<Collider>, d: DummyEnemy): nat
  {
    if hits == [] then 0
    else DummyHits(hits[..|hits| - 1], d) +
         (if hits[|hits| - 1].health == null && hits[|hits| - 1].dummy == d then 1 else 0)
  }

  /** The dummies among the colliders. */
  function Dummies(hits: seq<Collider>): set<DummyEnemy>
  {
    set i | 0 <= i < |hits| && hits[i].dummy != null :: hits[i].dummy
  }

  /** The objects a hit on the first EnemyHealth may change: the enemy,
      its AI and the player that gains the experience. */
  function FirstReach(hits: seq<Collider>): set<object>
  {
    var k := FirstHealth(hits);
    if k == |hits| then {}
    else
      var e := hits[k].health;
      {e} + (if e.ai == null then {} else {e.ai}) + (if e.player == null then {} else {e.player})
  }

  /** Whether a dummy at health `h` is destroyed by `n` hits of `p` in a
      row: some hit leaves it at or below zero. */
  predicate DestroyedWithin(h: real, p: real, n: nat)
  {
    n > 0 && (DestroyedWithin(h, p, n - 1) || h - (n as real) * p <= 0.0)
  }

  /** Health falls linearly, so only the first or the last of the hits
      can be the one that first drops it to zero or below. */
  lemma {:induction false} DestroyedWithinClosedForm(h: real, p: real, n: nat)
    ensures DestroyedWithin(h, p, n) <==> n > 0 && (h - p <= 0.0 || h - (n as real) * p <= 0.0)
  {
    if n > 1 {
      DestroyedWithinClosedForm(h, p, n - 1);
      var m := (n - 1) as real;
      assert (n as real) * p == m * p + p;
      if h - m * p <= 0.0 && h - p > 0.0 {
        assert (m - 1.0) * p == m * p - p;
        assert m >= 1.0;
        assert p > 0.0;
      }
    }
  }

  /** Counting the hits of one more collider. */
  lemma DummyHitsExtend(hits: seq<Collider>, i: nat, d: DummyEnemy)
    requires i < |hits|
    ensures DummyHits(hits[..i + 1], d) ==
            DummyHits(hits[..i], d) + if hits[i].health == null && hits[i].dummy == d then 1 else 0
  {
    assert hits[..i + 1][..i] == hits[..i];
  }

  /** A dummy that was at health `h0` with removal flag `r0` and has
      since taken `n` hits of `p` is at health `h` with removal flag `r`:
      `n * p` less health, and removed when it was removed before or some
      of the hits left it at or below zero. */
  predicate HitTimes(h: real, r: bool, h0: real, r0: bool, p: real, n: nat)
  {
    && h == h0 - (n as real) * p
    && (r <==> r0 || DestroyedWithin(h0, p, n))
  }

  /** One more hit on a dummy, that is DummyEnemy.TakeDamage(p), goes on
      counting. */
  lemma OneMoreHit(h: real, r: bool, h0: real, r0: bool, p: real, n: nat)
    requires HitTimes(h, r, h0, r0, p, n)
    ensures HitTimes(h - p, r || h - p <= 0.0, h0, r0, p, n + 1)
  {
    assert ((n + 1) as real) * p == (n as real) * p + p;
  }

  /** OnAttackHit: nothing unless an attack is running. Otherwise the
      colliders are visited in order; each DummyEnemy is damaged by the
      pending damage, and the first EnemyHealth takes the pending damage
      and ends the visit. */
  method OnAttackHit(pc: PlayerController, hits: seq<Collider>)
    modifies Dummies(hits), FirstReach(hits)
    ensures !pc.attack.isAttacking ==> unchanged(Dummies(hits)) && unchanged(FirstReach(hits))
    ensures pc.attack.isAttacking ==>
              var k := FirstHealth(hits);
              var p := pc.attack.pendingDamage;
              && (forall d :: d in Dummies(hits) ==>
                    HitTimes(d.currentHealth, d.removed, old(d.currentHealth), old(d.removed), p, DummyHits(hits[..k], d)))
              && (k < |hits| ==> hits[k].health.TookHit(p))
  {
    if !pc.attack.isAttacking {
      return;
    }
    var p := pc.attack.pendingDamage;
    var i := 0;
    ghost var k := FirstHealth(hits);
    while i < |hits|
      invariant 0 <= i <= k
      invariant pc.attack == old(pc.attack)
      invariant k < |hits| ==> unchanged(hits[k].health)
      invariant k < |hits| && hits[k].health.ai != null ==> unchanged(hits[k].health.ai)
      invariant k < |hits| && hits[k].health.player != null ==> unchanged(hits[k].health.player)
      invariant forall d :: d in Dummies(hits) ==>
                  HitTimes(d.currentHealth, d.removed, old(d.currentHealth), old(d.removed), p, DummyHits(hits[..i], d))
    {
      var hit := hits[i];
      if hit.health != null {
        assert i == FirstHealth(hits);
        label BeforeEnemy:
        hit.health.TakeDamage(p);
        assert forall d :: d in Dummies(hits) ==> unchanged@BeforeEnemy(d);
        return;
      }
      if hit.dummy != null {
        var dummy := hit.dummy;
        assert dummy in Dummies(hits);
        ghost var h := dummy.currentHealth;
        ghost var r := dummy.removed;
        ghost var n := DummyHits(hits[..i], dummy);
        assert HitTimes(h, r, old(dummy.currentHealth), old(dummy.removed), p, n);
        label BeforeDummy:
        dummy.TakeDamage(p);
        forall d | d in Dummies(hits)
          ensures HitTimes(d.currentHealth, d.removed, old(d.currentHealth), old(d.removed), p,
                           DummyHits(hits[..i + 1], d))
        {
          DummyHitsExtend(hits, i, d);
          if d == dummy {
            OneMoreHit(h, r, old(dummy.currentHealth), old(dummy.removed), p, n);
          } else {
            assert unchanged@BeforeDummy(d);
          }
        }
      } else {
        forall d | d in Dummies(hits)
          ensures HitTimes(d.currentHealth, d.removed, old(d.currentHealth), old(d.removed), p,
                           DummyHits(hits[..i + 1], d))
        {
          DummyHitsExtend(hits, i, d);
        }
      }
      i := i + 1;
    }
    assert hits[..i] == hits[..FirstHealth(hits)];
  }
}

/** Attack strategies: how much damage a character's attack deals.

    Each strategy turns the attacker's base damage and some dice into a damage
    value. `MultiAttack` holds a list of strategies fixed when it is made and
    hands each call to one of them, picked by a random index. */
module Attacks {
  import opened Dice
  import opened Results

  datatype Attack =
    | TwoHandedSword
    | FireBolt
    | Bow
    | MultiAttack(attacks: seq<Attack>)

  /** The dice one call of a strategy throws: two d12 for the sword, three d10
      for the fire bolt, one d100 for the bow, and for a multi-attack the index
      it picks together with the dice of the picked strategy. */
  datatype AttackDraw =
    | SwordDraw(first: int, second: int)
    | FireDraw(first: int, second: int, third: int)
    | BowDraw(roll: int)
    | PickDraw(index: int, sub: AttackDraw)

  /** `d` is a throw that strategy `a` can make. A multi-attack over an empty
      list throws nothing: it fails before any draw. */
  predicate Fits(a: Attack, d: AttackDraw)
    decreases a
  {
    match a
    case TwoHandedSword => d.SwordDraw? && Rolled(d.first, 12) && Rolled(d.second, 12)
    case FireBolt => d.FireDraw? && Rolled(d.first, 10) && Rolled(d.second, 10) && Rolled(d.third, 10)
    case Bow => d.BowDraw? && Rolled(d.roll, 100)
    case MultiAttack(attacks) =>
      |attacks| == 0 || (d.PickDraw? && 0 <= d.index < |attacks| && Fits(attacks[d.index], d.sub))
  }

  /** Whatever the strategy, some throw fits it, so requiring a fitting throw
      never rules out a strategy. */
  function SomeDraw(a: Attack): (d: AttackDraw)
    ensures Fits(a, d)
    decreases a
  {
    match a
    case TwoHandedSword => SwordDraw(1, 1)
    case FireBolt => FireDraw(1, 1, 1)
    case Bow => BowDraw(1)
    case MultiAttack(attacks) =>
      if |attacks| == 0 then BowDraw(1) else PickDraw(0, SomeDraw(attacks[0]))
  }

  /** No multi-attack anywhere inside `a` has an empty list. */
  predicate Armed(a: Attack)
    decreases a
  {
    match a
    case MultiAttack(attacks) =>
      |attacks| > 0 && forall i | 0 <= i < |attacks| :: Armed(attacks[i])
    case _ => true
  }

  /** A structural test for "this strategy never deals exactly 0 damage". */
  predicate NeverZero(a: Attack, baseDamage: int)
    decreases a
  {
    match a
    case TwoHandedSword => baseDamage + 2 > 0 || baseDamage + 24 < 0
    case FireBolt => true
    case Bow => baseDamage != 0
    case MultiAttack(attacks) => forall i | 0 <= i < |attacks| :: NeverZero(attacks[i], baseDamage)
  }

  /** Base damage plus two d12. */
  function SwordDamage(baseDamage: int, first: int, second: int): (damage: int)
    requires Rolled(first, 12) && Rolled(second, 12)
    ensures baseDamage + 2 <= damage <= baseDamage + 24
    ensures damage > baseDamage
  {
    baseDamage + first + second
  }

  /** Three d10; the base damage plays no part. */
  function FireBoltDamage(baseDamage: int, first: int, second: int, third: int): (damage: int)
    requires Rolled(first, 10) && Rolled(second, 10) && Rolled(third, 10)
    ensures 3 <= damage <= 30
  {
    first + second + third
  }

  /** Triple damage on a d100 above 70, otherwise the base damage unchanged. */
  function BowDamage(baseDamage: int, roll: int): (damage: int)
    requires Rolled(roll, 100)
    ensures 71 <= roll ==> damage == 3 * baseDamage
    ensures roll <= 70 ==> damage == baseDamage
    ensures baseDamage != 0 ==> (damage == 3 * baseDamage <==> 71 <= roll <= 100)
    ensures damage == baseDamage || damage == 3 * baseDamage
    ensures baseDamage >= 0 ==> damage >= baseDamage
    ensures baseDamage == 0 ==> damage == 0
  {
    if roll > 70 then baseDamage * 3 else baseDamage
  }

  /** One call of `performAttack`. A multi-attack passes the base damage
      unchanged to the strategy at the drawn index; on an empty list the pick
      itself fails. */
  function PerformAttack(a: Attack, baseDamage: int, d: AttackDraw): (r: Result<int>)
    requires Fits(a, d)
    ensures r.Err? ==> r.error == EmptyAttackList
    ensures Armed(a) ==> r.Ok?
    ensures NeverZero(a, baseDamage) ==> r != Ok(0)
    decreases a
  {
    match a
    case TwoHandedSword => Ok(SwordDamage(baseDamage, d.first, d.second))
    case FireBolt => Ok(FireBoltDamage(baseDamage, d.first, d.second, d.third))
    case Bow => Ok(BowDamage(baseDamage, d.roll))
    case MultiAttack(attacks) =>
      if |attacks| == 0 then Err(EmptyAttackList)
      else PerformAttack(attacks[d.index], baseDamage, d.sub)
  }

  /** `r` is an outcome some throw of the dice gives strategy `a`. */
  ghost predicate CanDeal(a: Attack, baseDamage: int, r: Result<int>) {
    exists d :: Fits(a, d) && PerformAttack(a, baseDamage, d) == r
  }

  /** The sword deals exactly the values from base + 2 to base + 24. */
  lemma SwordOutcomes(baseDamage: int, r: Result<int>)
    ensures CanDeal(TwoHandedSword, baseDamage, r)
        <==> r.Ok? && baseDamage + 2 <= r.value <= baseDamage + 24
  {
    if r.Ok? && baseDamage + 2 <= r.value <= baseDamage + 24 {
      var k := r.value - baseDamage;
      var d := if k > 12 then SwordDraw(12, k - 12) else SwordDraw(k - 1, 1);
      assert Fits(TwoHandedSword, d) && PerformAttack(TwoHandedSword, baseDamage, d) == r;
    }
  }

  /** The fire bolt deals exactly the values from 3 to 30, whatever the base. */
  lemma FireBoltOutcomes(baseDamage: int, r: Result<int>)
    ensures CanDeal(FireBolt, baseDamage, r) <==> r.Ok? && 3 <= r.value <= 30
  {
    if r.Ok? && 3 <= r.value <= 30 {
      var v := r.value;
      var first := if v - 2 > 10 then 10 else v - 2;
      var rest := v - first;
      var second := if rest - 1 > 10 then 10 else rest - 1;
      var d := FireDraw(first, second, rest - second);
      assert Fits(FireBolt, d) && PerformAttack(FireBolt, baseDamage, d) == r;
    }
  }

  /** The bow deals either the base damage or three times it, and both occur. */
  lemma BowOutcomes(baseDamage: int, r: Result<int>)
    ensures CanDeal(Bow, baseDamage, r) <==> r == Ok(baseDamage) || r == Ok(3 * baseDamage)
  {
    if r == Ok(baseDamage) {
      assert Fits(Bow, BowDraw(1)) && PerformAttack(Bow, baseDamage, BowDraw(1)) == r;
    } else if r == Ok(3 * baseDamage) {
      assert Fits(Bow, BowDraw(100)) && PerformAttack(Bow, baseDamage, BowDraw(100)) == r;
    }
  }

  /** The fire bolt's result depends on the dice only. */
  lemma FireBoltIgnoresBase(b1: int, b2: int, d: AttackDraw)
    requires Fits(FireBolt, d)
    ensures PerformAttack(FireBolt, b1, d) == PerformAttack(FireBolt, b2, d)
  {
  }

  /** For fixed dice the sword's damage follows the base damage one for one. */
  lemma SwordTracksBase(b1: int, b2: int, d: AttackDraw)
    requires Fits(TwoHandedSword, d)
    ensures PerformAttack(TwoHandedSword, b2, d).value - PerformAttack(TwoHandedSword, b1, d).value == b2 - b1
  {
  }

  /** A multi-attack over an empty list can only fail. */
  lemma EmptyMultiAttackFails(baseDamage: int, r: Result<int>)
    ensures CanDeal(MultiAttack([]), baseDamage, r) <==> r == Err(EmptyAttackList)
  {
    if r == Err(EmptyAttackList) {
      var d := BowDraw(1);
      assert Fits(MultiAttack([]), d) && PerformAttack(MultiAttack([]), baseDamage, d) == r;
    }
  }

  /** A non-empty multi-attack can give exactly the outcomes that one of its
      strategies can give: the union of their ranges. */
  lemma MultiAttackOutcomes(attacks: seq<Attack>, baseDamage: int, r: Result<int>)
    requires |attacks| > 0
    ensures CanDeal(MultiAttack(attacks), baseDamage, r)
        <==> exists i | 0 <= i < |attacks| :: CanDeal(attacks[i], baseDamage, r)
  {
    var m := MultiAttack(attacks);
    if CanDeal(m, baseDamage, r) {
      var d :| Fits(m, d) && PerformAttack(m, baseDamage, d) == r;
      assert CanDeal(attacks[d.index], baseDamage, r) by {
        assert Fits(attacks[d.index], d.sub) && PerformAttack(attacks[d.index], baseDamage, d.sub) == r;
      }
    }
    if exists i | 0 <= i < |attacks| :: CanDeal(attacks[i], baseDamage, r) {
      var i :| 0 <= i < |attacks| && CanDeal(attacks[i], baseDamage, r);
      var sub :| Fits(attacks[i], sub) && PerformAttack(attacks[i], baseDamage, sub) == r;
      assert Fits(m, PickDraw(i, sub)) && PerformAttack(m, baseDamage, PickDraw(i, sub)) == r;
    }
  }

  /** A multi-attack over a single strategy behaves exactly like it, throw by
      throw and in the outcomes it can give. */
  lemma SingleMultiAttack(a: Attack, baseDamage: int, d: AttackDraw, r: Result<int>)
    requires Fits(a, d)
    ensures Fits(MultiAttack([a]), PickDraw(0, d))
    ensures PerformAttack(MultiAttack([a]), baseDamage, PickDraw(0, d)) == PerformAttack(a, baseDamage, d)
    ensures CanDeal(MultiAttack([a]), baseDamage, r) <==> CanDeal(a, baseDamage, r)
  {
    MultiAttackOutcomes([a], baseDamage, r);
    assert [a][0] == a;
  }

  /** `NeverZero` is exact: a strategy fails it precisely when some throw
      makes it deal 0 damage. */
  lemma {:induction false} ZeroDamageReachable(a: Attack, baseDamage: int)
    ensures !NeverZero(a, baseDamage) <==> CanDeal(a, baseDamage, Ok(0))
    decreases a
  {
    if CanDeal(a, baseDamage, Ok(0)) {
      var d :| Fits(a, d) && PerformAttack(a, baseDamage, d) == Ok(0);
    }
    match a
    case TwoHandedSword =>
      SwordOutcomes(baseDamage, Ok(0));
    case FireBolt =>
    case Bow =>
      BowOutcomes(baseDamage, Ok(0));
    case MultiAttack(attacks) =>
      if !NeverZero(a, baseDamage) {
        var i :| 0 <= i < |attacks| && !NeverZero(attacks[i], baseDamage);
        ZeroDamageReachable(attacks[i], baseDamage);
        MultiAttackOutcomes(attacks, baseDamage, Ok(0));
      }
  }
}

/** Armor strategies: how much of an incoming hit a character's armor absorbs.

    The reduction is not clamped here; the defending character subtracts it
    from the damage and clamps the difference at zero. */
module Armors {
  import opened Dice

  datatype Armor = Leather | Shield | IceBlock

  /** The dice one call throws: none for leather, one d100 for the shield,
      two d8 for the ice block. */
  datatype ArmorDraw =
    | NoDraw
    | ShieldDraw(roll: int)
    | IceDraw(first: int, second: int)

  predicate ArmorFits(a: Armor, d: ArmorDraw) {
    match a
    case Leather => d.NoDraw?
    case Shield => d.ShieldDraw? && Rolled(d.roll, 100)
    case IceBlock => d.IceDraw? && Rolled(d.first, 8) && Rolled(d.second, 8)
  }

  /** A quarter of the damage, rounded down (towards minus infinity). */
  function LeatherReduction(damage: int): (reduction: int)
    ensures 4 * reduction <= damage < 4 * reduction + 4
    ensures damage >= 0 ==> 0 <= reduction <= damage
  {
    damage / 4
  }

  /** A d100 above 80 blocks the whole hit; anything else blocks nothing. */
  function ShieldReduction(damage: int, roll: int): (reduction: int)
    requires Rolled(roll, 100)
    ensures 81 <= roll ==> reduction == damage
    ensures roll <= 80 ==> reduction == 0
    ensures damage != 0 ==> (reduction == damage <==> 81 <= roll <= 100)
    ensures reduction == 0 || reduction == damage
    ensures damage >= 0 ==> 0 <= reduction <= damage
  {
    if roll > 80 then damage else 0
  }

  /** Two d8, whatever the damage; may exceed the damage. */
  function IceBlockReduction(damage: int, first: int, second: int): (reduction: int)
    requires Rolled(first, 8) && Rolled(second, 8)
    ensures 2 <= reduction <= 16
  {
    first + second
  }

  /** One call of `getArmorReduction`. */
  function Reduction(a: Armor, damage: int, d: ArmorDraw): (reduction: int)
    requires ArmorFits(a, d)
    ensures a != IceBlock && damage >= 0 ==> 0 <= reduction <= damage
    ensures a == IceBlock ==> 2 <= reduction <= 16
    ensures damage < 0 ==> reduction >= damage
  {
    match a
    case Leather => LeatherReduction(damage)
    case Shield => ShieldReduction(damage, d.roll)
    case IceBlock => IceBlockReduction(damage, d.first, d.second)
  }

  /** `r` is a reduction some throw of the dice gives armor `a`. */
  ghost predicate CanReduce(a: Armor, damage: int, r: int) {
    exists d :: ArmorFits(a, d) && Reduction(a, damage, d) == r
  }

  /** The shield blocks all or nothing, and both happen. */
  lemma ShieldOutcomes(damage: int, r: int)
    ensures CanReduce(Shield, damage, r) <==> r == 0 || r == damage
  {
    if r == damage {
      assert ArmorFits(Shield, ShieldDraw(100)) && Reduction(Shield, damage, ShieldDraw(100)) == r;
    } else if r == 0 {
      assert ArmorFits(Shield, ShieldDraw(1)) && Reduction(Shield, damage, ShieldDraw(1)) == r;
    }
  }

  /** The ice block absorbs exactly the values from 2 to 16, whatever the damage. */
  lemma IceBlockOutcomes(damage: int, r: int)
    ensures CanReduce(IceBlock, damage, r) <==> 2 <= r <= 16
  {
    if 2 <= r <= 16 {
      var d := if r > 9 then IceDraw(8, r - 8) else IceDraw(r - 1, 1);
      assert ArmorFits(IceBlock, d) && Reduction(IceBlock, damage, d) == r;
    }
  }

  /** Leather throws no dice: its one possible reduction is a quarter of the
      damage rounded down. */
  lemma LeatherOutcomes(damage: int, r: int)
    ensures CanReduce(Leather, damage, r) <==> 4 * r <= damage < 4 * r + 4
  {
    if 4 * r <= damage < 4 * r + 4 {
      assert ArmorFits(Leather, NoDraw) && Reduction(Leather, damage, NoDraw) == r;
    }
  }

  /** More damage never earns less leather reduction. */
  lemma LeatherMonotone(d1: int, d2: int)
    requires d1 <= d2
    ensures LeatherReduction(d1) <= LeatherReduction(d2)
  {
  }

  /** The ice block's reduction depends on the dice only. */
  lemma IceBlockIgnoresDamage(d1: int, d2: int, d: ArmorDraw)
    requires ArmorFits(IceBlock, d)
    ensures Reduction(IceBlock, d1, d) == Reduction(IceBlock, d2, d)
  {
  }
}

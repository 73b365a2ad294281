/** Fluent builders that assemble a character from parts, and the factory that
    picks one of the two builders with a d100.

    A builder field that was never set stays unset (`None`); reading it while
    building raises, as reading an uninitialised typed property does. */
module Builders {
  import opened Dice
  import opened Results
  import opened Attacks
  import opened Armors
  import opened Characters

  /** One attack is used as it is; any other number of attacks, none
      included, is wrapped, in order, in a multi-attack. */
  function CombineAttacks(attacks: seq<Attack>): (a: Attack)
    ensures |attacks| == 1 ==> a == attacks[0]
    ensures |attacks| != 1 ==> a.MultiAttack? && a.attacks == attacks
    ensures Armed(a) <==> |attacks| > 0 && forall i | 0 <= i < |attacks| :: Armed(attacks[i])
  {
    if |attacks| == 1 then attacks[0] else MultiAttack(attacks)
  }

  /** Unwrapping a single attack changes nothing a fight can see: the
      combined attack can give exactly the outcomes of the multi-attack over
      the same list. */
  lemma CombineAttacksOutcomes(attacks: seq<Attack>, baseDamage: int, r: Result<int>)
    ensures CombineAttacks(attacks) == MultiAttack(attacks) || (|attacks| == 1 && CombineAttacks(attacks) == attacks[0])
    ensures CanDeal(CombineAttacks(attacks), baseDamage, r) <==> CanDeal(MultiAttack(attacks), baseDamage, r)
  {
    if |attacks| == 1 {
      var d := SomeDraw(attacks[0]);
      SingleMultiAttack(attacks[0], baseDamage, d, r);
      assert [attacks[0]] == attacks;
    }
  }

  /** What `build` makes of the stored fields: the attacks are read first,
      then health, base damage and armor, and the first one unset raises. */
  function Assemble(maxHealth: Option<int>, baseDamage: Option<int>, attacks: Option<seq<Attack>>, armor: Option<Armor>)
    : (r: Result<Stats>)
    ensures r.Ok? <==> maxHealth.Some? && baseDamage.Some? && attacks.Some? && armor.Some?
    ensures r.Ok? ==> (r.value.maxHealth == maxHealth.value && r.value.baseDamage == baseDamage.value
                       && r.value.armor == armor.value)
    ensures r.Ok? ==> r.value.attack == if |attacks.value| == 1 then attacks.value[0] else MultiAttack(attacks.value)
    ensures r.Err? ==> r.error.UninitializedProperty?
    ensures attacks.None? ==> r == Err(UninitializedProperty("attacks"))
    ensures attacks.Some? && maxHealth.None? ==> r == Err(UninitializedProperty("maxHealth"))
    ensures attacks.Some? && maxHealth.Some? && baseDamage.None? ==> r == Err(UninitializedProperty("baseDamage"))
    ensures attacks.Some? && maxHealth.Some? && baseDamage.Some? && armor.None? ==> r == Err(UninitializedProperty("armor"))
  {
    if attacks.None? then Err(UninitializedProperty("attacks"))
    else if maxHealth.None? then Err(UninitializedProperty("maxHealth"))
    else if baseDamage.None? then Err(UninitializedProperty("baseDamage"))
    else if armor.None? then Err(UninitializedProperty("armor"))
    else Ok(Stats(maxHealth.value, baseDamage.value, CombineAttacks(attacks.value), armor.value))
  }

  /** The health the greater-health builder stores: one and a half times the
      argument, truncated towards zero. */
  function ScaleHealth(maxHealth: int): (scaled: int)
    ensures maxHealth >= 0 ==> 0 <= 2 * scaled <= 3 * maxHealth < 2 * scaled + 2
    ensures maxHealth < 0 ==> 2 * scaled - 2 < 3 * maxHealth <= 2 * scaled <= 0
    ensures maxHealth >= 0 ==> scaled >= maxHealth
  {
    if maxHealth >= 0 then 3 * maxHealth / 2 else -(3 * -maxHealth / 2)
  }

  class CharacterBuilder {
    var maxHealth: Option<int>
    var baseDamage: Option<int>
    var attacks: Option<seq<Attack>>
    var armor: Option<Armor>

    /** A new builder has no field set. */
    constructor ()
      ensures maxHealth.None? && baseDamage.None? && attacks.None? && armor.None?
    {
      maxHealth, baseDamage, attacks, armor := None, None, None, None;
    }

    method SetMaxHealth(value: int) returns (self: CharacterBuilder)
      modifies this
      ensures self == this && maxHealth == Some(value)
      ensures baseDamage == old(baseDamage) && attacks == old(attacks) && armor == old(armor)
    {
      maxHealth := Some(value);
      self := this;
    }

    method SetBaseDamage(value: int) returns (self: CharacterBuilder)
      modifies this
      ensures self == this && baseDamage == Some(value)
      ensures maxHealth == old(maxHealth) && attacks == old(attacks) && armor == old(armor)
    {
      baseDamage := Some(value);
      self := this;
    }

    /** Replaces the stored attacks; it does not append to them. */
    method SetAttack(values: seq<Attack>) returns (self: CharacterBuilder)
      modifies this
      ensures self == this && attacks == Some(values)
      ensures maxHealth == old(maxHealth) && baseDamage == old(baseDamage) && armor == old(armor)
    {
      attacks := Some(values);
      self := this;
    }

    method SetArmor(value: Armor) returns (self: CharacterBuilder)
      modifies this
      ensures self == this && armor == Some(value)
      ensures maxHealth == old(maxHealth) && baseDamage == old(baseDamage) && attacks == old(attacks)
    {
      armor := Some(value);
      self := this;
    }

    /** A fresh character with the stored stats at full health and stamina,
        or the error of the first unset field. */
    method Build() returns (r: Result<Character>)
      ensures Assemble(maxHealth, baseDamage, attacks, armor).Err? ==> r == Err(Assemble(maxHealth, baseDamage, attacks, armor).error)
      ensures Assemble(maxHealth, baseDamage, attacks, armor).Ok? ==>
        && r.Ok? && fresh(r.value)
        && r.value.Sheet() == Assemble(maxHealth, baseDamage, attacks, armor).value
        && r.value.State() == Rested(r.value.Sheet())
    {
      var stats := Assemble(maxHealth, baseDamage, attacks, armor);
      if stats.Err? {
        return Err(stats.error);
      }
      var c := new Character(stats.value.maxHealth, stats.value.baseDamage, stats.value.attack, stats.value.armor);
      r := Ok(c);
    }
  }

  class CharacterGreaterHealthBuilder {
    var maxHealth: Option<int>
    var baseDamage: Option<int>
    var attacks: Option<seq<Attack>>
    var armor: Option<Armor>

    constructor ()
      ensures maxHealth.None? && baseDamage.None? && attacks.None? && armor.None?
    {
      maxHealth, baseDamage, attacks, armor := None, None, None, None;
    }

    /** Stores the scaled argument; each call scales its own argument, so
        scaling never compounds and the last call wins. */
    method SetMaxHealth(value: int) returns (self: CharacterGreaterHealthBuilder)
      modifies this
      ensures self == this && maxHealth == Some(ScaleHealth(value))
      ensures baseDamage == old(baseDamage) && attacks == old(attacks) && armor == old(armor)
    {
      maxHealth := Some(ScaleHealth(value));
      self := this;
    }

    method SetBaseDamage(value: int) returns (self: CharacterGreaterHealthBuilder)
      modifies this
      ensures self == this && baseDamage == Some(value)
      ensures maxHealth == old(maxHealth) && attacks == old(attacks) && armor == old(armor)
    {
      baseDamage := Some(value);
      self := this;
    }

    method SetAttack(values: seq<Attack>) returns (self: CharacterGreaterHealthBuilder)
      modifies this
      ensures self == this && attacks == Some(values)
      ensures maxHealth == old(maxHealth) && baseDamage == old(baseDamage) && armor == old(armor)
    {
      attacks := Some(values);
      self := this;
    }

    method SetArmor(value: Armor) returns (self: CharacterGreaterHealthBuilder)
      modifies this
      ensures self == this && armor == Some(value)
      ensures maxHealth == old(maxHealth) && baseDamage == old(baseDamage) && attacks == old(attacks)
    {
      armor := Some(value);
      self := this;
    }

    method Build() returns (r: Result<Character>)
      ensures Assemble(maxHealth, baseDamage, attacks, armor).Err? ==> r == Err(Assemble(maxHealth, baseDamage, attacks, armor).error)
      ensures Assemble(maxHealth, baseDamage, attacks, armor).Ok? ==>
        && r.Ok? && fresh(r.value)
        && r.value.Sheet() == Assemble(maxHealth, baseDamage, attacks, armor).value
        && r.value.State() == Rested(r.value.Sheet())
    {
      var stats := Assemble(maxHealth, baseDamage, attacks, armor);
      if stats.Err? {
        return Err(stats.error);
      }
      var c := new Character(stats.value.maxHealth, stats.value.baseDamage, stats.value.attack, stats.value.armor);
      r := Ok(c);
    }
  }

  /** The same calls on either builder give the same character but for its
      health, which the greater-health builder scales. */
  lemma BuildersAgreeButForHealth(maxHealth: int, baseDamage: int, attacks: seq<Attack>, armor: Armor)
    ensures var plain := Assemble(Some(maxHealth), Some(baseDamage), Some(attacks), Some(armor));
      var greater := Assemble(Some(ScaleHealth(maxHealth)), Some(baseDamage), Some(attacks), Some(armor));
      plain.Ok? && greater.Ok? && greater.value == plain.value.(maxHealth := ScaleHealth(maxHealth))
  {
  }

  datatype BuilderKind = Default | GreaterHealth

  /** The factory's rule: exactly the ten faces 91 to 100 of a d100 pick the
      greater-health builder. */
  function SelectBuilder(roll: int): (kind: BuilderKind)
    requires Rolled(roll, 100)
    ensures kind == GreaterHealth <==> 91 <= roll <= 100
    ensures kind == Default <==> 1 <= roll <= 90
  {
    if roll > 90 then GreaterHealth else Default
  }

  /** Either builder, as the factory hands it out. */
  datatype AnyBuilder =
    | Plain(plain: CharacterBuilder)
    | Greater(greater: CharacterGreaterHealthBuilder)

  /** A fresh builder with no field set, of the kind the roll selects. */
  method CreateBuilder(roll: int) returns (b: AnyBuilder)
    requires Rolled(roll, 100)
    ensures b.Greater? <==> SelectBuilder(roll) == GreaterHealth
    ensures b.Plain? ==> fresh(b.plain) && b.plain.maxHealth.None? && b.plain.baseDamage.None?
                         && b.plain.attacks.None? && b.plain.armor.None?
    ensures b.Greater? ==> fresh(b.greater) && b.greater.maxHealth.None? && b.greater.baseDamage.None?
                           && b.greater.attacks.None? && b.greater.armor.None?
  {
    if roll > 90 {
      var g := new CharacterGreaterHealthBuilder();
      return Greater(g);
    }
    var p := new CharacterBuilder();
    return Plain(p);
  }
}

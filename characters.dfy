/** A combatant: fixed stats and strategies, plus health and stamina that
    change as it attacks, is hit and rests.

    The pure functions here are the specification of one attack, one hit and
    one rest; the `Character` class updates its fields as they prescribe. */
module Characters {
  import opened Dice
  import opened Results
  import Attacks
  import Armors

  const MaxStamina := 100
  const BaseStaminaCost := 25

  /** What never changes after construction. */
  datatype Stats = Stats(maxHealth: int, baseDamage: int, attack: Attacks.Attack, armor: Armors.Armor)

  /** What attacks, hits and rests change. */
  datatype Vitals = Vitals(health: int, stamina: int)

  /** Every attack costs 25 stamina plus a d20. */
  function StaminaCost(roll: int): (cost: int)
    requires Rolled(roll, 20)
    ensures 26 <= cost <= 45
  {
    BaseStaminaCost + roll
  }

  /** The attack would leave no stamina, so the turn is lost. At 25 stamina
      or less every roll exhausts; above 45 none does. */
  predicate ExhaustedBy(stamina: int, roll: int)
    requires Rolled(roll, 20)
    ensures stamina <= BaseStaminaCost ==> ExhaustedBy(stamina, roll)
    ensures stamina > BaseStaminaCost + 20 ==> !ExhaustedBy(stamina, roll)
  {
    stamina - StaminaCost(roll) <= 0
  }

  /** Stamina after an attack: the cost is paid, and a pool that would drop to
      zero or below is refilled to the maximum instead. */
  function StaminaAfterAttack(stamina: int, roll: int): (after: int)
    requires Rolled(roll, 20)
    ensures 0 < after
    ensures ExhaustedBy(stamina, roll) ==> after == MaxStamina
    ensures !ExhaustedBy(stamina, roll) ==> 0 < after < stamina && after == stamina - StaminaCost(roll)
    ensures after == MaxStamina || stamina - 45 <= after <= stamina - 26
    ensures stamina <= MaxStamina ==> after <= MaxStamina
  {
    var left := stamina - StaminaCost(roll);
    if left <= 0 then MaxStamina else left
  }

  /** What an attack returns: 0 for an exhausted turn, without asking the
      strategy; otherwise whatever the strategy deals on the character's base
      damage. */
  function AttackOutcome(s: Stats, stamina: int, roll: int, d: Attacks.AttackDraw): (r: Result<int>)
    requires Rolled(roll, 20) && Attacks.Fits(s.attack, d)
    ensures ExhaustedBy(stamina, roll) ==> r == Ok(0)
    ensures !ExhaustedBy(stamina, roll) ==> r == Attacks.PerformAttack(s.attack, s.baseDamage, d)
    ensures Attacks.NeverZero(s.attack, s.baseDamage) ==> (r == Ok(0) <==> ExhaustedBy(stamina, roll))
    ensures Attacks.Armed(s.attack) ==> r.Ok?
  {
    if ExhaustedBy(stamina, roll) then Ok(0)
    else Attacks.PerformAttack(s.attack, s.baseDamage, d)
  }

  /** Damage that gets through the armor: the incoming damage less the
      reduction, never below zero. */
  function DamageTaken(armor: Armors.Armor, damage: int, d: Armors.ArmorDraw): (taken: int)
    requires Armors.ArmorFits(armor, d)
    ensures taken >= 0 && taken >= damage - Armors.Reduction(armor, damage, d)
    ensures taken == 0 || taken == damage - Armors.Reduction(armor, damage, d)
    ensures taken <= if damage >= 0 then damage else 0
  {
    var net := damage - Armors.Reduction(armor, damage, d);
    if net > 0 then net else 0
  }

  /** Full health and full stamina. */
  function Rested(s: Stats): Vitals {
    Vitals(s.maxHealth, MaxStamina)
  }

  class Character {
    const maxHealth: int
    const baseDamage: int
    const attack: Attacks.Attack
    const armor: Armors.Armor
    var currentHealth: int
    var currentStamina: int

    function Sheet(): Stats {
      Stats(maxHealth, baseDamage, attack, armor)
    }

    function State(): Vitals
      reads this
    {
      Vitals(currentHealth, currentStamina)
    }

    /** A new character starts at full health and full stamina. */
    constructor (maxHealth: int, baseDamage: int, attack: Attacks.Attack, armor: Armors.Armor)
      ensures Sheet() == Stats(maxHealth, baseDamage, attack, armor)
      ensures State() == Rested(Sheet())
    {
      this.maxHealth := maxHealth;
      this.baseDamage := baseDamage;
      this.attack := attack;
      this.armor := armor;
      currentHealth := maxHealth;
      currentStamina := MaxStamina;
    }

    /** Pays the stamina cost, then either loses the turn or attacks. When the
        strategy raises, the stamina already paid stays paid. */
    method Attack(staminaRoll: int, draw: Attacks.AttackDraw) returns (damage: Result<int>)
      requires Rolled(staminaRoll, 20) && Attacks.Fits(attack, draw)
      modifies this
      ensures currentHealth == old(currentHealth)
      ensures currentStamina == StaminaAfterAttack(old(currentStamina), staminaRoll)
      ensures damage == AttackOutcome(Sheet(), old(currentStamina), staminaRoll, draw)
    {
      currentStamina := currentStamina - (BaseStaminaCost + staminaRoll);
      if currentStamina <= 0 {
        currentStamina := MaxStamina;
        return Ok(0);
      }
      damage := Attacks.PerformAttack(attack, baseDamage, draw);
    }

    /** Takes a hit: health drops by exactly what gets through the armor,
        with no floor at zero. */
    method ReceiveAttack(damage: int, draw: Armors.ArmorDraw) returns (taken: int)
      requires Armors.ArmorFits(armor, draw)
      modifies this
      ensures taken == DamageTaken(armor, damage, draw)
      ensures currentHealth == old(currentHealth) - taken <= old(currentHealth)
      ensures currentStamina == old(currentStamina)
    {
      var armorReduction := Armors.Reduction(armor, damage, draw);
      taken := if damage - armorReduction > 0 then damage - armorReduction else 0;
      currentHealth := currentHealth - taken;
    }

    /** Restores health and stamina whatever they were, so resting twice is
        the same as resting once. */
    method Rest()
      modifies this
      ensures State() == Rested(Sheet())
    {
      currentHealth := maxHealth;
      currentStamina := MaxStamina;
    }
  }
}

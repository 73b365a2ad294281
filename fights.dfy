/** The fight loop as a function of the dice: one round, a run of rounds, and
    what the run is proved to keep.

    A round is: the player attacks and the enemy takes the hit; if the enemy
    is dead (health at or below zero) the player wins; otherwise the enemy
    attacks and the player takes the hit; if the player is dead the enemy
    wins; otherwise the next round follows. */
module Fights {
  import opened Dice
  import opened Results
  import Attacks
  import Armors
  import opened Characters

  /** Every die one round can throw, in the order the round throws them. Dice
      a round does not reach (the strategy of an exhausted attacker, the
      enemy's attack after its death) are ignored. */
  datatype RoundDraws = RoundDraws(
    playerStamina: int,
    playerAttack: Attacks.AttackDraw,
    enemyArmor: Armors.ArmorDraw,
    enemyStamina: int,
    enemyAttack: Attacks.AttackDraw,
    playerArmor: Armors.ArmorDraw)

  predicate RoundFits(player: Stats, enemy: Stats, d: RoundDraws) {
    && Rolled(d.playerStamina, 20)
    && Attacks.Fits(player.attack, d.playerAttack)
    && Armors.ArmorFits(enemy.armor, d.enemyArmor)
    && Rolled(d.enemyStamina, 20)
    && Attacks.Fits(enemy.attack, d.enemyAttack)
    && Armors.ArmorFits(player.armor, d.playerArmor)
  }

  predicate AllFit(player: Stats, enemy: Stats, draws: seq<RoundDraws>) {
    forall i | 0 <= i < |draws| :: RoundFits(player, enemy, draws[i])
  }

  /** The counters a fight keeps. */
  datatype Tally = Tally(rounds: nat, damageDealt: int, damageReceived: int, exhaustedTurns: nat)

  const NoTally := Tally(0, 0, 0, 0)

  /** `Ongoing`: no one has died yet; `Raised`: an attack strategy failed. */
  datatype Status = Ongoing | PlayerWon | EnemyWon | Raised(error: Error)

  /** Where a run of rounds stopped, and in what state. */
  datatype Bout = Bout(status: Status, player: Vitals, enemy: Vitals, tally: Tally)

  predicate Dead(v: Vitals) {
    v.health <= 0
  }

  /** One round of the loop. */
  function Round(player: Stats, enemy: Stats, pv: Vitals, ev: Vitals, d: RoundDraws, t: Tally): (b: Bout)
    requires RoundFits(player, enemy, d)
    ensures b.tally.rounds == t.rounds + 1
    ensures b.tally.exhaustedTurns
         == t.exhaustedTurns + if AttackOutcome(player, pv.stamina, d.playerStamina, d.playerAttack) == Ok(0) then 1 else 0
    ensures b.tally.damageDealt >= t.damageDealt && b.tally.damageReceived >= t.damageReceived
    ensures b.enemy.health == ev.health - (b.tally.damageDealt - t.damageDealt)
    ensures b.player.health == pv.health - (b.tally.damageReceived - t.damageReceived)
    ensures b.player.stamina == StaminaAfterAttack(pv.stamina, d.playerStamina)
    ensures b.enemy.stamina == ev.stamina || b.enemy.stamina == StaminaAfterAttack(ev.stamina, d.enemyStamina)
    ensures b.status == PlayerWon ==> Dead(b.enemy) && b.player.health == pv.health && b.enemy.stamina == ev.stamina
    ensures b.status == EnemyWon ==> Dead(b.player) && !Dead(b.enemy)
    ensures b.status == Ongoing ==> !Dead(b.player) && !Dead(b.enemy)
  {
    var t1 := t.(rounds := t.rounds + 1);
    var pv1 := pv.(stamina := StaminaAfterAttack(pv.stamina, d.playerStamina));
    match AttackOutcome(player, pv.stamina, d.playerStamina, d.playerAttack)
    case Err(e) => Bout(Raised(e), pv1, ev, t1)
    case Ok(damage) =>
      var t2 := if damage == 0 then t1.(exhaustedTurns := t1.exhaustedTurns + 1) else t1;
      var dealt := DamageTaken(enemy.armor, damage, d.enemyArmor);
      var ev1 := ev.(health := ev.health - dealt);
      var t3 := t2.(damageDealt := t2.damageDealt + dealt);
      if Dead(ev1) then Bout(PlayerWon, pv1, ev1, t3)
      else
        var ev2 := ev1.(stamina := StaminaAfterAttack(ev.stamina, d.enemyStamina));
        match AttackOutcome(enemy, ev.stamina, d.enemyStamina, d.enemyAttack)
        case Err(e) => Bout(Raised(e), pv1, ev2, t3)
        case Ok(hit) =>
          var received := DamageTaken(player.armor, hit, d.playerArmor);
          var pv2 := pv1.(health := pv.health - received);
          var t4 := t3.(damageReceived := t3.damageReceived + received);
          if Dead(pv2) then Bout(EnemyWon, pv2, ev2, t4)
          else Bout(Ongoing, pv2, ev2, t4)
  }

  /** The loop run over the given rounds' dice, stopping at the first round
      that decides the fight or raises. With every round undecided it stops,
      `Ongoing`, when the dice run out. */
  function Rounds(player: Stats, enemy: Stats, pv: Vitals, ev: Vitals, draws: seq<RoundDraws>, t: Tally): (b: Bout)
    requires AllFit(player, enemy, draws)
    ensures t.rounds <= b.tally.rounds <= t.rounds + |draws|
    ensures b.status == Ongoing ==> b.tally.rounds == t.rounds + |draws|
    ensures b.status != Ongoing ==> b.tally.rounds > t.rounds
    decreases |draws|
  {
    if |draws| == 0 then Bout(Ongoing, pv, ev, t)
    else
      var b := Round(player, enemy, pv, ev, draws[0], t);
      if b.status == Ongoing then Rounds(player, enemy, b.player, b.enemy, draws[1..], b.tally)
      else b
  }

  /** The exhausted turns a player with stamina `stamina` runs into over the
      given rounds: the reference the fight's exhausted-turn counter is
      compared with. */
  function ExhaustedTurns(stamina: int, draws: seq<RoundDraws>): nat
    requires forall i | 0 <= i < |draws| :: Rolled(draws[i].playerStamina, 20)
    decreases |draws|
  {
    if |draws| == 0 then 0
    else
      (if ExhaustedBy(stamina, draws[0].playerStamina) then 1 else 0)
      + ExhaustedTurns(StaminaAfterAttack(stamina, draws[0].playerStamina), draws[1..])
  }

  /** Damage dealt and received only grow, and exhausted turns never outnumber
      rounds. */
  lemma {:induction false} TallyGrows(player: Stats, enemy: Stats, pv: Vitals, ev: Vitals, draws: seq<RoundDraws>, t: Tally)
    requires AllFit(player, enemy, draws)
    ensures var b := Rounds(player, enemy, pv, ev, draws, t);
      && b.tally.damageDealt >= t.damageDealt
      && b.tally.damageReceived >= t.damageReceived
      && b.tally.exhaustedTurns - t.exhaustedTurns <= b.tally.rounds - t.rounds
    decreases |draws|
  {
    if |draws| > 0 {
      var b := Round(player, enemy, pv, ev, draws[0], t);
      if b.status == Ongoing {
        TallyGrows(player, enemy, b.player, b.enemy, draws[1..], b.tally);
      }
    }
  }

  /** Health is conserved: each side's health fell by exactly the damage the
      fight recorded against it. */
  lemma {:induction false} HealthMatchesTally(player: Stats, enemy: Stats, pv: Vitals, ev: Vitals, draws: seq<RoundDraws>, t: Tally)
    requires AllFit(player, enemy, draws)
    ensures var b := Rounds(player, enemy, pv, ev, draws, t);
      && b.enemy.health == ev.health - (b.tally.damageDealt - t.damageDealt)
      && b.player.health == pv.health - (b.tally.damageReceived - t.damageReceived)
    decreases |draws|
  {
    if |draws| > 0 {
      var b := Round(player, enemy, pv, ev, draws[0], t);
      if b.status == Ongoing {
        HealthMatchesTally(player, enemy, b.player, b.enemy, draws[1..], b.tally);
      }
    }
  }

  /** The loser is dead; an enemy that wins is alive; a player that starts
      alive and wins is alive. */
  lemma {:induction false} WinnerAndLoser(player: Stats, enemy: Stats, pv: Vitals, ev: Vitals, draws: seq<RoundDraws>, t: Tally)
    requires AllFit(player, enemy, draws)
    ensures var b := Rounds(player, enemy, pv, ev, draws, t);
      && (b.status == PlayerWon ==> Dead(b.enemy) && (!Dead(pv) ==> !Dead(b.player)))
      && (b.status == EnemyWon ==> Dead(b.player) && !Dead(b.enemy))
    decreases |draws|
  {
    if |draws| > 0 {
      var b := Round(player, enemy, pv, ev, draws[0], t);
      if b.status == Ongoing {
        WinnerAndLoser(player, enemy, b.player, b.enemy, draws[1..], b.tally);
      }
    }
  }

  /** Stamina never rises above the maximum, and the player's stays positive. */
  lemma {:induction false} StaminaBounded(player: Stats, enemy: Stats, pv: Vitals, ev: Vitals, draws: seq<RoundDraws>, t: Tally)
    requires AllFit(player, enemy, draws)
    requires 0 < pv.stamina <= MaxStamina && ev.stamina <= MaxStamina
    ensures var b := Rounds(player, enemy, pv, ev, draws, t);
      0 < b.player.stamina <= MaxStamina && b.enemy.stamina <= MaxStamina
    decreases |draws|
  {
    if |draws| > 0 {
      var b := Round(player, enemy, pv, ev, draws[0], t);
      if b.status == Ongoing {
        StaminaBounded(player, enemy, b.player, b.enemy, draws[1..], b.tally);
      }
    }
  }

  /** Two characters whose strategies contain no empty multi-attack never
      make the fight raise. */
  lemma {:induction false} ArmedNeverRaise(player: Stats, enemy: Stats, pv: Vitals, ev: Vitals, draws: seq<RoundDraws>, t: Tally)
    requires AllFit(player, enemy, draws)
    requires Attacks.Armed(player.attack) && Attacks.Armed(enemy.attack)
    ensures !Rounds(player, enemy, pv, ev, draws, t).status.Raised?
    decreases |draws|
  {
    if |draws| > 0 {
      var b := Round(player, enemy, pv, ev, draws[0], t);
      if b.status == Ongoing {
        ArmedNeverRaise(player, enemy, b.player, b.enemy, draws[1..], b.tally);
      }
    }
  }

  /** When the player's strategy never deals 0 on its own, the exhausted-turn
      counter counts exactly the player's exhausted turns in the rounds that
      were played; the enemy's lost turns are never counted. */
  lemma {:induction false} ExhaustedTurnsCounted(player: Stats, enemy: Stats, pv: Vitals, ev: Vitals, draws: seq<RoundDraws>, t: Tally)
    requires AllFit(player, enemy, draws)
    requires Attacks.NeverZero(player.attack, player.baseDamage)
    ensures var b := Rounds(player, enemy, pv, ev, draws, t);
      b.tally.exhaustedTurns == t.exhaustedTurns + ExhaustedTurns(pv.stamina, draws[..b.tally.rounds - t.rounds])
    decreases |draws|
  {
    var b := Rounds(player, enemy, pv, ev, draws, t);
    if |draws| > 0 {
      var b1 := Round(player, enemy, pv, ev, draws[0], t);
      var n := b.tally.rounds - t.rounds;
      var played := draws[..n];
      assert played[0] == draws[0] && played[1..] == draws[1..n];
      if b1.status == Ongoing {
        ExhaustedTurnsCounted(player, enemy, b1.player, b1.enemy, draws[1..], b1.tally);
        assert draws[1..][..n - 1] == draws[1..n];
      } else {
        assert n == 1 && played[1..] == [];
      }
    }
  }

  /** An enemy already dead when the fight starts loses in the first round,
      unless the player's attack raises. */
  lemma EnemyAlreadyDead(player: Stats, enemy: Stats, pv: Vitals, ev: Vitals, draws: seq<RoundDraws>, t: Tally)
    requires AllFit(player, enemy, draws) && |draws| > 0
    requires Dead(ev)
    ensures var b := Rounds(player, enemy, pv, ev, draws, t);
      b.tally.rounds == t.rounds + 1 && (b.status == PlayerWon || b.status.Raised?)
  {
    var b1 := Round(player, enemy, pv, ev, draws[0], t);
    assert b1.status != Ongoing;
  }
}

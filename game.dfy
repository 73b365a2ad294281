/** The game: the character presets and the fight loop that runs two
    characters against each other until one of them dies. */
module Game {
  import opened Results
  import opened Attacks
  import opened Armors
  import opened Characters
  import opened CharacterTypes
  import opened Fights

  /** The stats each character type is created with. */
  function Preset(t: CharacterType): (s: Stats)
    ensures s.maxHealth > 0 && s.baseDamage > 0
    ensures Armed(s.attack) && NeverZero(s.attack, s.baseDamage)
  {
    match t
    case Fighter => Stats(90, 12, TwoHandedSword, Shield)
    case Archer => Stats(80, 10, Bow, Leather)
    case Mage => Stats(70, 8, FireBolt, IceBlock)
  }

  /** A fresh character of the given type, at full health and stamina. */
  method CreateCharacter(t: CharacterType) returns (c: Character)
    ensures fresh(c) && c.Sheet() == Preset(t) && c.State() == Rested(Preset(t))
  {
    var s := Preset(t);
    c := new Character(s.maxHealth, s.baseDamage, s.attack, s.armor);
  }

  /** Whether a character is dead: its current health is at or below zero.
      Health has no floor, so a dead character may stand below zero. */
  predicate DidPlayerDie(c: Character)
    reads c
    ensures DidPlayerDie(c) <==> c.currentHealth <= 0
  {
    Dead(c.State())
  }

  /** A finished fight: its counters, and the two characters as winner and
      loser. */
  datatype Fight = Fight(
    rounds: nat,
    damageDealt: int,
    damageReceived: int,
    exhaustedTurns: nat,
    winner: Character,
    loser: Character)

  /** How `Play` ends: with a finished fight, with an error a strategy raised,
      or with the supplied dice used up before anyone died. */
  datatype Played = Finished(fight: Fight) | Failed(error: Error) | OutOfDraws

  /** What `Play` returns for a run of rounds that stopped at `b`: a decided
      run is a finished fight carrying the run's counters, with the side that
      died as the loser. */
  function Conclude(b: Bout, player: Character, enemy: Character): (r: Played)
    ensures r.Finished? <==> b.status == PlayerWon || b.status == EnemyWon
    ensures r.Failed? <==> b.status.Raised?
    ensures r.OutOfDraws? <==> b.status == Ongoing
    ensures r.Failed? ==> r.error == b.status.error
    ensures r.Finished? ==>
      && r.fight.rounds == b.tally.rounds && r.fight.exhaustedTurns == b.tally.exhaustedTurns
      && r.fight.damageDealt == b.tally.damageDealt && r.fight.damageReceived == b.tally.damageReceived
      && (b.status == PlayerWon ==> r.fight.winner == player && r.fight.loser == enemy)
      && (b.status == EnemyWon ==> r.fight.winner == enemy && r.fight.loser == player)
  {
    var t := b.tally;
    match b.status
    case Ongoing => OutOfDraws
    case PlayerWon => Finished(Fight(t.rounds, t.damageDealt, t.damageReceived, t.exhaustedTurns, player, enemy))
    case EnemyWon => Finished(Fight(t.rounds, t.damageDealt, t.damageReceived, t.exhaustedTurns, enemy, player))
    case Raised(e) => Failed(e)
  }

  /** One pass of the loop body: the player attacks, the enemy takes the hit
      and, if it survives, strikes back. The counters and both characters
      change as `Fights.Round` prescribes. */
  method PlayRound(player: Character, enemy: Character, d: RoundDraws, t: Tally) returns (status: Status, tally: Tally)
    requires player != enemy
    requires RoundFits(player.Sheet(), enemy.Sheet(), d)
    modifies player, enemy
    ensures var b := Round(player.Sheet(), enemy.Sheet(), old(player.State()), old(enemy.State()), d, t);
      && status == b.status && tally == b.tally
      && player.State() == b.player && enemy.State() == b.enemy
  {
    tally := t.(rounds := t.rounds + 1);
    var damage := player.Attack(d.playerStamina, d.playerAttack);
    if damage.Err? {
      return Raised(damage.error), tally;
    }
    if damage.value == 0 {
      tally := tally.(exhaustedTurns := tally.exhaustedTurns + 1);
    }

    var dealt := enemy.ReceiveAttack(damage.value, d.enemyArmor);
    tally := tally.(damageDealt := tally.damageDealt + dealt);
    if DidPlayerDie(enemy) {
      return PlayerWon, tally;
    }

    var hit := enemy.Attack(d.enemyStamina, d.enemyAttack);
    if hit.Err? {
      return Raised(hit.error), tally;
    }
    var received := player.ReceiveAttack(hit.value, d.playerArmor);
    tally := tally.(damageReceived := tally.damageReceived + received);
    if DidPlayerDie(player) {
      return EnemyWon, tally;
    }
    return Ongoing, tally;
  }

  /** Rests the player (only the player: the enemy keeps its health and
      stamina), then runs rounds until a death, one round per element of
      `draws`. The result and both characters' final state are those of
      `Rounds` from the rested player and the enemy as it was. */
  method Play(player: Character, enemy: Character, draws: seq<RoundDraws>) returns (result: Played)
    requires player != enemy
    requires AllFit(player.Sheet(), enemy.Sheet(), draws)
    modifies player, enemy
    ensures var b := Rounds(player.Sheet(), enemy.Sheet(), Rested(player.Sheet()), old(enemy.State()), draws, NoTally);
      && result == Conclude(b, player, enemy)
      && player.State() == b.player
      && enemy.State() == b.enemy
  {
    player.Rest();
    ghost var P, E := player.Sheet(), enemy.Sheet();
    ghost var whole := Rounds(P, E, player.State(), enemy.State(), draws, NoTally);
    var tally := NoTally;
    var i := 0;
    while i < |draws|
      invariant 0 <= i <= |draws|
      invariant whole == Rounds(P, E, player.State(), enemy.State(), draws[i..], tally)
      decreases |draws| - i
    {
      assert draws[i..][0] == draws[i] && draws[i..][1..] == draws[i + 1..];
      var status;
      status, tally := PlayRound(player, enemy, draws[i], tally);
      if status != Ongoing {
        return Conclude(Bout(status, player.State(), enemy.State(), tally), player, enemy);
      }
      i := i + 1;
    }
    return OutOfDraws;
  }

  /** A fight `Play` returns has at least one round, non-negative damage
      totals, no more exhausted turns than rounds, and the two characters in
      opposite roles, with the loser dead. */
  lemma FinishedFight(player: Character, enemy: Character, pv: Vitals, ev: Vitals, draws: seq<RoundDraws>)
    requires player != enemy
    requires AllFit(player.Sheet(), enemy.Sheet(), draws)
    ensures var b := Rounds(player.Sheet(), enemy.Sheet(), pv, ev, draws, NoTally);
      var r := Conclude(b, player, enemy);
      r.Finished? ==>
        && r.fight.rounds >= 1
        && r.fight.damageDealt >= 0 && r.fight.damageReceived >= 0
        && r.fight.exhaustedTurns <= r.fight.rounds
        && r.fight.winner != r.fight.loser
        && (r.fight.winner == player || r.fight.winner == enemy)
        && (r.fight.loser == player || r.fight.loser == enemy)
        && (r.fight.loser == enemy ==> Dead(b.enemy))
        && (r.fight.loser == player ==> Dead(b.player) && !Dead(b.enemy))
  {
    var P, E := player.Sheet(), enemy.Sheet();
    TallyGrows(P, E, pv, ev, draws, NoTally);
    WinnerAndLoser(P, E, pv, ev, draws, NoTally);
  }

  /** Characters made from presets never make a fight raise. */
  lemma PresetFightsNeverFail(p: CharacterType, e: CharacterType, ev: Vitals, draws: seq<RoundDraws>)
    requires AllFit(Preset(p), Preset(e), draws)
    ensures !Rounds(Preset(p), Preset(e), Rested(Preset(p)), ev, draws, NoTally).status.Raised?
  {
    ArmedNeverRaise(Preset(p), Preset(e), Rested(Preset(p)), ev, draws, NoTally);
  }

  /** Every die showing its highest face, with a fighter against a fresh
      archer. */
  const HighestRolls := RoundDraws(20, SwordDraw(12, 12), NoDraw, 20, BowDraw(100), ShieldDraw(100))

  /** On the highest rolls a fighter lands 12 + 12 + 12 = 36, of which leather
      stops 9, on every turn it is not exhausted, while the shield blocks the
      archer's every arrow: the fighter wins in the fourth round, one of which
      it loses to exhaustion, having dealt 3 * 27 = 81 and taken nothing. */
  lemma HighestRollsFighterBeatsArcher()
    ensures var b := Rounds(Preset(Fighter), Preset(Archer), Rested(Preset(Fighter)), Rested(Preset(Archer)),
                            [HighestRolls, HighestRolls, HighestRolls, HighestRolls], NoTally);
      b.status == PlayerWon && b.tally == Tally(4, 81, 0, 1) && b.enemy.health == -1 && b.player.health == 90
  {
    HighestRound1();
    HighestRound2();
    HighestRound3();
    HighestRound4();
  }

  /** The rounds of the highest-rolls fight, one at a time. */
  lemma HighestRound1()
    ensures var H := HighestRolls;
      Rounds(Preset(Fighter), Preset(Archer), Vitals(90, 100), Vitals(80, 100), [H, H, H, H], NoTally)
      == Rounds(Preset(Fighter), Preset(Archer), Vitals(90, 55), Vitals(53, 55), [H, H, H], Tally(1, 27, 0, 0))
  {
    var H := HighestRolls;
    assert [H, H, H, H] == [H] + [H, H, H];
    HighestStep(Vitals(90, 100), Vitals(80, 100), NoTally, [H, H, H],
                Bout(Ongoing, Vitals(90, 55), Vitals(53, 55), Tally(1, 27, 0, 0)));
  }

  lemma HighestRound2()
    ensures var H := HighestRolls;
      Rounds(Preset(Fighter), Preset(Archer), Vitals(90, 55), Vitals(53, 55), [H, H, H], Tally(1, 27, 0, 0))
      == Rounds(Preset(Fighter), Preset(Archer), Vitals(90, 10), Vitals(26, 10), [H, H], Tally(2, 54, 0, 0))
  {
    var H := HighestRolls;
    assert [H, H, H] == [H] + [H, H];
    HighestStep(Vitals(90, 55), Vitals(53, 55), Tally(1, 27, 0, 0), [H, H],
                Bout(Ongoing, Vitals(90, 10), Vitals(26, 10), Tally(2, 54, 0, 0)));
  }

  lemma HighestRound3()
    ensures var H := HighestRolls;
      Rounds(Preset(Fighter), Preset(Archer), Vitals(90, 10), Vitals(26, 10), [H, H], Tally(2, 54, 0, 0))
      == Rounds(Preset(Fighter), Preset(Archer), Vitals(90, 100), Vitals(26, 100), [H], Tally(3, 54, 0, 1))
  {
    var H := HighestRolls;
    assert [H, H] == [H] + [H];
    HighestStep(Vitals(90, 10), Vitals(26, 10), Tally(2, 54, 0, 0), [H],
                Bout(Ongoing, Vitals(90, 100), Vitals(26, 100), Tally(3, 54, 0, 1)));
  }

  lemma HighestRound4()
    ensures Rounds(Preset(Fighter), Preset(Archer), Vitals(90, 100), Vitals(26, 100), [HighestRolls], Tally(3, 54, 0, 1))
      == Bout(PlayerWon, Vitals(90, 55), Vitals(-1, 100), Tally(4, 81, 0, 1))
  {
    var H := HighestRolls;
    assert [H] == [H] + [];
    HighestStep(Vitals(90, 100), Vitals(26, 100), Tally(3, 54, 0, 1), [],
                Bout(PlayerWon, Vitals(90, 55), Vitals(-1, 100), Tally(4, 81, 0, 1)));
  }

  /** One round of the highest-rolls fight ending in `b`, followed by `rest`. */
  lemma HighestStep(pv: Vitals, ev: Vitals, t: Tally, rest: seq<RoundDraws>, b: Bout)
    requires forall i | 0 <= i < |rest| :: rest[i] == HighestRolls
    requires Round(Preset(Fighter), Preset(Archer), pv, ev, HighestRolls, t) == b
    ensures AllFit(Preset(Fighter), Preset(Archer), [HighestRolls] + rest)
    ensures Rounds(Preset(Fighter), Preset(Archer), pv, ev, [HighestRolls] + rest, t)
         == if b.status == Ongoing then Rounds(Preset(Fighter), Preset(Archer), b.player, b.enemy, rest, b.tally) else b
  {
    assert ([HighestRolls] + rest)[1..] == rest;
  }
}

# Turn-based combat engine, modelled in Dafny

This project models the combat core of a small PHP console game. Two characters fight round by round until one of them dies.

- A character has a fixed maximum health, a base damage, one attack strategy and one armor strategy. It also has a current health and a current stamina, which change as it fights.
- Attacking costs 25 stamina plus a d20. If that would leave no stamina, the pool refills to 100 and the turn deals nothing (an exhausted turn). Otherwise the attack strategy decides the damage.
- The defender's armor strategy reduces the hit. Whatever gets through, never less than zero, comes off the defender's health. Health has no floor at zero, and "dead" means health at or below zero.
- Two fluent builders assemble characters. The second one scales the health by 1.5. A factory picks between them with a d100.
- The game creates the three preset character types and runs the fight loop.

Every die is an input to the operation that throws it. A roll of an n-sided die is any integer in [1, n] (`Dice.Rolled`). The model therefore states what every outcome of the dice does, and makes no claim about probabilities.

Files and modules:

- `dice.dfy` (`Dice`): rolls.
- `results.dfy` (`Results`): the errors the engine can raise, and the `Result`/`Option` wrappers.
- `attacks.dfy` (`Attacks`): the sword, the fire bolt, the bow and the multi-attack.
- `armors.dfy` (`Armors`): leather, the shield and the ice block.
- `characters.dfy` (`Characters`): the `Character` class, and the pure functions its methods are proved against.
- `fights.dfy` (`Fights`): one round and a run of rounds as functions of the dice, with the invariants of the loop.
- `game.dfy` (`Game`): the presets, character creation and the imperative fight loop `Play`.
- `character_types.dfy` (`CharacterTypes`): the character-type enumeration.
- `builders.dfy` (`Builders`): the two builders and the factory.

Behaviours of the source worth knowing:

- `build()` with zero attacks does not fail. It wraps the empty list in a multi-attack, and that multi-attack raises only when it is asked to pick an attack (`Attacks.PerformAttack` returns `Err(EmptyAttackList)`). The stamina paid for that attack stays paid.
- `Game.createCharacter` calls the `Character` constructor directly. It uses neither a builder nor the factory.
- `Game.play` notifies no observer.
- A character has no level and no experience.
- The exhausted-turn counter counts every attack of the player that returns 0, whatever the cause. `Attacks.NeverZero` says exactly which strategies can return 0 on their own (`Attacks.ZeroDamageReachable`). None of the presets can (`Game.Preset`). For a player whose strategy never returns 0, the counter equals the number of exhausted turns (`Fights.ExhaustedTurnsCounted`).

## Model

| member | source | states |
|---|---|---|
| `Attacks.SwordDamage` | src/Attack/TwoHandedSword.php:15-18 | The sword deals between base + 2 and base + 24, always more than the base damage |
| `Attacks.SwordOutcomes` | src/Attack/TwoHandedSword.php:17 | Every value from base + 2 to base + 24 can be dealt by some pair of d12, and no other value can |
| `Attacks.SwordTracksBase` | src/Attack/TwoHandedSword.php:17 | For fixed dice, the sword's damage rises one for one with the base damage |
| `Attacks.FireBoltDamage` | src/Attack/FireBolt.php:15-18 | The fire bolt deals between 3 and 30 (positive, so never an apparent exhausted turn) |
| `Attacks.FireBoltOutcomes` | src/Attack/FireBolt.php:17 | Exactly the values 3 to 30 can be dealt, whatever the base damage |
| `Attacks.FireBoltIgnoresBase` | src/Attack/FireBolt.php:15-17 | The fire bolt's result does not depend on the base damage |
| `Attacks.BowDamage` | src/Attack/Bow.php:15-18 | A d100 of 71 to 100 triples the base damage and 70 or below leaves it unchanged (for a non-zero base, triple exactly on 71 to 100). So the bow deals the base damage or three times it; at least the base for a non-negative base, and 0 for a base of 0 |
| `Attacks.BowOutcomes` | src/Attack/Bow.php:17 | The possible results are exactly the base damage and three times it |
| `Attacks.PerformAttack` | src/Attack/MultiAttack.php:16-21 | The only failure is an empty multi-attack list. A strategy with no empty multi-attack inside always returns a value. A strategy that satisfies `NeverZero` never returns 0 |
| `Attacks.SomeDraw` | src/Dice.php:14-17 | Every strategy has a fitting throw of the dice, so requiring one excludes no strategy |
| `Attacks.EmptyMultiAttackFails` | src/Attack/MultiAttack.php:18 | A multi-attack over an empty list can only raise, because picking from an empty list fails |
| `Attacks.MultiAttackOutcomes` | src/Attack/MultiAttack.php:18-20 | A non-empty multi-attack picks one strategy at an in-bounds index and passes it the base damage unchanged. Its possible outcomes are exactly the union of its strategies' outcomes |
| `Attacks.SingleMultiAttack` | src/Attack/MultiAttack.php:18-20 | A one-element multi-attack behaves exactly like its element, throw by throw and in its possible outcomes |
| `Attacks.ZeroDamageReachable` | src/Game.php:27-31 | A strategy fails `NeverZero` exactly when some throw makes it deal 0, which the loop would count as an exhausted turn |
| `Armors.LeatherReduction` | src/Armor/Leather.php:9-12 | Leather absorbs the floor of a quarter of the damage (4r <= d < 4r + 4). For non-negative damage that is between 0 and the damage |
| `Armors.LeatherOutcomes` | src/Armor/Leather.php:11 | Leather is deterministic: its only possible reduction is the floor of damage / 4 |
| `Armors.LeatherMonotone` | src/Armor/Leather.php:11 | More damage never earns less leather reduction |
| `Armors.ShieldReduction` | src/Armor/Shield.php:15-18 | A d100 of 81 to 100 absorbs the whole hit and 80 or below absorbs nothing (for a non-zero hit, the whole hit exactly on 81 to 100). The shield never absorbs anything in between |
| `Armors.ShieldOutcomes` | src/Armor/Shield.php:17 | Both the full block and the zero block occur, and nothing else does; which roll gives which is stated on `Armors.ShieldReduction` |
| `Armors.IceBlockReduction` | src/Armor/IceBlock.php:15-18 | The ice block absorbs between 2 and 16, always positive |
| `Armors.IceBlockOutcomes` | src/Armor/IceBlock.php:17 | Exactly 2 to 16 can be absorbed, whatever the damage, so the reduction can exceed the hit |
| `Armors.IceBlockIgnoresDamage` | src/Armor/IceBlock.php:15-17 | The ice block's reduction does not depend on the incoming damage |
| `Armors.Reduction` | src/Armor/CanReduceAttack.php:9 | For non-negative damage, leather and the shield absorb between 0 and the damage. The ice block absorbs between 2 and 16. A negative hit is never reduced below itself |
| `Characters.StaminaCost` | src/Character/Character.php:33 | An attack costs between 26 and 45 stamina |
| `Characters.ExhaustedBy` | src/Character/Character.php:33-36 | An attack exhausts when paying its cost leaves no stamina. At 25 stamina or less every roll exhausts, and above 45 none does |
| `Characters.StaminaAfterAttack` | src/Character/Character.php:33-40 | After an exhausted attack, stamina is reset to exactly 100. Otherwise it is the old stamina less the cost, so it stays positive and strictly below the old value. It never rises above 100 from at most 100 |
| `Characters.AttackOutcome` | src/Character/Character.php:31-43 | An exhausted attack returns 0. Any other attack returns what the strategy's `PerformAttack` gives on the base damage, error included. Unless the strategy can deal 0 on its own, 0 means an exhausted turn. A strategy with no empty multi-attack never raises |
| `Characters.DamageTaken` | src/Character/Character.php:45-52 | Damage taken is max(damage - reduction, 0). It is never negative and never more than the incoming damage (0 for a negative hit) |
| `Characters.Character.constructor` | src/Character/Character.php:14-26 | A new character has the given readonly stats, full health and 100 stamina |
| `Characters.Character.Attack` | src/Character/Character.php:31-43 | Health is unchanged. Stamina and the result follow `StaminaAfterAttack` and `AttackOutcome`: an exhausted turn resets stamina to 100 and returns 0 without consulting the strategy; any other turn lowers stamina by the cost and returns the strategy's result |
| `Characters.Character.ReceiveAttack` | src/Character/Character.php:45-52 | Returns `DamageTaken` and lowers health by exactly that amount, never raising it and with no floor at zero. Stamina is unchanged |
| `Characters.Character.Rest` | src/Character/Character.php:69-74 | Health becomes the maximum and stamina 100, whatever they were, so resting is idempotent |
| `Fights.Round` | src/Game.php:25-51 | One round adds one to the round count. It adds an exhausted turn exactly when the player's attack returned 0. Each side's health falls by the damage recorded against it. A dead enemy ends the round before its attack, so it keeps its stamina. A living round leaves both sides alive |
| `Fights.Rounds` | src/Game.php:25-52 | A run of rounds plays at least one round for every decided outcome, and never plays more rounds than there are dice for |
| `Fights.TallyGrows` | src/Game.php:26-44 | Damage dealt and damage received never fall, and exhausted turns never outnumber rounds |
| `Fights.HealthMatchesTally` | src/Game.php:33-44 | At the end, each side's health equals its starting health less the damage the fight recorded against it |
| `Fights.WinnerAndLoser` | src/Game.php:36-50 | When the player wins, the enemy is dead, and the player is alive if it started alive. When the enemy wins, the player is dead and the enemy alive |
| `Fights.StaminaBounded` | src/Character/Character.php:33-39 | Starting from stamina in range, no fight takes either side's stamina above 100, and the player's stays positive |
| `Fights.ArmedNeverRaise` | src/Game.php:27-43 | Characters whose strategies hold no empty multi-attack never make a fight raise |
| `Fights.ExhaustedTurnsCounted` | src/Game.php:27-31 | If the player's strategy never deals 0 on its own, the exhausted-turn counter equals the player's exhausted turns in the rounds played. The enemy's are never counted |
| `Fights.EnemyAlreadyDead` | src/Game.php:21-40 | The enemy is not rested, so an enemy that starts dead loses in the first round, unless the player's strategy raises |
| `Game.Preset` | src/Game.php:55-63 | All three presets have positive health and base damage, no empty multi-attack, and a strategy that never deals 0 on its own |
| `Game.CreateCharacter` | src/Game.php:55-63 | Fighter (90, 12, sword, shield), archer (80, 10, bow, leather) and mage (70, 8, fire bolt, ice block), each fresh and at full health and stamina |
| `Game.DidPlayerDie` | src/Game.php:65-68 | A character is dead exactly when its current health is at or below zero, the same test as `Fights.Dead` on its state |
| `Game.Conclude` | src/Game.php:36-50 | A decided run becomes a finished fight with the run's counters; the player wins when the enemy died and loses when it died itself. A raised error is passed on, and an undecided run is out of dice |
| `Game.PlayRound` | src/Game.php:26-51 | The loop body: the counters and both characters' health and stamina change exactly as `Fights.Round` prescribes, and the round's outcome is reported |
| `Game.Play` | src/Game.php:19-53 | Only the player is rested. The result and both characters' final health and stamina are those of `Fights.Rounds`. The winner and loser are the inputs in the roles the deciding death gives them. "Dead" is `DidPlayerDie`: health at or below zero |
| `Game.FinishedFight` | src/Game.php:36-50 | A returned fight has at least one round and non-negative damage totals. It has no more exhausted turns than rounds. The winner and loser are the two inputs in opposite roles, and the loser is dead |
| `Game.PresetFightsNeverFail` | src/Game.php:57-60 | A fight between preset characters never raises |
| `Game.HighestRollsFighterBeatsArcher` | src/Game.php:19-53 | With every die on its top face, a fighter beats a fresh archer in 4 rounds: 36 - 9 = 27 per hit, one exhausted turn, 81 dealt, 0 received |
| `CharacterTypes.CharacterType.Value` | src/Character/CharacterType.php:9-11 | Each backing value is a non-empty lower-case word |
| `CharacterTypes.CharacterType.Name` | src/Character/CharacterType.php:13-20 | Every case has a display name: its backing value with the first letter capitalised |
| `CharacterTypes.From` | src/Character/CharacterType.php:7-11 | Reading a backing value gives the case with that value, and unknown values give none |
| `CharacterTypes.Choices` | src/Character/CharacterType.php:25-34 | The choices are the backing values of the cases, one per case, in declaration order |
| `CharacterTypes.CasesRoundTrip` | src/Character/CharacterType.php:7-11 | The three cases are all listed, their values are distinct, and reading back a listed value gives the case at the same position |
| `CharacterTypes.FromInvertsValue` | src/Character/CharacterType.php:7-11 | `From(v)` is case `t` exactly when `v` is `t`'s backing value |
| `Builders.CombineAttacks` | src/Builder/CharacterBuilder.php:56-60 | One attack is used as it is; any other count, zero included, is wrapped in order in a multi-attack. The result can fight without raising exactly when the list is non-empty and each element can |
| `Builders.CombineAttacksOutcomes` | src/Builder/CharacterBuilder.php:56-60 | One attack is used unwrapped and any other count is wrapped in order. Unwrapping changes no possible outcome |
| `Builders.Assemble` | src/Builder/CharacterBuilder.php:54-68 | Building succeeds exactly when all four fields are set, with the stored health, damage and armor. Otherwise it raises for the first unset field in the order attacks, maxHealth, baseDamage, armor |
| `Builders.ScaleHealth` | src/Builder/CharacterGreaterHealthBuilder.php:23 | The stored health is 1.5 times the argument truncated towards zero, and at least the argument for a non-negative argument |
| `Builders.CharacterBuilder.constructor` | src/Builder/CharacterBuilder.php:21-24 | A new builder has no field set |
| `Builders.CharacterBuilder.SetMaxHealth` | src/Builder/CharacterBuilder.php:26-31 | Stores the health, leaves the other fields alone and returns the same builder |
| `Builders.CharacterBuilder.SetBaseDamage` | src/Builder/CharacterBuilder.php:33-38 | Stores the base damage, leaves the other fields alone and returns the same builder |
| `Builders.CharacterBuilder.SetAttack` | src/Builder/CharacterBuilder.php:40-45 | Replaces the attack list (the last call wins), leaves the other fields alone and returns the same builder |
| `Builders.CharacterBuilder.SetArmor` | src/Builder/CharacterBuilder.php:47-52 | Stores the armor, leaves the other fields alone and returns the same builder |
| `Builders.CharacterBuilder.Build` | src/Builder/CharacterBuilder.php:54-68 | Returns a fresh character with the `Assemble`d stats at full health and stamina, or the error of the first unset field in the order attacks, maxHealth, baseDamage, armor |
| `Builders.CharacterGreaterHealthBuilder.constructor` | src/Builder/CharacterGreaterHealthBuilder.php:14-19 | A new builder has no field set |
| `Builders.CharacterGreaterHealthBuilder.SetMaxHealth` | src/Builder/CharacterGreaterHealthBuilder.php:21-26 | Stores the scaled argument. Scaling does not compound and the last call wins |
| `Builders.CharacterGreaterHealthBuilder.SetBaseDamage` | src/Builder/CharacterGreaterHealthBuilder.php:28-33 | Stores the base damage unscaled, leaves the other fields alone and returns the same builder |
| `Builders.CharacterGreaterHealthBuilder.SetAttack` | src/Builder/CharacterGreaterHealthBuilder.php:35-40 | Replaces the attack list, leaves the other fields alone and returns the same builder |
| `Builders.CharacterGreaterHealthBuilder.SetArmor` | src/Builder/CharacterGreaterHealthBuilder.php:42-47 | Stores the armor, leaves the other fields alone and returns the same builder |
| `Builders.CharacterGreaterHealthBuilder.Build` | src/Builder/CharacterGreaterHealthBuilder.php:49-63 | Same rule as the default builder: the single-versus-multi-attack choice and the same errors |
| `Builders.BuildersAgreeButForHealth` | src/Builder/CharacterGreaterHealthBuilder.php:21-63 | Given the same calls, the two builders make the same character except that the greater-health one scales the health |
| `Builders.SelectBuilder` | src/Builder/CharacterBuilderFactory.php:22-26 | A d100 of 91 to 100 selects the greater-health builder, and 1 to 90 selects the default one |
| `Builders.CreateBuilder` | src/Builder/CharacterBuilderFactory.php:20-27 | One d100 per call. The call returns a fresh builder of the selected kind with no field set. In the source the rolls 1 to 90 raise instead (see "## Left out") |

## Left out

- Randomness itself is left out. Every roll is an input in [1, sides], so the model makes no claim about probabilities: the 30% bow critical, the 20% shield block, the 10% greater-health builder, or a multi-attack picking each strategy equally often. A failure of the random source (`RandomException`) is not modelled either.
- Dice the loop does not reach are ignored. Examples are the strategy dice of an exhausted attacker, or the enemy's dice after its death. The source never throws those dice. Because rolls are independent, this changes no outcome.
- Game.Play: the source loop has no round cap and need not end. The model runs one round per element of `draws` and returns `OutOfDraws` when they run out before a death.
- Game.Play: requires the player and the enemy to be different objects. The console command always fights a freshly created enemy. A character fighting itself is not modelled.
- Game.Play: `Fight.php` is not part of this model. The fight is a record of the four counters and the winner and loser, as the loop sets them.
- The `MAGE_ARCHER` arm of `createCharacter` is not modelled. It names a case that the character-type enumeration does not declare, and it is unreachable for the three declared cases.
- Observers, experience, levels and the fight-starting event are not modelled. The loop never notifies anyone, and the character has no level or experience state.
- The nickname, its getter and setter, and the console command (prompts, output, delays, random enemy choice) are not modelled. They are presentation only.
- The builder interface, the factory's logger and PHP's return-type check are not modelled. The factory is modelled as its selection rule. The static `CharacterBuilder::new()` is the builder's constructor.
- CreateBuilder: in the source, `CharacterBuilder` does not implement the `CanBuildCharacter` interface that `createBuilder` declares as its return type (src/Builder/CharacterBuilder.php:12, src/Builder/CharacterBuilderFactory.php:20). So on every roll from 1 to 90 `createBuilder` raises a TypeError instead of returning the default builder. `Builders.CreateBuilder` returns the default builder there, as the factory's selection rule intends.
- CharacterTypes.From: an unknown value gives `None`, where the enumeration's built-in `from` raises a `ValueError`.
- `getCurrentHealth` is read as the `currentHealth` field of `Characters.Character`.
- Attack and armor strategies are a closed set of variants, not open interfaces.
- Builders.ScaleHealth: exact integer arithmetic stands in for the float product. It agrees with `(int)($m * 1.5)` only while the product is exactly representable as a double.
- Armors.LeatherReduction: exact integer arithmetic stands in for `floor($damage * 0.25)`. It agrees while the product is exactly representable as a double.
- PHP's integer overflow into floats is not modelled. Integers are unbounded.

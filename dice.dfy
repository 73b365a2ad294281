/** Dice rolls.

    Every random draw of the engine goes through a roll of an n-sided die,
    which yields an integer in [1, n]. The model never draws: each roll is an
    input of the operation that uses it, constrained by `Rolled`. */
module Dice {

  /** `r` is a value an n-sided die can show. */
  predicate Rolled(r: int, sides: int) {
    1 <= r <= sides
  }
}

/** The record types shared by the store and its callers. */
module Types {
  /** State of the puzzle being played; `Won` and `Lost` are terminal. */
  datatype GameStatus = Playing | Won | Lost

  /**
   * Lifetime statistics. `guessDistribution` maps a number of attempts to the
   * number of puzzles won in exactly that many attempts.
   */
  datatype DailyStats = DailyStats(
    played: int,
    won: int,
    currentStreak: int,
    maxStreak: int,
    guessDistribution: map<int, int>)
}

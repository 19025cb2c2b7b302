/** The game's fixed sizes (GAME_CONFIG) and pattern names (PATTERN_NAMES). */
module Constants {
  /** Number of guesses a player gets; also the largest hint level. */
  const MAX_HINTS: nat := 3
  /** Number of leading numbers shown when a puzzle starts. */
  const INITIAL_VISIBLE_COUNT: nat := 6
  /** Number of terms in every daily sequence. */
  const TOTAL_LENGTH: nat := 9

  const ARITHMETIC_NAME: string := "Arithmetic"
  const GEOMETRIC_NAME: string := "Geometric"
  const FIBONACCI_NAME: string := "Fibonacci"
  const SQUARE_NAME: string := "Square"
  const PRIME_NAME: string := "Prime"
  const ALTERNATING_NAME: string := "Alternating"
  const SUM_PREVIOUS_NAME: string := "Sum of Previous"
  const INTERLEAVED_NAME: string := "Interleaved"
}

# Sequences game — a Dafny model of the daily puzzle and its store

The game shows nine integers from one of eight number patterns. The first six
are visible. The player has three guesses for the hidden numbers. Each wrong
guess reveals one more number, and the third wrong guess loses. Two parts of
the program hold its logic, and this project models both.

- **The daily sequence generator** (`src/lib/generator.ts`).
  - A date becomes the integer `yyyymmdd`, which seeds a mulberry32 generator (`SeeededRNG`).
  - A loop of at most twenty attempts picks a pattern family, draws its nine terms and checks them against the barriers of `isValidSequence`.
  - If no attempt passes, the result is the fixed sequence `[2, 4, …, 18]`.
- **The game store** (`src/store/useGameStore.ts`).
  - It holds the puzzle being played, the guesses and hint level, the finished puzzles and the lifetime statistics.
  - Its actions are `initGame`, `loadPuzzleByDate`, `submitGuess` and `resetStats`.

Modules, one per file; a module that calls into another imports it.

| module | file | what it holds |
|---|---|---|
| `Wrappers` | wrappers.dfy | `Option` |
| `Ints` | ints.dfy | `Math.max` and `Math.min` on integers |
| `Constants` | constants.dfy | `MAX_HINTS`, `INITIAL_VISIBLE_COUNT`, `TOTAL_LENGTH`, the pattern names |
| `Types` | types.dfy | `GameStatus`, `DailyStats` |
| `Rng` | rng.dfy | the generator state as a 32-bit word. The pure functions `Seeded`, `Advance`, `Sample`, `RangeDraw` and `PickIndex`. The class `SeededRng`, whose methods advance its `seed` field and are proved equal to those functions. |
| `Decimal` | decimal.dfy | decimal numerals, `padStart(2, '0')` and `parseInt`, which the date seed is built from |
| `Sorting` | sorting.dfy | the three-element ascending sort used by the sum-of-previous family |
| `Families` | families.dfy | the eight families. Each has a function for its terms, a function for its draws from a generator state (`…Gen`), and a method that draws from a `SeededRng` and is proved equal to that function. |
| `Generator` | generator.dfy | the rule each family's output obeys, the validity barriers, and the selection loop. The loop is specified by `SelectFrom`, the first accepted attempt among those left. `getDailySequence` is the method `GetDailySequence`, proved equal to the function `DailySequence`. |
| `Stats` | stats.dfy | how a finished game updates the statistics, and what statistics replayed from the initial ones mean |
| `Store` | store.dfy | the store state as a value, a pure step function per action, runs of actions, the invariant every reachable state keeps, and the class `GameStore` |
| `SharedStats` | shared_stats.dfy | the statistics update as written, with the distribution as a shared object (see Findings) |

How the store is proved:
- Each `GameStore` method ensures `State() == After…(old(State()), …)`, where `After…` is the pure step function of the action.
- `InitialInvariant` and the `…Preserves` lemmas prove the invariant on the step functions. `RunInvariant` chains them over any run of actions (`Run`), so the invariant holds in every state the object can reach.
- `RunStats` ties the statistics of a run to the games its guesses finish since the last reset (`Outcomes`).
- The two loading actions compute their puzzle with `GetDailySequence` and pass it to the step function.
- The remaining properties are proved on the step functions.

Where the model follows the code's exact comparisons:
- The magnitude barrier rejects only `|n| > 10000`, so a term equal to 10000 is accepted.
- The integer barrier never rejects in the model, because every term is an integer.

## Model

| member | source | states |
|---|---|---|
| Rng.Scale | src/lib/generator.ts:30 | `floor(u / 2^32 * (max - min + 1)) + min` lies in `[min, max]` whenever `min <= max` |
| Rng.RangeDraw | src/lib/generator.ts:29-31 | `range(min, max)` from generator state `s` lies in `[min, max]` whenever `min <= max` |
| Rng.PickIndex | src/lib/generator.ts:33-35 | the index `pick` uses on a non-empty array is in bounds |
| Rng.SeededRng.constructor | src/lib/generator.ts:14-19 | the state after construction is the mulberry32 mix of `seed + 0x6D2B79F5`, taken modulo 2^32 |
| Rng.SeededRng.Next | src/lib/generator.ts:21-27 | `next()` advances the state by `0x6D2B79F5` and returns the mix of the new state |
| Rng.SeededRng.Range | src/lib/generator.ts:29-31 | `range` advances the state once and returns a value in `[min, max]`, namely `RangeDraw` of the old state |
| Rng.SeededRng.Pick | src/lib/generator.ts:33-35 | `pick` advances the state once and returns the element at the in-bounds index `range(0, len - 1)` |
| Decimal.Numeral | src/lib/generator.ts:170 | `String(n)` is a non-empty digit string with no leading zero, one digit long exactly when `n < 10` |
| Decimal.PadStart2 | src/lib/generator.ts:170 | `padStart(2, '0')` puts `'0'`s in front of a shorter string up to two characters and leaves a longer one alone |
| Decimal.ParseNumeral | src/lib/generator.ts:169-172 | `parseInt` reads back the number `String` wrote |
| Decimal.ParsePadded | src/lib/generator.ts:170 | a number below 100, padded to two digits, reads back as itself |
| Decimal.ParseAppend | src/lib/generator.ts:169-172 | reading concatenated digit strings shifts the first part left by the length of the second |
| Sorting.SortAscending3 | src/lib/generator.ts:112-113 | sorting three numbers with `(a, b) => a - b` gives them in ascending order, as a permutation of the input |
| Families.ArithmeticTerms | src/lib/generator.ts:54-58 | `length` terms, starting at `start`, each the previous plus `diff` |
| Families.GenerateArithmetic | src/lib/generator.ts:54-58 | the generator's numbers, and the state it leaves the shared generator in, are those of `ArithmeticGen` on the old state (two draws: a start in 1..20 and a difference in 2..12) |
| Families.GeometricTerms | src/lib/generator.ts:60-64 | `length` terms, starting at `start`, each the previous times `ratio` |
| Families.GenerateGeometric | src/lib/generator.ts:60-64 | the generator's numbers, and the state it leaves the shared generator in, are those of `GeometricGen` on the old state (two draws: a start in 1..5 and a ratio in 2..4) |
| Families.FibonacciTerms | src/lib/generator.ts:66-74 | at least two terms, `max(2, length)` in all, starting with the two seeds, each later one the sum of the two before it |
| Families.GenerateFibonacci | src/lib/generator.ts:66-74 | the generator's numbers, and the state it leaves the shared generator in, are those of `FibonacciGen` on the old state (two draws, in 0..5 and 1..5, then the `push` loop) |
| Families.SquareTerms | src/lib/generator.ts:76-79 | `length` squares of consecutive roots from `start`, each the previous plus the next odd number |
| Families.GenerateSquares | src/lib/generator.ts:76-79 | the generator's numbers, and the state it leaves the shared generator in, are those of `SquareGen` on the old state (one draw of the first root, in 1..10) |
| Families.PrimeTerms | src/lib/generator.ts:81-88 | `slice` of the 36-entry prime table: every term is the table entry at `startIdx + i`, with `length` terms when the slice fits |
| Families.GeneratePrimes | src/lib/generator.ts:81-88 | the generator's numbers, and the state it leaves the shared generator in, are those of `PrimeGen` on the old state (one draw of the start index, in `0..max(0, 36 - length)`) |
| Families.AlternatingTerms | src/lib/generator.ts:90-108 | at least one term, starting at `start`; odd steps add `op1` and even steps subtract `op2` |
| Families.AlternatingClosedForm | src/lib/generator.ts:98-105 | term `i` is `start + (i / 2) * (op1 - op2)`, plus `op1` when `i` is odd |
| Families.GenerateAlternating | src/lib/generator.ts:90-108 | the generator's numbers, and the state it leaves the shared generator in, are those of `AlternatingGen` on the old state (three draws, then the `current` update loop) |
| Families.SumPreviousTerms | src/lib/generator.ts:110-125 | at least three terms; the first three are the seeds, each later one the sum of the three before it |
| Families.ExtendBySums | src/lib/generator.ts:119-123 | the `push` loop yields exactly the sum-of-previous terms of the seeds |
| Families.GenerateSumPrevious | src/lib/generator.ts:110-125 | the generator's numbers, and the state it leaves the shared generator in, are those of `SumPreviousGen` on the old state (three draws in 1..3, sorted ascending, then extended by sums) |
| Families.InterleaveRounds | src/lib/generator.ts:147-151 | the interleaving loop alternates the two lists while both last, then continues with the rest of the first |
| Families.InterleavedTerms | src/lib/generator.ts:127-153 | exactly `length` terms; even positions are arithmetic A and odd positions arithmetic B |
| Families.GenerateInterleaved | src/lib/generator.ts:127-153 | the generator's numbers, and the state it leaves the shared generator in, are those of `InterleavedGen` on the old state (four draws, `ceil(length / 2)` terms of A and `floor(length / 2)` of B) |
| Generator.Generate | src/lib/generator.ts:156-165 | every family yields exactly `length` numbers for lengths 3 to 36, so nine for the game |
| Generator.GenerateFamily | src/lib/generator.ts:179 | `pattern.gen(rng, length)` gives the numbers and generator state of the chosen family's function |
| Generator.InterleavedStrides | src/lib/generator.ts:140-151 | each interleaved term is the term two places back plus diffA (even positions) or diffB (odd positions) |
| Generator.ArithmeticFollowsRule | src/lib/generator.ts:54-58 | every nine-term arithmetic draw starts in 1..20 and has a constant difference in 2..12 |
| Generator.GeometricFollowsRule | src/lib/generator.ts:60-64 | every nine-term geometric draw starts in 1..5 and has a constant ratio in 2..4 |
| Generator.SquareFollowsRule | src/lib/generator.ts:76-79 | every nine-term square draw is the squares of nine consecutive roots, starting from a root in 1..10 |
| Generator.PrimeFollowsRule | src/lib/generator.ts:81-88 | every nine-term prime draw is nine consecutive entries of the prime table |
| Generator.AlternatingFollowsRule | src/lib/generator.ts:90-108 | every nine-term alternating draw adds 2..5 on odd steps and subtracts 1..3 on even ones, starting in 1..20 |
| Generator.SumPreviousFollowsRule | src/lib/generator.ts:110-125 | every nine-term sum-of-previous draw starts with three ascending seeds in 1..3, and each later term is the sum of the three before it |
| Generator.InterleavedFollowsRule | src/lib/generator.ts:127-153 | every nine-term interleaved draw interleaves A (start 1..10, step 1..5) with B (start 10..20, step 2..5) |
| Generator.GenerateFollowsRule | src/lib/generator.ts:156-165 | whatever the family and generator state, its nine numbers follow that family's rule |
| Generator.BeyondMagnitude | src/lib/generator.ts:40 | `numbers.some(n => Math.abs(n) > 10000)` holds exactly when some term exceeds 10000 in magnitude |
| Generator.ValueSetMembers | src/lib/generator.ts:46 | `new Set(numbers)` holds exactly the values of the sequence |
| Generator.DistinctCount | src/lib/generator.ts:46-47 | the set has two or more members exactly when two positions hold different numbers |
| Generator.ValidSequenceIff | src/lib/generator.ts:38-50 | the barriers pass exactly when every term is within 10000 in magnitude and the terms are not all equal |
| Generator.ArithmeticValid | src/lib/generator.ts:54-58 | every arithmetic sequence following its rule passes the barriers (largest term 20 + 8·12 = 116) |
| Generator.FibonacciValid | src/lib/generator.ts:66-74 | every Fibonacci sequence following its rule passes the barriers |
| Generator.SquareValid | src/lib/generator.ts:76-79 | every square sequence following its rule passes the barriers (largest term 18² = 324) |
| Generator.PrimesAscending | src/lib/generator.ts:82-85 | the prime table is strictly ascending, with entries from 2 to 151 |
| Generator.PrimeValid | src/lib/generator.ts:81-88 | every prime window passes the barriers |
| Generator.AlternatingValid | src/lib/generator.ts:90-108 | every alternating sequence following its rule passes the barriers |
| Generator.SumPreviousValid | src/lib/generator.ts:110-125 | every sum-of-previous sequence following its rule passes the barriers |
| Generator.InterleavedValid | src/lib/generator.ts:127-153 | every interleaved sequence following its rule passes the barriers |
| Generator.GeometricGrowth | src/lib/generator.ts:63 | the ninth term is `start * ratio^8`, and every term lies between the first and the ninth |
| Generator.GeometricValid | src/lib/generator.ts:38-50 | a geometric sequence passes the barriers exactly when its ninth term is at most 10000 |
| Generator.GeometricAccepted | src/lib/generator.ts:60-64 | a geometric draw is accepted exactly when the ratio is 2, or the ratio is 3 with start 1 |
| Generator.RuleValid | src/lib/generator.ts:156-165 | every family except the geometric one always passes the barriers |
| Generator.DateSeed | src/lib/generator.ts:169-172 | the seed of a date with month and day below 100 is `year * 10000 + month * 100 + day`; a negative year keeps its sign |
| Generator.Attempts | src/lib/generator.ts:177-190 | the loop makes exactly the attempts it is allowed, each starting where the previous left the generator |
| Generator.FallbackFollowsArithmetic | src/lib/generator.ts:192-198 | the fallback `[2, 4, …, 18]` has nine terms, follows the arithmetic rule and passes the barriers |
| Generator.FirstValidIsFirst | src/lib/generator.ts:177-190 | the loop falls through exactly when every attempt is rejected, and otherwise returns the first attempt that passes |
| Generator.FirstValidFound | src/lib/generator.ts:181-188 | an accepted outcome is one of the attempts, and that attempt passes the barriers |
| Generator.AttemptsTried | src/lib/generator.ts:177-190 | every attempt the loop makes is one draw of the attempt function from some generator state |
| Generator.FirstValidTried | src/lib/generator.ts:177-190 | an accepted outcome is an attempt, from some state, that passes the barriers |
| Generator.TriedGenerated | src/lib/generator.ts:178-188 | an attempt that passes the barriers is a valid sequence that its family generates from some state |
| Generator.SelectFromGenerated | src/lib/generator.ts:176-190 | whatever the loop accepts is valid and generated by the family it names |
| Generator.DailySequenceShape | src/lib/generator.ts:167-198 | every daily sequence has nine numbers, `visibleCount` 6, and passes the barriers. Its numbers follow the rule of the family it is named after, and the explanation is that family's, or the result is the fallback named Arithmetic. |
| Generator.AttemptsStep | src/lib/generator.ts:177-190 | the attempts left are the next attempt followed by those after it |
| Generator.FirstValidStep | src/lib/generator.ts:181-189 | the first accepted of a list is its head if the head passes, else the first accepted of the rest |
| Generator.SelectStep | src/lib/generator.ts:177-190 | one loop iteration returns the attempt if it passes, and otherwise continues with one attempt fewer, from the state the attempt left |
| Generator.NextAttempt | src/lib/generator.ts:178-189 | one loop body, on the shared generator: an accepted attempt is the loop's outcome, and a rejected one leaves that outcome to the next iteration |
| Generator.SelectDaily | src/lib/generator.ts:176-198 | the `while (attempts < 20)` loop with the fallback returns the first accepted attempt dressed as puzzle data, or the fallback |
| Generator.GetDailySequence | src/lib/generator.ts:167-199 | `getDailySequence` returns `DailySequence(year, month, day)`, a function of the date alone |
| Stats.ReplayCounts | src/store/useGameStore.ts:139-144 | from `initialStats`, `played` counts every game, `won` the wins, and `guessDistribution[k]` the wins in `k` attempts |
| Stats.WinsSplit | src/store/useGameStore.ts:138-144 | with every win in one to three attempts, the wins in one, two and three attempts add up to all wins |
| Stats.ReplayKeys | src/store/useGameStore.ts:44 | the distribution keeps exactly the keys 1, 2 and 3 |
| Stats.StreaksAfterLoss | src/store/useGameStore.ts:168-170 | a loss sets the run since the last loss to zero and leaves the longest run as it was |
| Stats.StreaksAfterWin | src/store/useGameStore.ts:142-143 | a win extends the run since the last loss by one, and the longest run becomes the larger of the two |
| Stats.ReplayStreaks | src/store/useGameStore.ts:139-170 | `currentStreak` is the number of wins since the last loss, `maxStreak` the longest run of wins, and `currentStreak <= maxStreak` |
| Stats.ReplayConsistent | src/store/useGameStore.ts:39-45 | replayed statistics satisfy `0 <= won <= played` and `currentStreak <= maxStreak`, with keys {1, 2, 3} and counts adding up to `won` |
| Store.DateParts | src/store/useGameStore.ts:67 | `split('-').map(Number)` of a well-formed date gives a year from 100, a month in 1..12 and a day within the month |
| Store.SequenceLength | src/store/useGameStore.ts:68 | the puzzle of every date has nine numbers |
| Store.PuzzleFor | src/store/useGameStore.ts:67-68 | the puzzle both loading actions compute is the generator's daily sequence of the date |
| Decimal.ParseThree | src/lib/generator.ts:169-172 | a digit string followed by two two-digit strings reads as `yy * 10000 + mm * 100 + dd` |
| Store.DateSeedDigits | src/lib/generator.ts:169-172 | the seed of a `YYYY-MM-DD` date is the number its eight digits spell |
| Store.InitialInvariant | src/store/useGameStore.ts:50-58 | the initial store satisfies the invariant, and the game it shows is that of its current date |
| Store.InitGamePreserves | src/store/useGameStore.ts:65-96 | `initGame` keeps the invariant: among it, a game being played on the current date has no history yet |
| Store.CorrectedInitGamePreserves | src/store/useGameStore.ts:82-95 | `initGame` with progress kept only for the game of that date keeps the invariant and keeps the game shown that of the current date |
| Store.ShowsCurrentPreserved | src/store/useGameStore.ts:98-201 | loading a date, a guess and a reset keep the game shown that of the current date |
| Store.LoadPuzzleByDatePreserves | src/store/useGameStore.ts:98-124 | `loadPuzzleByDate` keeps the invariant |
| Store.ResetStatsPreserves | src/store/useGameStore.ts:201 | `resetStats` keeps the invariant |
| Store.CompletionOk | src/store/useGameStore.ts:146-156 | finishing a puzzle writes its completion mark and history together, with the same status |
| Store.WinPreserves | src/store/useGameStore.ts:137-164 | a winning guess keeps the invariant, including statistics that replay the games finished so far |
| Store.LossPreserves | src/store/useGameStore.ts:166-191 | a losing guess keeps the invariant, including statistics that replay the games finished so far |
| Store.SubmitGuessPreserves | src/store/useGameStore.ts:126-199 | `submitGuess` keeps the invariant |
| Store.ResetAfterWin | src/store/useGameStore.ts:201 | a reset after a win shows nothing played, nothing won and a zero count for every number of attempts |
| Store.InvariantStats | src/store/useGameStore.ts:39-45 | the statistics of every reachable state are consistent |
| Store.SubmitGuessIgnored | src/store/useGameStore.ts:128-131 | a guess changes nothing exactly when the game is over, no puzzle is loaded, or `6 + hintsLevel` is past the last number |
| Store.SubmitCorrect | src/store/useGameStore.ts:137-164 | a correct guess appends the guess, sets won and keeps `hintsLevel`. It adds one to played, won and the streak, updates the longest streak, counts the win in `hintsLevel + 1` attempts, and records the date as won. |
| Store.SubmitWrongHint | src/store/useGameStore.ts:192-196 | a wrong guess before the last appends the guess, raises the hint level by one and changes nothing else |
| Store.SubmitWrongLoss | src/store/useGameStore.ts:166-191 | the last wrong guess appends the guess, sets lost with hint level 3, adds a game played, ends the streak and records the date as lost |
| Store.HintsMonotone | src/store/useGameStore.ts:126-199 | a guess never lowers the hint level and raises it by at most one |
| Store.HistoryPermanent | src/store/useGameStore.ts:65-201 | no action removes or rewrites a finished puzzle's history: a guess only adds the entry of an unfinished date, and `initGame`, `loadPuzzleByDate` and `resetStats` leave the history equal |
| Store.LoadEffects | src/store/useGameStore.ts:98-124 | loading a date restores its finished game, or starts it afresh, and leaves statistics, history, completion marks and the last started date alone |
| Store.InitEffects | src/store/useGameStore.ts:65-96 | starting a date restores its finished game; otherwise it keeps the game in the store when `lastPlayedDate` is that date, and starts afresh when not. Statistics, history and completion marks stay alone. |
| Store.CorrectedInitEffects | src/store/useGameStore.ts:82-95 | in the corrected `initGame`, the game in the store is kept only when the date is both the last started and the one being played |
| Store.PlayOver | src/store/useGameStore.ts:128 | once a game is won or lost, further guesses change nothing |
| Store.PlayOutcome | src/store/useGameStore.ts:126-199 | playing a nine-number puzzle is won exactly when one of the guesses still allowed hits its hidden number, and lost exactly when all three are made and all miss |
| Store.RunStats | src/store/useGameStore.ts:137-201 | after any run of actions from the initial store, the statistics replay the games finished since the last reset: `played` counts them and `won` counts the wins |
| Store.RunInvariant | src/store/useGameStore.ts:50-201 | every state any run of actions reaches from the initial store satisfies the invariant and has consistent statistics |
| Store.ArchiveWinThenInitGame | src/store/useGameStore.ts:92-95 | as written, starting today after winning an archive puzzle shows today as won, with the archive puzzle's guesses and no history for today; the corrected `initGame` starts it afresh |
| Store.GameStore.constructor | src/store/useGameStore.ts:50-58 | the store starts with the initial statistics, a game being played, no guesses and no history |
| Store.GameStore.InitGame | src/store/useGameStore.ts:65-96 | the new state is `AfterInitGame` of the old one for the date's puzzle, `initGame` as written |
| Store.GameStore.ApplyInitGame | src/store/useGameStore.ts:71-95 | the `set` calls of `initGame` produce `AfterInitGame` of the old state |
| Store.GameStore.LoadPuzzleByDate | src/store/useGameStore.ts:98-124 | the new state is `AfterLoadPuzzle` of the old one for the date's puzzle |
| Store.GameStore.ApplyLoadPuzzle | src/store/useGameStore.ts:104-123 | the `set` calls of `loadPuzzleByDate` produce `AfterLoadPuzzle` of the old state |
| Store.GameStore.SubmitGuess | src/store/useGameStore.ts:126-199 | the new state is `AfterGuess` of the old one |
| Store.GameStore.RecordGuess | src/store/useGameStore.ts:133-198 | a guess that is taken updates the store as `AfterGuess` says |
| Store.GameStore.ResetStats | src/store/useGameStore.ts:201 | the new state is the old one with the initial statistics |
| SharedStats.StatsStore.constructor | src/store/useGameStore.ts:39-45 | `stats` starts as the `initialStats` object itself, with a fresh zero distribution |
| SharedStats.StatsStore.RecordWin | src/store/useGameStore.ts:139-144 | the copied statistics share the old distribution object, which gains one win in place |
| SharedStats.StatsStore.ResetStats | src/store/useGameStore.ts:201 | `resetStats` installs the `initialStats` object again |
| SharedStats.ResetAfterFirstWin | src/store/useGameStore.ts:139-144 | as written, a first win and then a reset show no games played or won, yet one win in the distribution |

## Left out

- React rendering, animations, keyboard input, message choice and the network visit counter are left out. They hold no game logic.
- The `persist` middleware and its localStorage serialisation are left out; the store is in-memory state.
- The theme toggles `toggleDarkMode` and `toggleHighContrastMode` are left out. They flip display flags only.
- `new Date(y, m - 1, d)` normalisation is left out.
  - The class methods take dates satisfying `WellFormedDate`: `YYYY-MM-DD`, a calendar day, year 100 or later. On those dates the `Date` getters give back the parsed numbers.
  - `DailySequence` takes year, month and day as integers.
- Floating point is left out.
  - `next() * (max - min + 1)` is modelled as the exact integer `u * (max - min + 1) / 2^32`. The product stays far below 2^53, so the floating-point result is exact.
  - `Math.pow` is exact integer power for the small arguments involved.
- Rng.SeededRng: `this.seed +=` grows as a double in the source but is kept modulo 2^32. Only its low 32 bits reach the output, and a day's few hundred draws keep it far below 2^53.
- The integer barrier (`Number.isInteger`) never fires, because terms are `int`. Guesses are `int`, so `NaN` and fractional guesses are not modelled.
- Store: a key of `puzzleHistory` is read as a map key. The JavaScript object lookup `puzzleHistory[date]` would also see inherited properties such as `constructor`; no well-formed date is one of those.
- Store.GameStore carries no class invariant. The invariant is proved on the step functions each method equals, which covers every state the object reaches.
- The shared `guessDistribution` object is modelled only in `SharedStats` (see Findings). The rest of the model treats statistics as values.
- Generator.Generate: the promise of exactly `length` numbers is stated for lengths 3 to 36. The fibonacci and sum-of-previous families keep their two or three seeds for shorter lengths, and primes run out of table beyond 36.
- Unused declarations are left out: `GAME_CONFIG.SEQUENCE_LENGTH`, `HIDDEN_COUNT`, `PATTERN_NAMES.CUBE`, the messages, and the `GameState`/`PersistedState` types. The core never reads them.

## Findings

| source | as written | input that shows it | evidently intended | confidence | as-written member | corrected member |
|---|---|---|---|---|---|---|
| src/store/useGameStore.ts:82-95 | with no history for `date`, `initGame` keeps the store's game whenever `lastPlayedDate === date`, even if another date was loaded since | `initGame("2025-12-02")`, `loadPuzzleByDate("2025-12-01")`, a correct guess, then `initGame("2025-12-02")` (a reload): today's puzzle shows as won, with yesterday's guesses, and takes no guess | keep the progress only when the game in the store is that date's, so the game shown is always the current date's own | medium, not executed | Store.ArchiveWinThenInitGame | Store.CorrectedInitGamePreserves |
| src/store/useGameStore.ts:139-144 | `{ ...stats }` copies the reference to `guessDistribution`, and the count is bumped in that shared object; while `stats` is `initialStats`, the bump lands in `initialStats` | a first win in one attempt, then `resetStats()`: `played` 0 and `won` 0, but `guessDistribution[1]` is 1 | a reset restores zero counts | high, not executed | SharedStats.ResetAfterFirstWin | Store.ResetAfterWin |

Two details of the corrections:
- **First finding.** `AfterInitGame` is the code as written, and `GameStore.InitGame` follows it. `AfterInitGameCorrected` adds the condition that `currentPlayingDate` is `date`. `CorrectedInitGamePreserves` proves that it keeps `ShowsCurrent`: the game in the store is the current date's recorded game, or a game still being played on it. `ShowsCurrentPreserved` proves the other actions keep it too.
- **Second finding.** The rest of the model treats statistics as values, so a reset always restores the zero distribution.

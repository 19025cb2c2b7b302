/**
 * The game progression store: the puzzle being played, the guesses made on
 * it, and the record of finished puzzles and lifetime statistics. Each action
 * is a function from the old state to the new one; `GameStore` holds the same
 * fields and its methods update them in place.
 */
module Store {
  import opened Wrappers
  import opened Types
  import opened Constants
  import opened Stats
  import opened Ints
  import Decimal
  import Generator

  /** What is kept of a finished puzzle. */
  datatype PuzzleHistory = PuzzleHistory(guesses: seq<int>, hintsLevel: int, status: GameStatus)

  datatype StoreState = StoreState(
    stats: DailyStats,
    gameStatus: GameStatus,
    guesses: seq<int>,
    hintsLevel: int,
    lastPlayedDate: Option<string>,
    dailySequence: Option<Generator.SequenceData>,
    completedDates: map<string, GameStatus>,
    currentPlayingDate: Option<string>,
    puzzleHistory: map<string, PuzzleHistory>)

  /** The store before any action. */
  const INITIAL_STATE: StoreState := StoreState(INITIAL_STATS, Playing, [], 0, None, None, map[], None, map[])

  // ------------------------------------------------------------ dates

  predicate IsLeapYear(y: int) {
    y % 4 == 0 && (y % 100 != 0 || y % 400 == 0)
  }

  function DaysInMonth(y: int, m: int): int {
    if m == 2 then (if IsLeapYear(y) then 29 else 28)
    else if m == 4 || m == 6 || m == 9 || m == 11 then 30
    else 31
  }

  /**
   * `YYYY-MM-DD` naming a calendar date in year 100 or later: the dates on
   * which `new Date(y, m - 1, d)` gives back `y`, `m` and `d` unchanged.
   */
  predicate WellFormedDate(date: string) {
    |date| == 10 && date[4] == '-' && date[7] == '-' &&
    Decimal.AllDigits(date[..4]) && Decimal.AllDigits(date[5..7]) && Decimal.AllDigits(date[8..]) &&
    var y, m, d := Decimal.ParseDigits(date[..4]), Decimal.ParseDigits(date[5..7]), Decimal.ParseDigits(date[8..]);
    y >= 100 && 1 <= m <= 12 && 1 <= d <= DaysInMonth(y, m)
  }

  /** `date.split('-').map(Number)`: year, month (1-based) and day. */
  function DateParts(date: string): (p: (int, nat, nat))
    requires WellFormedDate(date)
    ensures 100 <= p.0 && 1 <= p.1 <= 12 && 1 <= p.2 <= DaysInMonth(p.0, p.1)
  {
    (Decimal.ParseDigits(date[..4]), Decimal.ParseDigits(date[5..7]), Decimal.ParseDigits(date[8..]))
  }

  /** The puzzle both loading actions compute for `date`. */
  function SequenceFor(date: string): Generator.SequenceData
    requires WellFormedDate(date)
  {
    var p := DateParts(date);
    Generator.DailySequence(p.0, p.1, p.2)
  }

  /** Every date's puzzle has the nine numbers the store's guessing relies on. */
  lemma SequenceLength(date: string)
    requires WellFormedDate(date)
    ensures |SequenceFor(date).numbers| == TOTAL_LENGTH
  {
    var p := DateParts(date);
    Generator.DailySequenceShape(p.0, p.1, p.2);
  }

  /** The puzzle for `date`, as both loading actions compute it. */
  method PuzzleFor(date: string) returns (sequence: Generator.SequenceData)
    requires WellFormedDate(date)
    ensures sequence == SequenceFor(date) && |sequence.numbers| == TOTAL_LENGTH
  {
    var p := DateParts(date);
    sequence := Generator.GetDailySequence(p.0, p.1, p.2);
    SequenceLength(date);
  }

  /** The generator's seed for a date string is the number its eight digits spell, read in order. */
  lemma DateSeedDigits(date: string)
    requires WellFormedDate(date)
    ensures var p := DateParts(date);
      Generator.DateSeed(p.0, p.1, p.2) == Decimal.ParseDigits(date[..4] + date[5..7] + date[8..])
  {
    Decimal.ParseThree(date[..4], date[5..7], date[8..]);
  }

  // ------------------------------------------------------------ actions

  /** `initGame(date)`, given the puzzle computed for `date`. */
  function AfterInitGame(s: StoreState, date: string, sequence: Generator.SequenceData): StoreState {
    if date in s.puzzleHistory then
      var h := s.puzzleHistory[date];
      s.(lastPlayedDate := Some(date), currentPlayingDate := Some(date), gameStatus := h.status,
         guesses := h.guesses, hintsLevel := h.hintsLevel, dailySequence := Some(sequence))
    else if s.lastPlayedDate != Some(date) then
      s.(lastPlayedDate := Some(date), currentPlayingDate := Some(date), gameStatus := Playing,
         guesses := [], hintsLevel := 0, dailySequence := Some(sequence))
    else
      s.(dailySequence := Some(sequence), currentPlayingDate := Some(date))
  }

  /**
   * `initGame(date)` with the progress kept only when the game in the store is
   * that of `date`; as written, it is kept whenever `date` was the last date
   * started, even if another date has been loaded since.
   */
  function AfterInitGameCorrected(s: StoreState, date: string, sequence: Generator.SequenceData): StoreState {
    if date in s.puzzleHistory then
      var h := s.puzzleHistory[date];
      s.(lastPlayedDate := Some(date), currentPlayingDate := Some(date), gameStatus := h.status,
         guesses := h.guesses, hintsLevel := h.hintsLevel, dailySequence := Some(sequence))
    else if s.lastPlayedDate != Some(date) || s.currentPlayingDate != Some(date) then
      s.(lastPlayedDate := Some(date), currentPlayingDate := Some(date), gameStatus := Playing,
         guesses := [], hintsLevel := 0, dailySequence := Some(sequence))
    else
      s.(dailySequence := Some(sequence), currentPlayingDate := Some(date))
  }

  /** `loadPuzzleByDate(date)`, given the puzzle computed for `date`. */
  function AfterLoadPuzzle(s: StoreState, date: string, sequence: Generator.SequenceData): StoreState {
    if date in s.puzzleHistory then
      var h := s.puzzleHistory[date];
      s.(currentPlayingDate := Some(date), gameStatus := h.status, guesses := h.guesses,
         hintsLevel := h.hintsLevel, dailySequence := Some(sequence))
    else
      s.(currentPlayingDate := Some(date), gameStatus := Playing, guesses := [], hintsLevel := 0,
         dailySequence := Some(sequence))
  }

  /** `if (currentPlayingDate)`: set and not the empty string. */
  predicate Truthy(d: Option<string>) {
    d.Some? && d.value != ""
  }

  /** The completion marks and history after finishing the current puzzle with `entry`. */
  function Completion(s: StoreState, entry: PuzzleHistory): (map<string, GameStatus>, map<string, PuzzleHistory>) {
    if Truthy(s.currentPlayingDate) then
      var d := s.currentPlayingDate.value;
      (s.completedDates[d := entry.status], s.puzzleHistory[d := entry])
    else
      (s.completedDates, s.puzzleHistory)
  }

  /** A guess is taken when a puzzle is being played and a hidden number is left to guess. */
  predicate Accepts(s: StoreState) {
    s.gameStatus == Playing && s.dailySequence.Some? &&
    INITIAL_VISIBLE_COUNT + s.hintsLevel < |s.dailySequence.value.numbers|
  }

  /** The guess hits the hidden number at the current position. */
  predicate Hits(s: StoreState, guess: int)
    requires Accepts(s)
  {
    var i := INITIAL_VISIBLE_COUNT + s.hintsLevel;
    0 <= i && guess == s.dailySequence.value.numbers[i]
  }

  /** `submitGuess(guess)`. */
  function AfterGuess(s: StoreState, guess: int): StoreState {
    if s.gameStatus != Playing || s.dailySequence.None? then s
    else
      var numbers := s.dailySequence.value.numbers;
      var targetIndex := INITIAL_VISIBLE_COUNT + s.hintsLevel;
      if targetIndex >= |numbers| then s
      else
        // `numbers[targetIndex]` is undefined for a negative index and equals no guess
        var isCorrect := 0 <= targetIndex && guess == numbers[targetIndex];
        var newGuesses := s.guesses + [guess];
        if isCorrect then
          var c := Completion(s, PuzzleHistory(newGuesses, s.hintsLevel, Won));
          s.(gameStatus := Won, guesses := newGuesses, stats := RecordWin(s.stats, s.hintsLevel + 1),
             completedDates := c.0, puzzleHistory := c.1)
        else
          var nextHintsLevel := s.hintsLevel + 1;
          if nextHintsLevel >= MAX_HINTS then
            var c := Completion(s, PuzzleHistory(newGuesses, nextHintsLevel, Lost));
            s.(gameStatus := Lost, guesses := newGuesses, stats := RecordLoss(s.stats),
               hintsLevel := nextHintsLevel, completedDates := c.0, puzzleHistory := c.1)
          else
            s.(guesses := newGuesses, hintsLevel := nextHintsLevel)
  }

  /** `resetStats()`. */
  function AfterResetStats(s: StoreState): StoreState {
    s.(stats := INITIAL_STATS)
  }

  // ------------------------------------------------------------ invariant

  /** Guesses and hint level agree with the status: `hintsLevel` wrong guesses, plus the winning one. */
  predicate ProgressOk(status: GameStatus, guesses: seq<int>, hintsLevel: int) {
    match status
    case Playing => 0 <= hintsLevel < MAX_HINTS && |guesses| == hintsLevel
    case Won => 0 <= hintsLevel < MAX_HINTS && |guesses| == hintsLevel + 1
    case Lost => hintsLevel == MAX_HINTS && |guesses| == MAX_HINTS
  }

  predicate HistoryOk(h: PuzzleHistory) {
    h.status != Playing && ProgressOk(h.status, h.guesses, h.hintsLevel)
  }

  /**
   * The game in the store is the one of the current date: its finished game
   * as the history records it, or, with no history yet, a game being played.
   */
  predicate ShowsCurrent(s: StoreState) {
    Truthy(s.currentPlayingDate) ==>
      var d := s.currentPlayingDate.value;
      if d in s.puzzleHistory then s.puzzleHistory[d] == PuzzleHistory(s.guesses, s.hintsLevel, s.gameStatus)
      else s.gameStatus == Playing
  }

  /** A game still being played on the current date is one whose date has no history yet. */
  predicate PlayingUnfinished(s: StoreState) {
    s.gameStatus == Playing && Truthy(s.currentPlayingDate) ==> s.currentPlayingDate.value !in s.puzzleHistory
  }

  /**
   * What holds of every state the actions reach from the initial one:
   * progress agrees with the status, every finished puzzle is marked with the
   * status its history records, a game being played has not been finished
   * before, a loaded puzzle has nine numbers, and the statistics are those of
   * some run of finished games.
   */
  ghost predicate Invariant(s: StoreState) {
    ProgressOk(s.gameStatus, s.guesses, s.hintsLevel) &&
    (forall d :: d in s.puzzleHistory ==> HistoryOk(s.puzzleHistory[d])) &&
    s.completedDates.Keys == s.puzzleHistory.Keys &&
    (forall d :: d in s.completedDates ==> s.completedDates[d] == s.puzzleHistory[d].status) &&
    PlayingUnfinished(s) &&
    (s.dailySequence.Some? ==> |s.dailySequence.value.numbers| == TOTAL_LENGTH) &&
    exists games :: AttemptsInRange(games) && s.stats == Replay(INITIAL_STATS, games)
  }

  lemma InitialInvariant()
    ensures Invariant(INITIAL_STATE) && ShowsCurrent(INITIAL_STATE)
  {
    assert INITIAL_STATS == Replay(INITIAL_STATS, []);
  }

  /** Recording one more game with one to three attempts keeps the statistics a replay. */
  lemma ReplayExtends(games: seq<GameResult>, g: GameResult)
    requires AttemptsInRange(games) && (g.Win? ==> 1 <= g.attempts <= 3)
    ensures AttemptsInRange(games + [g]) && Record(Replay(INITIAL_STATS, games), g) == Replay(INITIAL_STATS, games + [g])
  {
    ReplayLast(INITIAL_STATS, games, g);
    var q := games + [g];
    forall i | 0 <= i < |q| && q[i].Win? ensures 1 <= q[i].attempts <= 3 {
      if i < |games| { assert q[i] == games[i]; }
    }
  }

  lemma InitGamePreserves(s: StoreState, date: string, sequence: Generator.SequenceData)
    requires Invariant(s) && |sequence.numbers| == TOTAL_LENGTH
    ensures Invariant(AfterInitGame(s, date, sequence))
  {
    var games :| AttemptsInRange(games) && s.stats == Replay(INITIAL_STATS, games);
    if date in s.puzzleHistory {
      assert HistoryOk(s.puzzleHistory[date]);
    }
    assert AfterInitGame(s, date, sequence).stats == Replay(INITIAL_STATS, games);
  }

  lemma LoadPuzzleByDatePreserves(s: StoreState, date: string, sequence: Generator.SequenceData)
    requires Invariant(s) && |sequence.numbers| == TOTAL_LENGTH
    ensures Invariant(AfterLoadPuzzle(s, date, sequence))
  {
    var games :| AttemptsInRange(games) && s.stats == Replay(INITIAL_STATS, games);
    if date in s.puzzleHistory {
      assert HistoryOk(s.puzzleHistory[date]);
    }
    assert AfterLoadPuzzle(s, date, sequence).stats == Replay(INITIAL_STATS, games);
  }

  lemma ResetStatsPreserves(s: StoreState)
    requires Invariant(s)
    ensures Invariant(AfterResetStats(s))
  {
    assert INITIAL_STATS == Replay(INITIAL_STATS, []);
  }

  /**
   * The corrected `initGame` keeps the invariant and, beyond it, keeps the
   * game shown that of the current date.
   */
  lemma CorrectedInitGamePreserves(s: StoreState, date: string, sequence: Generator.SequenceData)
    requires Invariant(s) && ShowsCurrent(s) && |sequence.numbers| == TOTAL_LENGTH
    ensures Invariant(AfterInitGameCorrected(s, date, sequence)) && ShowsCurrent(AfterInitGameCorrected(s, date, sequence))
  {
    var games :| AttemptsInRange(games) && s.stats == Replay(INITIAL_STATS, games);
    if date in s.puzzleHistory {
      assert HistoryOk(s.puzzleHistory[date]);
    }
    assert AfterInitGameCorrected(s, date, sequence).stats == Replay(INITIAL_STATS, games);
  }

  /** Loading a date, a guess and a reset all keep the game shown that of the current date. */
  lemma ShowsCurrentPreserved(s: StoreState, date: string, sequence: Generator.SequenceData, guess: int)
    requires Invariant(s) && ShowsCurrent(s)
    ensures ShowsCurrent(AfterLoadPuzzle(s, date, sequence))
    ensures ShowsCurrent(AfterGuess(s, guess))
    ensures ShowsCurrent(AfterResetStats(s))
  {
    if Truthy(s.currentPlayingDate) && s.currentPlayingDate.value in s.puzzleHistory {
      assert HistoryOk(s.puzzleHistory[s.currentPlayingDate.value]);
    }
  }

  /** Finishing the current puzzle with `entry` keeps completion marks and history in step. */
  lemma CompletionOk(s: StoreState, entry: PuzzleHistory)
    requires Invariant(s) && HistoryOk(entry)
    ensures var c := Completion(s, entry);
      c.0.Keys == c.1.Keys && (forall d :: d in c.1 ==> HistoryOk(c.1[d])) &&
      forall d :: d in c.0 ==> c.0[d] == c.1[d].status
  {
  }

  lemma WinPreserves(s: StoreState, guess: int)
    requires Invariant(s) && Accepts(s) && Hits(s, guess)
    ensures Invariant(AfterGuess(s, guess))
  {
    var games :| AttemptsInRange(games) && s.stats == Replay(INITIAL_STATS, games);
    var h := s.hintsLevel;
    CompletionOk(s, PuzzleHistory(s.guesses + [guess], h, Won));
    ReplayExtends(games, Win(h + 1));
    assert AfterGuess(s, guess).stats == Replay(INITIAL_STATS, games + [Win(h + 1)]);
  }

  lemma LossPreserves(s: StoreState, guess: int)
    requires Invariant(s) && Accepts(s) && !Hits(s, guess) && s.hintsLevel + 1 >= MAX_HINTS
    ensures Invariant(AfterGuess(s, guess))
  {
    var games :| AttemptsInRange(games) && s.stats == Replay(INITIAL_STATS, games);
    CompletionOk(s, PuzzleHistory(s.guesses + [guess], s.hintsLevel + 1, Lost));
    ReplayExtends(games, Loss);
    assert AfterGuess(s, guess).stats == Replay(INITIAL_STATS, games + [Loss]);
  }

  lemma SubmitGuessPreserves(s: StoreState, guess: int)
    requires Invariant(s)
    ensures Invariant(AfterGuess(s, guess))
  {
    if Accepts(s) {
      if Hits(s, guess) {
        WinPreserves(s, guess);
      } else if s.hintsLevel + 1 >= MAX_HINTS {
        LossPreserves(s, guess);
      } else {
        var games :| AttemptsInRange(games) && s.stats == Replay(INITIAL_STATS, games);
        assert AfterGuess(s, guess).stats == Replay(INITIAL_STATS, games);
      }
    }
  }

  /** A reset after a win leaves no trace of it: nothing won, nothing in the distribution. */
  lemma ResetAfterWin(s: StoreState, guess: int)
    requires Accepts(s) && Hits(s, guess)
    ensures var r := AfterResetStats(AfterGuess(s, guess)).stats;
      r.played == 0 && r.won == 0 && forall k :: Count(r.guessDistribution, k) == 0
  {
  }

  /** Every state the store reaches has statistics that hold together. */
  lemma InvariantStats(s: StoreState)
    requires Invariant(s)
    ensures Consistent(s.stats)
  {
    var games :| AttemptsInRange(games) && s.stats == Replay(INITIAL_STATS, games);
    ReplayConsistent(games);
  }

  /**
   * As written, `initGame` can show a date's puzzle as finished without a game
   * played on it: start today, win an archive puzzle, start today again. The
   * corrected `initGame` starts today's puzzle afresh instead.
   */
  lemma ArchiveWinThenInitGame()
    ensures var today, yesterday, puzzle := "2025-12-02", "2025-12-01", Generator.FALLBACK;
      var s1 := AfterInitGame(INITIAL_STATE, today, puzzle);
      var s2 := AfterLoadPuzzle(s1, yesterday, puzzle);
      var s3 := AfterGuess(s2, puzzle.numbers[INITIAL_VISIBLE_COUNT]);
      var s4 := AfterInitGame(s3, today, puzzle);
      Invariant(s3) && ShowsCurrent(s3) &&
      s4.currentPlayingDate == Some(today) && today !in s4.puzzleHistory &&
      s4.gameStatus == Won && s4.guesses == s3.guesses && !ShowsCurrent(s4) &&
      AfterInitGameCorrected(s3, today, puzzle).gameStatus == Playing
  {
    var today, yesterday, puzzle := "2025-12-02", "2025-12-01", Generator.FALLBACK;
    var s1 := AfterInitGame(INITIAL_STATE, today, puzzle);
    var s2 := AfterLoadPuzzle(s1, yesterday, puzzle);
    var s3 := AfterGuess(s2, puzzle.numbers[INITIAL_VISIBLE_COUNT]);
    assert s3.stats == Replay(INITIAL_STATS, [Win(1)]);
    assert today != yesterday by { assert today[9] != yesterday[9]; }
  }

  // ------------------------------------------------------------ effects of a guess

  /** A guess changes nothing exactly when no puzzle is being played or no hidden number is left. */
  lemma SubmitGuessIgnored(s: StoreState, guess: int)
    ensures AfterGuess(s, guess) == s <==> !Accepts(s)
  {
    if Accepts(s) {
      assert |AfterGuess(s, guess).guesses| == |s.guesses| + 1;
    }
  }

  /** A correct guess wins: it is recorded, one more game is played and won, and the puzzle is marked won. */
  lemma SubmitCorrect(s: StoreState, guess: int)
    requires Accepts(s) && Hits(s, guess)
    ensures var r := AfterGuess(s, guess); var h := s.hintsLevel;
      r.gameStatus == Won && r.guesses == s.guesses + [guess] && r.hintsLevel == h &&
      r.stats.played == s.stats.played + 1 && r.stats.won == s.stats.won + 1 &&
      r.stats.currentStreak == s.stats.currentStreak + 1 &&
      r.stats.maxStreak == Max(s.stats.currentStreak + 1, s.stats.maxStreak) &&
      Count(r.stats.guessDistribution, h + 1) == Count(s.stats.guessDistribution, h + 1) + 1 &&
      (forall k :: k != h + 1 ==> Count(r.stats.guessDistribution, k) == Count(s.stats.guessDistribution, k)) &&
      (Truthy(s.currentPlayingDate) ==>
        r.puzzleHistory == s.puzzleHistory[s.currentPlayingDate.value := PuzzleHistory(s.guesses + [guess], h, Won)] &&
        r.completedDates == s.completedDates[s.currentPlayingDate.value := Won]) &&
      (!Truthy(s.currentPlayingDate) ==> r.puzzleHistory == s.puzzleHistory && r.completedDates == s.completedDates) &&
      r.currentPlayingDate == s.currentPlayingDate && r.lastPlayedDate == s.lastPlayedDate &&
      r.dailySequence == s.dailySequence
  {
  }

  /** A wrong guess before the last reveals one more number and changes nothing else. */
  lemma SubmitWrongHint(s: StoreState, guess: int)
    requires Accepts(s) && !Hits(s, guess) && s.hintsLevel + 1 < MAX_HINTS
    ensures AfterGuess(s, guess) == s.(guesses := s.guesses + [guess], hintsLevel := s.hintsLevel + 1)
  {
  }

  /** The last wrong guess loses: one more game is played, the streak ends, and the puzzle is marked lost. */
  lemma SubmitWrongLoss(s: StoreState, guess: int)
    requires Accepts(s) && !Hits(s, guess) && s.hintsLevel + 1 >= MAX_HINTS
    ensures var r := AfterGuess(s, guess); var h := s.hintsLevel + 1;
      r.gameStatus == Lost && r.guesses == s.guesses + [guess] && r.hintsLevel == h &&
      r.stats == s.stats.(played := s.stats.played + 1, currentStreak := 0) &&
      (Truthy(s.currentPlayingDate) ==>
        r.puzzleHistory == s.puzzleHistory[s.currentPlayingDate.value := PuzzleHistory(s.guesses + [guess], h, Lost)] &&
        r.completedDates == s.completedDates[s.currentPlayingDate.value := Lost]) &&
      (!Truthy(s.currentPlayingDate) ==> r.puzzleHistory == s.puzzleHistory && r.completedDates == s.completedDates) &&
      r.currentPlayingDate == s.currentPlayingDate && r.lastPlayedDate == s.lastPlayedDate &&
      r.dailySequence == s.dailySequence
  {
  }

  /** A guess never lowers the hint level and raises it by at most one. */
  lemma HintsMonotone(s: StoreState, guess: int)
    ensures s.hintsLevel <= AfterGuess(s, guess).hintsLevel <= s.hintsLevel + 1
  {
  }

  /** History, once written, stays: no action removes or rewrites a finished puzzle's entry. */
  lemma HistoryPermanent(s: StoreState, guess: int, date: string, sequence: Generator.SequenceData)
    requires Invariant(s)
    ensures forall d :: d in s.puzzleHistory ==>
      d in AfterGuess(s, guess).puzzleHistory && AfterGuess(s, guess).puzzleHistory[d] == s.puzzleHistory[d]
    ensures AfterInitGame(s, date, sequence).puzzleHistory == s.puzzleHistory
    ensures AfterLoadPuzzle(s, date, sequence).puzzleHistory == s.puzzleHistory
    ensures AfterResetStats(s).puzzleHistory == s.puzzleHistory
  {
  }

  /** Loading a date restores its finished game, or starts it afresh, and leaves the record alone. */
  lemma LoadEffects(s: StoreState, date: string, sequence: Generator.SequenceData)
    ensures var r := AfterLoadPuzzle(s, date, sequence);
      r.currentPlayingDate == Some(date) && r.dailySequence == Some(sequence) &&
      r.stats == s.stats && r.puzzleHistory == s.puzzleHistory && r.completedDates == s.completedDates &&
      r.lastPlayedDate == s.lastPlayedDate &&
      (date in s.puzzleHistory ==> var h := s.puzzleHistory[date];
        r.gameStatus == h.status && r.guesses == h.guesses && r.hintsLevel == h.hintsLevel) &&
      (date !in s.puzzleHistory ==> r.gameStatus == Playing && r.guesses == [] && r.hintsLevel == 0)
  {
  }

  /**
   * Starting a date restores its finished game; otherwise it keeps the game in
   * the store if the date was the last one started, and starts afresh if not.
   * The record and statistics stay as they are.
   */
  lemma InitEffects(s: StoreState, date: string, sequence: Generator.SequenceData)
    ensures var r := AfterInitGame(s, date, sequence);
      r.currentPlayingDate == Some(date) && r.dailySequence == Some(sequence) &&
      r.stats == s.stats && r.puzzleHistory == s.puzzleHistory && r.completedDates == s.completedDates &&
      (date in s.puzzleHistory ==> var h := s.puzzleHistory[date];
        r.gameStatus == h.status && r.guesses == h.guesses && r.hintsLevel == h.hintsLevel &&
        r.lastPlayedDate == Some(date)) &&
      (date !in s.puzzleHistory && s.lastPlayedDate == Some(date) ==>
        r.gameStatus == s.gameStatus && r.guesses == s.guesses && r.hintsLevel == s.hintsLevel &&
        r.lastPlayedDate == s.lastPlayedDate) &&
      (date !in s.puzzleHistory && s.lastPlayedDate != Some(date) ==>
        r.gameStatus == Playing && r.guesses == [] && r.hintsLevel == 0 && r.lastPlayedDate == Some(date))
  {
  }

  /**
   * The corrected `initGame` keeps the game in the store only if the date was
   * the last one started and is the one being played.
   */
  lemma CorrectedInitEffects(s: StoreState, date: string, sequence: Generator.SequenceData)
    ensures var r := AfterInitGameCorrected(s, date, sequence);
      r.currentPlayingDate == Some(date) && r.dailySequence == Some(sequence) &&
      r.stats == s.stats && r.puzzleHistory == s.puzzleHistory && r.completedDates == s.completedDates &&
      (date in s.puzzleHistory ==> var h := s.puzzleHistory[date];
        r.gameStatus == h.status && r.guesses == h.guesses && r.hintsLevel == h.hintsLevel &&
        r.lastPlayedDate == Some(date)) &&
      (date !in s.puzzleHistory && s.lastPlayedDate == Some(date) && s.currentPlayingDate == Some(date) ==>
        r.gameStatus == s.gameStatus && r.guesses == s.guesses && r.hintsLevel == s.hintsLevel &&
        r.lastPlayedDate == s.lastPlayedDate) &&
      (date !in s.puzzleHistory && (s.lastPlayedDate != Some(date) || s.currentPlayingDate != Some(date)) ==>
        r.gameStatus == Playing && r.guesses == [] && r.hintsLevel == 0 && r.lastPlayedDate == Some(date))
  {
  }

  // ------------------------------------------------------------ a whole game

  /** The store after the guesses `gs`, in order. */
  function Play(s: StoreState, gs: seq<int>): StoreState
    decreases |gs|
  {
    if |gs| == 0 then s else Play(AfterGuess(s, gs[0]), gs[1..])
  }

  /** Once a game is over, further guesses change nothing. */
  lemma {:induction false} PlayOver(s: StoreState, gs: seq<int>)
    requires s.gameStatus != Playing
    ensures Play(s, gs) == s
    decreases |gs|
  {
    if |gs| > 0 {
      PlayOver(AfterGuess(s, gs[0]), gs[1..]);
    }
  }

  /** Guess `i` of `gs`, made at hint level `h + i`, hits the hidden number at that position. */
  predicate HitAt(numbers: seq<int>, h: int, gs: seq<int>, i: int) {
    0 <= i < |gs| && 0 <= h + i < MAX_HINTS && INITIAL_VISIBLE_COUNT + h + i < |numbers| &&
    gs[i] == numbers[INITIAL_VISIBLE_COUNT + h + i]
  }

  /**
   * Playing a nine-number puzzle from hint level `h`: the game is won exactly
   * when one of the guesses still allowed hits the hidden number at its
   * position, and lost exactly when all of them are made and all miss.
   */
  lemma {:induction false} PlayOutcome(s: StoreState, gs: seq<int>)
    requires s.gameStatus == Playing && s.dailySequence.Some? && |s.dailySequence.value.numbers| == TOTAL_LENGTH
    requires 0 <= s.hintsLevel < MAX_HINTS
    ensures var r := Play(s, gs); var n := s.dailySequence.value.numbers; var h := s.hintsLevel;
      (r.gameStatus == Won <==> exists i :: HitAt(n, h, gs, i)) &&
      (r.gameStatus == Lost <==> |gs| >= MAX_HINTS - h && forall i :: 0 <= i < MAX_HINTS - h ==> !HitAt(n, h, gs, i))
    decreases |gs|
  {
    var n := s.dailySequence.value.numbers;
    var h := s.hintsLevel;
    if |gs| > 0 {
      var t := AfterGuess(s, gs[0]);
      var rest := gs[1..];
      assert Accepts(s);
      if Hits(s, gs[0]) {
        PlayOver(t, rest);
        assert HitAt(n, h, gs, 0);
      } else if h + 1 >= MAX_HINTS {
        PlayOver(t, rest);
        assert !HitAt(n, h, gs, 0);
        forall i | HitAt(n, h, gs, i) ensures false { }
      } else {
        PlayOutcome(t, rest);
        var h1 := t.hintsLevel;
        assert h1 == h + 1 && t.dailySequence == s.dailySequence;
        assert !HitAt(n, h, gs, 0);
        forall i ensures HitAt(n, h, gs, i) <==> i > 0 && HitAt(n, h1, rest, i - 1) {
          if 0 < i < |gs| { assert gs[i] == rest[i - 1]; }
        }
        if exists j :: HitAt(n, h1, rest, j) {
          var j :| HitAt(n, h1, rest, j);
          assert HitAt(n, h, gs, j + 1);
        }
        if forall i :: 0 <= i < MAX_HINTS - h ==> !HitAt(n, h, gs, i) {
          forall j | 0 <= j < MAX_HINTS - h1 ensures !HitAt(n, h1, rest, j) {
            assert !HitAt(n, h, gs, j + 1);
          }
        }
      }
    }
  }

  // ------------------------------------------------------------ runs of actions

  /** One call of a store action; the loading actions carry the puzzle computed for their date. */
  datatype Action =
    | Init(date: string, sequence: Generator.SequenceData)
    | Load(date: string, sequence: Generator.SequenceData)
    | Guess(guess: int)
    | Reset

  function Step(s: StoreState, a: Action): StoreState {
    match a
    case Init(date, sequence) => AfterInitGame(s, date, sequence)
    case Load(date, sequence) => AfterLoadPuzzle(s, date, sequence)
    case Guess(guess) => AfterGuess(s, guess)
    case Reset => AfterResetStats(s)
  }

  /** The store after the actions `acts`, oldest first. */
  function Run(s: StoreState, acts: seq<Action>): StoreState {
    if |acts| == 0 then s else Step(Run(s, acts[..|acts| - 1]), acts[|acts| - 1])
  }

  /** The game a guess finishes, if it finishes one: a win in `hintsLevel + 1` attempts, or a loss. */
  function Finishes(s: StoreState, guess: int): seq<GameResult> {
    if !Accepts(s) then []
    else if Hits(s, guess) then [Win(s.hintsLevel + 1)]
    else if s.hintsLevel + 1 >= MAX_HINTS then [Loss]
    else []
  }

  /** The games the guesses of `acts` finish after the last reset, oldest first. */
  function Outcomes(s: StoreState, acts: seq<Action>): seq<GameResult> {
    if |acts| == 0 then []
    else
      var p := acts[..|acts| - 1];
      match acts[|acts| - 1]
      case Reset => []
      case Guess(guess) => Outcomes(s, p) + Finishes(Run(s, p), guess)
      case _ => Outcomes(s, p)
  }

  /** Every loading action carries a puzzle of nine numbers, as every computed puzzle has. */
  predicate NinePuzzles(acts: seq<Action>) {
    forall i :: 0 <= i < |acts| && !acts[i].Guess? && !acts[i].Reset? ==> |acts[i].sequence.numbers| == TOTAL_LENGTH
  }

  /**
   * After any run of actions from the initial store, the statistics are those
   * of the games finished since the last reset: `played` counts them and
   * `won` counts the wins among them.
   */
  lemma {:induction false} RunStats(acts: seq<Action>)
    ensures var r, games := Run(INITIAL_STATE, acts).stats, Outcomes(INITIAL_STATE, acts);
      r == Replay(INITIAL_STATS, games) && r.played == |games| && r.won == Wins(games)
  {
    if |acts| > 0 {
      var p := acts[..|acts| - 1];
      RunStats(p);
      var q, games := Run(INITIAL_STATE, p), Outcomes(INITIAL_STATE, p);
      match acts[|acts| - 1]
      case Reset =>
      case Guess(guess) =>
        var f := Finishes(q, guess);
        if f == [] {
          assert games + f == games;
        } else {
          ReplayLast(INITIAL_STATS, games, f[0]);
        }
      case _ =>
    }
    ReplayCounts(Outcomes(INITIAL_STATE, acts));
  }

  /** Every state a run of actions reaches from the initial store satisfies the invariant. */
  lemma {:induction false} RunInvariant(acts: seq<Action>)
    requires NinePuzzles(acts)
    ensures Invariant(Run(INITIAL_STATE, acts)) && Consistent(Run(INITIAL_STATE, acts).stats)
  {
    if |acts| == 0 {
      InitialInvariant();
    } else {
      var p := acts[..|acts| - 1];
      assert NinePuzzles(p) by {
        forall i | 0 <= i < |p| ensures p[i] == acts[i] { }
      }
      RunInvariant(p);
      var q := Run(INITIAL_STATE, p);
      assert acts[|acts| - 1] == acts[|p|];
      match acts[|acts| - 1]
      case Init(date, sequence) => InitGamePreserves(q, date, sequence);
      case Load(date, sequence) => LoadPuzzleByDatePreserves(q, date, sequence);
      case Guess(guess) => SubmitGuessPreserves(q, guess);
      case Reset => ResetStatsPreserves(q);
    }
    InvariantStats(Run(INITIAL_STATE, acts));
  }

  // ------------------------------------------------------------ the store object

  class GameStore {
    var stats: DailyStats
    var gameStatus: GameStatus
    var guesses: seq<int>
    var hintsLevel: int
    var lastPlayedDate: Option<string>
    var dailySequence: Option<Generator.SequenceData>
    var completedDates: map<string, GameStatus>
    var currentPlayingDate: Option<string>
    var puzzleHistory: map<string, PuzzleHistory>

    function State(): StoreState
      reads this
    {
      StoreState(stats, gameStatus, guesses, hintsLevel, lastPlayedDate, dailySequence,
        completedDates, currentPlayingDate, puzzleHistory)
    }

    constructor()
      ensures State() == INITIAL_STATE
    {
      stats := INITIAL_STATS;
      gameStatus := Playing;
      guesses := [];
      hintsLevel := 0;
      lastPlayedDate := None;
      dailySequence := None;
      completedDates := map[];
      currentPlayingDate := None;
      puzzleHistory := map[];
    }

    method InitGame(date: string)
      requires WellFormedDate(date)
      modifies this
      ensures State() == AfterInitGame(old(State()), date, SequenceFor(date))
    {
      var sequence := PuzzleFor(date);
      ApplyInitGame(date, sequence);
    }

    /** The state change `initGame` makes once the puzzle is computed. */
    method ApplyInitGame(date: string, sequence: Generator.SequenceData)
      modifies this
      ensures State() == AfterInitGame(old(State()), date, sequence)
    {
      var newLastPlayedDate, newStatus, newGuesses, newHintsLevel := lastPlayedDate, gameStatus, guesses, hintsLevel;
      if date in puzzleHistory {
        var history := puzzleHistory[date];
        newLastPlayedDate := Some(date);
        newStatus, newGuesses, newHintsLevel := history.status, history.guesses, history.hintsLevel;
      } else if lastPlayedDate != Some(date) {
        newLastPlayedDate := Some(date);
        newStatus, newGuesses, newHintsLevel := Playing, [], 0;
      }
      lastPlayedDate, currentPlayingDate, gameStatus, guesses, hintsLevel, dailySequence :=
        newLastPlayedDate, Some(date), newStatus, newGuesses, newHintsLevel, Some(sequence);
    }

    method LoadPuzzleByDate(date: string)
      requires WellFormedDate(date)
      modifies this
      ensures State() == AfterLoadPuzzle(old(State()), date, SequenceFor(date))
    {
      var sequence := PuzzleFor(date);
      ApplyLoadPuzzle(date, sequence);
    }

    /** The state change `loadPuzzleByDate` makes once the puzzle is computed. */
    method ApplyLoadPuzzle(date: string, sequence: Generator.SequenceData)
      modifies this
      ensures State() == AfterLoadPuzzle(old(State()), date, sequence)
    {
      var newStatus, newGuesses, newHintsLevel := Playing, [], 0;
      if date in puzzleHistory {
        var history := puzzleHistory[date];
        newStatus, newGuesses, newHintsLevel := history.status, history.guesses, history.hintsLevel;
      }
      currentPlayingDate, gameStatus, guesses, hintsLevel, dailySequence :=
        Some(date), newStatus, newGuesses, newHintsLevel, Some(sequence);
    }

    method SubmitGuess(guess: int)
      modifies this
      ensures State() == AfterGuess(old(State()), guess)
    {
      if gameStatus != Playing || dailySequence.None? {
        return;
      }
      var numbers := dailySequence.value.numbers;
      var targetIndex := INITIAL_VISIBLE_COUNT + hintsLevel;
      if targetIndex >= |numbers| {
        return;
      }
      RecordGuess(guess, 0 <= targetIndex && guess == numbers[targetIndex]);
    }

    /** The state change of a guess that is taken: record it, then win, reveal one more number, or lose. */
    method RecordGuess(guess: int, isCorrect: bool)
      requires Accepts(State()) && isCorrect == Hits(State(), guess)
      modifies this
      ensures State() == AfterGuess(old(State()), guess)
    {
      var newGuesses := guesses + [guess];
      var newStatus, newStats, newHintsLevel := gameStatus, stats, hintsLevel;
      var finished := false;
      if isCorrect {
        newStatus, newStats := Won, RecordWin(stats, hintsLevel + 1);
        finished := true;
      } else {
        newHintsLevel := hintsLevel + 1;
        if newHintsLevel >= MAX_HINTS {
          newStatus, newStats := Lost, RecordLoss(stats);
          finished := true;
        }
      }
      var newCompletedDates, newPuzzleHistory := completedDates, puzzleHistory;
      if finished {
        var c := Completion(State(), PuzzleHistory(newGuesses, newHintsLevel, newStatus));
        newCompletedDates, newPuzzleHistory := c.0, c.1;
      }
      gameStatus, guesses, stats, hintsLevel, completedDates, puzzleHistory :=
        newStatus, newGuesses, newStats, newHintsLevel, newCompletedDates, newPuzzleHistory;
    }

    method ResetStats()
      modifies this
      ensures State() == AfterResetStats(old(State()))
    {
      stats := INITIAL_STATS;
    }
  }
}

/**
 * How a finished puzzle updates the lifetime statistics, and what the
 * statistics mean once every finished puzzle since the last reset has been
 * recorded in order.
 */
module Stats {
  import opened Types
  import opened Ints

  /** The statistics of a player who has finished no puzzle. */
  const INITIAL_STATS: DailyStats := DailyStats(0, 0, 0, 0, map[1 := 0, 2 := 0, 3 := 0])

  /** `guessDistribution[k] || 0`: a missing count reads as zero. */
  function Count(d: map<int, int>, k: int): int {
    if k in d then d[k] else 0
  }

  /** The statistics after a puzzle won in `attempts` attempts. */
  function RecordWin(s: DailyStats, attempts: int): DailyStats {
    var streak := s.currentStreak + 1;
    DailyStats(s.played + 1, s.won + 1, streak, Max(streak, s.maxStreak),
      s.guessDistribution[attempts := Count(s.guessDistribution, attempts) + 1])
  }

  /** The statistics after a lost puzzle. */
  function RecordLoss(s: DailyStats): DailyStats {
    DailyStats(s.played + 1, s.won, 0, s.maxStreak, s.guessDistribution)
  }

  /** How a finished puzzle ended. */
  datatype GameResult = Win(attempts: int) | Loss

  function Record(s: DailyStats, g: GameResult): DailyStats {
    match g
    case Win(attempts) => RecordWin(s, attempts)
    case Loss => RecordLoss(s)
  }

  /** The statistics after recording `games`, oldest first. */
  function Replay(s: DailyStats, games: seq<GameResult>): DailyStats {
    if |games| == 0 then s else Record(Replay(s, games[..|games| - 1]), games[|games| - 1])
  }

  // ------------------------------------------------------------ reference counts

  function Wins(games: seq<GameResult>): nat {
    if |games| == 0 then 0 else Wins(games[..|games| - 1]) + if games[|games| - 1].Win? then 1 else 0
  }

  function WinsIn(games: seq<GameResult>, k: int): nat {
    if |games| == 0 then 0
    else WinsIn(games[..|games| - 1], k) + if games[|games| - 1] == Win(k) then 1 else 0
  }

  /** Every win took one, two or three attempts. */
  predicate AttemptsInRange(games: seq<GameResult>) {
    forall i :: 0 <= i < |games| && games[i].Win? ==> 1 <= games[i].attempts <= 3
  }

  /** Games `i` up to but not including `j` are all wins. */
  predicate WinRun(games: seq<GameResult>, i: int, j: int) {
    0 <= i <= j <= |games| && forall k :: i <= k < j ==> games[k].Win?
  }

  /** `c` is the number of wins since the last loss. */
  predicate TrailingWins(games: seq<GameResult>, c: int) {
    0 <= c <= |games| && WinRun(games, |games| - c, |games|) && (c < |games| ==> games[|games| - c - 1].Loss?)
  }

  /** `m` is the length of the longest run of consecutive wins. */
  ghost predicate LongestRun(games: seq<GameResult>, m: int) {
    (forall i, j :: WinRun(games, i, j) ==> j - i <= m) && exists i, j :: WinRun(games, i, j) && j - i == m
  }

  /** The statistics hold together. */
  predicate Consistent(s: DailyStats) {
    0 <= s.won <= s.played && 0 <= s.currentStreak <= s.maxStreak &&
    s.guessDistribution.Keys == {1, 2, 3} &&
    Count(s.guessDistribution, 1) >= 0 && Count(s.guessDistribution, 2) >= 0 && Count(s.guessDistribution, 3) >= 0 &&
    Count(s.guessDistribution, 1) + Count(s.guessDistribution, 2) + Count(s.guessDistribution, 3) == s.won
  }

  // ------------------------------------------------------------ lemmas

  lemma ReplayLast(s: DailyStats, games: seq<GameResult>, g: GameResult)
    ensures Replay(s, games + [g]) == Record(Replay(s, games), g)
  {
    assert (games + [g])[..|games|] == games;
  }

  lemma CountsLast(games: seq<GameResult>, g: GameResult)
    ensures Wins(games + [g]) == Wins(games) + if g.Win? then 1 else 0
    ensures forall k :: WinsIn(games + [g], k) == WinsIn(games, k) + if g == Win(k) then 1 else 0
  {
    assert (games + [g])[..|games|] == games;
  }

  /**
   * Replayed from the initial statistics: `played` counts every game, `won`
   * the wins, and the distribution the wins taken in each number of attempts.
   */
  lemma {:induction false} ReplayCounts(games: seq<GameResult>)
    ensures var r := Replay(INITIAL_STATS, games);
      r.played == |games| && r.won == Wins(games) &&
      forall k :: Count(r.guessDistribution, k) == WinsIn(games, k)
  {
    if |games| > 0 {
      var p, g := games[..|games| - 1], games[|games| - 1];
      assert games == p + [g];
      ReplayCounts(p);
      ReplayLast(INITIAL_STATS, p, g);
      CountsLast(p, g);
    }
  }

  /** With every win in one to three attempts, the three counts add up to the wins. */
  lemma {:induction false} WinsSplit(games: seq<GameResult>)
    requires AttemptsInRange(games)
    ensures WinsIn(games, 1) + WinsIn(games, 2) + WinsIn(games, 3) == Wins(games)
  {
    if |games| > 0 {
      var p, g := games[..|games| - 1], games[|games| - 1];
      assert games == p + [g];
      assert AttemptsInRange(p) by {
        forall i | 0 <= i < |p| && p[i].Win? ensures 1 <= p[i].attempts <= 3 { assert p[i] == games[i]; }
      }
      WinsSplit(p);
      CountsLast(p, g);
    }
  }

  /** The distribution keeps exactly the keys 1, 2 and 3 while every win takes one to three attempts. */
  lemma {:induction false} ReplayKeys(games: seq<GameResult>)
    requires AttemptsInRange(games)
    ensures Replay(INITIAL_STATS, games).guessDistribution.Keys == {1, 2, 3}
  {
    if |games| > 0 {
      var p, g := games[..|games| - 1], games[|games| - 1];
      assert games == p + [g];
      assert AttemptsInRange(p) by {
        forall i | 0 <= i < |p| && p[i].Win? ensures 1 <= p[i].attempts <= 3 { assert p[i] == games[i]; }
      }
      ReplayKeys(p);
      ReplayLast(INITIAL_STATS, p, g);
    }
  }

  /** A loss ends every run of wins. */
  lemma StreaksAfterLoss(games: seq<GameResult>, m: int)
    requires LongestRun(games, m)
    ensures TrailingWins(games + [Loss], 0) && LongestRun(games + [Loss], m)
  {
    var q := games + [Loss];
    assert q[|games|] == Loss;
    forall i, j | WinRun(q, i, j) ensures j - i <= m {
      if j <= |games| {
        assert WinRun(games, i, j) by {
          forall k | i <= k < j ensures games[k].Win? { assert q[k] == games[k]; }
        }
      }
    }
    var i, j :| WinRun(games, i, j) && j - i == m;
    assert WinRun(q, i, j) by {
      forall k | i <= k < j ensures q[k].Win? { assert q[k] == games[k]; }
    }
  }

  /** A win extends the run since the last loss by one; the longest run grows to it if it is longer. */
  lemma StreaksAfterWin(games: seq<GameResult>, c: int, m: int, a: int)
    requires TrailingWins(games, c) && LongestRun(games, m) && c <= m
    ensures TrailingWins(games + [Win(a)], c + 1) && LongestRun(games + [Win(a)], Max(c + 1, m))
  {
    var q := games + [Win(a)];
    var n := |games|;
    assert WinRun(q, n - c, n + 1) by {
      forall k | n - c <= k < n + 1 ensures q[k].Win? { if k < n { assert q[k] == games[k]; } }
    }
    if c < n { assert q[n - c - 1] == games[n - c - 1]; }
    forall i, j | WinRun(q, i, j) ensures j - i <= Max(c + 1, m) {
      if j <= n {
        assert WinRun(games, i, j) by {
          forall k | i <= k < j ensures games[k].Win? { assert q[k] == games[k]; }
        }
      }
    }
    if c + 1 <= m {
      var i, j :| WinRun(games, i, j) && j - i == m;
      assert WinRun(q, i, j) by {
        forall k | i <= k < j ensures q[k].Win? { assert q[k] == games[k]; }
      }
    }
  }

  /**
   * Replayed from the initial statistics, `currentStreak` is the number of
   * wins since the last loss and `maxStreak` the longest run of wins.
   */
  lemma {:induction false} ReplayStreaks(games: seq<GameResult>)
    ensures var r := Replay(INITIAL_STATS, games);
      TrailingWins(games, r.currentStreak) && LongestRun(games, r.maxStreak) && r.currentStreak <= r.maxStreak
  {
    if |games| == 0 {
      assert WinRun(games, 0, 0);
    } else {
      var p, g := games[..|games| - 1], games[|games| - 1];
      assert games == p + [g];
      ReplayStreaks(p);
      ReplayLast(INITIAL_STATS, p, g);
      var r := Replay(INITIAL_STATS, p);
      match g
      case Loss => StreaksAfterLoss(p, r.maxStreak);
      case Win(a) => StreaksAfterWin(p, r.currentStreak, r.maxStreak, a);
    }
  }

  /** Statistics replayed from the initial ones, with every win in one to three attempts, are consistent. */
  lemma ReplayConsistent(games: seq<GameResult>)
    requires AttemptsInRange(games)
    ensures Consistent(Replay(INITIAL_STATS, games))
  {
    ReplayCounts(games);
    WinsSplit(games);
    ReplayKeys(games);
    ReplayStreaks(games);
  }
}

/**
 * The statistics update of a correct guess as the store writes it, with the
 * distribution as the shared object it is at run time: `{ ...stats }` copies
 * the reference to `guessDistribution`, and the count is then bumped in
 * place. While `stats` is still the initial statistics object, the bump
 * lands in that object, which a later reset installs again.
 */
module SharedStats {
  import opened Stats
  import opened Ints

  /** The `guessDistribution` object. */
  class Distribution {
    var counts: map<int, int>

    constructor(counts: map<int, int>)
      ensures this.counts == counts
    {
      this.counts := counts;
    }
  }

  /** A `DailyStats` object: four numbers and a reference to its distribution. */
  datatype StatsObject = StatsObject(played: int, won: int, currentStreak: int, maxStreak: int, guessDistribution: Distribution)

  /** The statistics part of the store, holding `initialStats` as the object it is. */
  class StatsStore {
    const initialStats: StatsObject
    var stats: StatsObject

    constructor()
      ensures initialStats.played == 0 && initialStats.won == 0 &&
        initialStats.currentStreak == 0 && initialStats.maxStreak == 0
      ensures initialStats.guessDistribution.counts == map[1 := 0, 2 := 0, 3 := 0]
      ensures stats == initialStats && fresh(initialStats.guessDistribution)
    {
      var d := new Distribution(map[1 := 0, 2 := 0, 3 := 0]);
      initialStats := StatsObject(0, 0, 0, 0, d);
      stats := initialStats;
    }

    /** A win in `attempts` attempts: a copied stats object whose distribution is the old one, bumped in place. */
    method RecordWin(attempts: int)
      modifies this, stats.guessDistribution
      ensures stats == StatsObject(old(stats.played) + 1, old(stats.won) + 1, old(stats.currentStreak) + 1,
        Max(old(stats.currentStreak) + 1, old(stats.maxStreak)), old(stats.guessDistribution))
      ensures stats.guessDistribution.counts ==
        old(stats.guessDistribution.counts)[attempts := Count(old(stats.guessDistribution.counts), attempts) + 1]
    {
      var newStats := stats.(played := stats.played + 1, won := stats.won + 1, currentStreak := stats.currentStreak + 1);
      newStats := newStats.(maxStreak := Max(newStats.currentStreak, newStats.maxStreak));
      var d := newStats.guessDistribution;
      d.counts := d.counts[attempts := Count(d.counts, attempts) + 1];
      stats := newStats;
    }

    method ResetStats()
      modifies this
      ensures stats == initialStats
    {
      stats := initialStats;
    }
  }

  /**
   * A first win in one attempt, then a reset: the statistics read no games
   * played and none won, yet their distribution still counts one win.
   */
  method ResetAfterFirstWin() returns (played: int, won: int, recorded: int)
    ensures played == 0 && won == 0 && recorded == 1
  {
    var store := new StatsStore();
    store.RecordWin(1);
    store.ResetStats();
    played, won := store.stats.played, store.stats.won;
    var c := store.stats.guessDistribution.counts;
    recorded := Count(c, 1) + Count(c, 2) + Count(c, 3);
  }
}

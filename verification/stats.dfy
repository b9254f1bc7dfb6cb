/**
 * The player statistics of statsService.ts: four counters kept in browser
 * storage, read back with a default and updated once per finished match.
 */
module Stats {

  datatype PlayerStats = PlayerStats(gamesPlayed: int, wins: int, losses: int, winStreak: int)

  /** What a fresh browser reads: every counter at zero. */
  const DEFAULT_STATS: PlayerStats := PlayerStats(0, 0, 0, 0)

  datatype GameResult = Win | Loss

  /**
   * The storage slot under the stats key: nothing (or an empty string)
   * stored, a value that does not parse, or saved counters.
   */
  datatype Stored = Missing | Unreadable | Saved(stats: PlayerStats)

  /**
   * The counters after one more match: one more game, and either one more
   * win with the streak extended, or one more loss with the streak broken.
   */
  function Recorded(current: PlayerStats, result: GameResult): (r: PlayerStats)
    ensures r.gamesPlayed == current.gamesPlayed + 1
    ensures result == Win ==> r.wins == current.wins + 1 && r.winStreak == current.winStreak + 1 && r.losses == current.losses
    ensures result == Loss ==> r.losses == current.losses + 1 && r.winStreak == 0 && r.wins == current.wins
  {
    match result
    case Win => current.(gamesPlayed := current.gamesPlayed + 1, wins := current.wins + 1, winStreak := current.winStreak + 1)
    case Loss => current.(gamesPlayed := current.gamesPlayed + 1, losses := current.losses + 1, winStreak := 0)
  }

  /** Every game is a win or a loss, and the current streak is made of wins. */
  predicate Consistent(st: PlayerStats)
  {
    && 0 <= st.wins
    && 0 <= st.losses
    && st.gamesPlayed == st.wins + st.losses
    && 0 <= st.winStreak <= st.wins
  }

  /** Exactly one of wins and losses moves, so consistent counters stay consistent. */
  lemma RecordKeepsConsistent(st: PlayerStats, result: GameResult)
    requires Consistent(st)
    ensures Consistent(Recorded(st, result))
  {
  }

  /** The counters after the results in order, oldest first. */
  function RecordAll(st: PlayerStats, results: seq<GameResult>): PlayerStats
    decreases |results|
  {
    if results == [] then st
    else Recorded(RecordAll(st, results[..|results| - 1]), results[|results| - 1])
  }

  /** How many of the results are `r`. */
  function Occurrences(results: seq<GameResult>, r: GameResult): nat
    decreases |results|
  {
    if results == [] then 0
    else Occurrences(results[..|results| - 1], r) + (if results[|results| - 1] == r then 1 else 0)
  }

  /** The length of the run of wins that ends the sequence. */
  function TrailingWins(results: seq<GameResult>): nat
    decreases |results|
  {
    if results == [] || results[|results| - 1] == Loss then 0
    else TrailingWins(results[..|results| - 1]) + 1
  }

  /**
   * From the default, the counters are a summary of the match history:
   * the number of games, of wins and of losses, and the current streak of
   * wins.
   */
  lemma {:induction false} RecordAllSummarises(results: seq<GameResult>)
    ensures RecordAll(DEFAULT_STATS, results)
         == PlayerStats(|results|, Occurrences(results, Win), Occurrences(results, Loss), TrailingWins(results))
    decreases |results|
  {
    if results != [] {
      RecordAllSummarises(results[..|results| - 1]);
    }
  }

  /** Any history recorded from the default leaves the counters consistent. */
  lemma {:induction false} HistoryIsConsistent(results: seq<GameResult>)
    ensures Consistent(RecordAll(DEFAULT_STATS, results))
    decreases |results|
  {
    if results != [] {
      HistoryIsConsistent(results[..|results| - 1]);
      RecordKeepsConsistent(RecordAll(DEFAULT_STATS, results[..|results| - 1]), results[|results| - 1]);
    }
  }

  /** The storage slot, read and written by `getStats` and `updateStats`. */
  class StatsStore {
    var slot: Stored

    constructor (slot: Stored)
      ensures this.slot == slot
    {
      this.slot := slot;
    }

    /** getStats: the saved counters, or the default when there are none or they cannot be read. */
    function GetStats(): (st: PlayerStats)
      reads this
      ensures slot.Saved? ==> st == slot.stats
      ensures !slot.Saved? ==> st == DEFAULT_STATS
    {
      if slot.Saved? then slot.stats else DEFAULT_STATS
    }

    /**
     * updateStats: reads the counters, updates a copy field by field, saves
     * it and returns it, so the next read sees exactly the returned value.
     */
    method UpdateStats(result: GameResult) returns (newStats: PlayerStats)
      modifies this
      ensures newStats == Recorded(old(GetStats()), result)
      ensures slot == Saved(newStats)
      ensures GetStats() == newStats
    {
      var current := GetStats();
      newStats := current;
      newStats := newStats.(gamesPlayed := newStats.gamesPlayed + 1);
      if result == Win {
        newStats := newStats.(wins := newStats.wins + 1);
        newStats := newStats.(winStreak := newStats.winStreak + 1);
      } else {
        newStats := newStats.(losses := newStats.losses + 1);
        newStats := newStats.(winStreak := 0);
      }
      slot := Saved(newStats);
    }
  }
}

/** The statistics kept across games and their update at the end of a game
    (reaction-dot.js, lines 251-262): one more game played, the best (lowest)
    mean reaction time and the best (highest) IQ score. */
module BestStats {
  import opened Wrappers

  /** Games played, best mean and best IQ; None is the game's `null`. */
  datatype Stats = Stats(totalGames: nat, bestAvg: Option<real>, bestIQ: Option<int>)

  /** The statistics after the settings reset (lines 321-327). */
  const Cleared: Stats := Stats(0, None, None)

  /** One finished game: its mean reaction time and its IQ score. */
  datatype Result = Result(avg: real, iq: int)

  /** The update of lines 251-262: the count goes up by one, the best mean
      becomes the smaller of the old best and the new mean, the best IQ the
      larger of the old best and the new score. */
  function Record(st: Stats, avg: real, iq: int): (t: Stats)
    ensures t.totalGames == st.totalGames + 1
    ensures t.bestAvg.Some? && t.bestAvg.value <= avg
    ensures st.bestAvg.Some? ==> t.bestAvg.value <= st.bestAvg.value
    ensures t.bestAvg == Some(avg) || t.bestAvg == st.bestAvg
    ensures t.bestIQ.Some? && t.bestIQ.value >= iq
    ensures st.bestIQ.Some? ==> t.bestIQ.value >= st.bestIQ.value
    ensures t.bestIQ == Some(iq) || t.bestIQ == st.bestIQ
    ensures st.bestAvg.Some? && avg >= st.bestAvg.value ==> t.bestAvg == st.bestAvg
    ensures st.bestIQ.Some? && iq <= st.bestIQ.value ==> t.bestIQ == st.bestIQ
  {
    var bestAvg := if st.bestAvg.None? || avg < st.bestAvg.value then Some(avg) else st.bestAvg;
    var bestIQ := if st.bestIQ.None? || iq > st.bestIQ.value then Some(iq) else st.bestIQ;
    Stats(st.totalGames + 1, bestAvg, bestIQ)
  }

  /** Recording the same result again changes the bests no further. */
  lemma RecordAgainKeepsBests(st: Stats, avg: real, iq: int)
    ensures Record(Record(st, avg, iq), avg, iq).bestAvg == Record(st, avg, iq).bestAvg
    ensures Record(Record(st, avg, iq), avg, iq).bestIQ == Record(st, avg, iq).bestIQ
  {
  }

  /** The statistics after a number of games, recorded one after another. */
  function RecordAll(st: Stats, games: seq<Result>): Stats
    decreases |games|
  {
    if games == [] then st
    else
      var last := games[|games| - 1];
      Record(RecordAll(st, games[..|games| - 1]), last.avg, last.iq)
  }

  /** The smallest mean among the games. */
  function MinAvg(games: seq<Result>): real
    requires games != []
    decreases |games|
  {
    var last := games[|games| - 1].avg;
    if |games| == 1 then last
    else
      var rest := MinAvg(games[..|games| - 1]);
      if last < rest then last else rest
  }

  /** The largest IQ score among the games. */
  function MaxIQ(games: seq<Result>): int
    requires games != []
    decreases |games|
  {
    var last := games[|games| - 1].iq;
    if |games| == 1 then last
    else
      var rest := MaxIQ(games[..|games| - 1]);
      if last > rest then last else rest
  }

  /** From cleared statistics, a number of games leave the count of those
      games, the smallest of their means and the largest of their scores. */
  lemma {:induction false} RecordAllFromCleared(games: seq<Result>)
    requires games != []
    ensures RecordAll(Cleared, games).totalGames == |games|
    ensures RecordAll(Cleared, games).bestAvg == Some(MinAvg(games))
    ensures RecordAll(Cleared, games).bestIQ == Some(MaxIQ(games))
    decreases |games|
  {
    if |games| > 1 {
      RecordAllFromCleared(games[..|games| - 1]);
    }
  }
}

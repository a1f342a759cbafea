/** The game itself (reaction-dot.js): its module-level state (lines 18-35)
    as the fields of one object, the difficulty selector (lines 170-180),
    startGame with its countdown (lines 182-214), showDot (lines 107-114),
    handleTap (lines 124-161), nextRound (lines 116-122), endGame (lines
    216-266), saveToLeaderboard (lines 268-281) and the settings reset
    (lines 320-329). The clock, Math.random and the square-root part of the
    scores are parameters; the local storage is the `leaderboard` field and
    the three statistics fields. */
module ReactionDot {
  import opened Wrappers
  import Difficulty
  import Scoring
  import Rounds
  import Countdown
  import Leaderboard
  import BestStats

  /** What endGame reads from code outside this model: the part of
      calculateIQ before the perfect bonus (line 83, it needs Math.sqrt), the
      result of calculateConsistencyScore (line 226) and the date string of
      the leaderboard entry (line 275). */
  datatype EndReadings = EndReadings(iqBase: real, consistency: int, date: string)

  /** The leaderboard entry endGame builds for a game with these reaction
      times and perfect count, played at this level. */
  function FinalEntry(times: seq<real>, perfects: nat, level: Difficulty.Level, readings: EndReadings): Leaderboard.Entry
  {
    Leaderboard.Entry(Scoring.Average(times), Scoring.CalculateIQ(times, perfects, readings.iqBase),
                      readings.consistency, perfects, readings.date, Difficulty.Name(level))
  }

  /** What a tap led to: nothing, or a recorded reaction and what follows the round. */
  datatype TapOutcome = Ignored | Scored(reaction: real, next: Rounds.Schedule)

  class Game {
    var round: nat
    var times: seq<real>
    var running: bool
    var startTime: real
    var streak: nat
    var bestStreak: nat
    var totalGames: nat
    var bestAvg: Option<real>
    var bestIQ: Option<int>
    var roundsTotal: nat
    var dotSize: nat
    var minDelay: int
    var maxDelay: int
    var consecutivePerfects: nat
    var totalPerfects: nat
    /** The value of the difficulty selector. */
    var selected: Difficulty.Level
    /** The countdown counter of startGame, and whether its interval is set. */
    var count: int
    var counting: bool
    /** The leaderboard held in local storage. */
    var leaderboard: seq<Leaderboard.Entry>

    /** The round counters, as the rules of module Rounds see them. */
    ghost function Session(): Rounds.Session
      reads this`round, this`times, this`running, this`streak, this`bestStreak,
            this`consecutivePerfects, this`totalPerfects
    {
      Rounds.Session(round, times, running, streak, bestStreak, consecutivePerfects, totalPerfects)
    }

    /** The statistics kept across games. */
    ghost function Stats(): BestStats.Stats
      reads this`totalGames, this`bestAvg, this`bestIQ
    {
      BestStats.Stats(totalGames, bestAvg, bestIQ)
    }

    /** The object invariant: consistent counters, a positive number of
        rounds, a non-empty delay interval, and no tap recorded
        while the countdown is on. */
    ghost predicate Valid()
      reads this`round, this`times, this`running, this`streak, this`bestStreak,
            this`consecutivePerfects, this`totalPerfects,
            this`roundsTotal, this`minDelay, this`maxDelay, this`count, this`counting
    {
      && Rounds.Consistent(Session())
      && 1 <= roundsTotal
      && minDelay < maxDelay
      && (counting ==> !running && round == 0 && -1 <= count <= Countdown.Start)
    }

    /** The state when the script loads: the declarations of lines 18-35,
        then the statistics and leaderboard read from local storage. */
    constructor (initial: Difficulty.Level, storedBoard: seq<Leaderboard.Entry>, stored: BestStats.Stats)
      ensures Session() == Rounds.Session(0, [], false, 0, 0, 0, 0)
      ensures Stats() == stored && leaderboard == storedBoard && selected == initial
      ensures roundsTotal == 10 && dotSize == 60 && minDelay == 400 && maxDelay == 1200
      ensures startTime == 0.0 && !counting
      ensures Valid()
    {
      round := 0;
      times := [];
      running := false;
      startTime := 0.0;
      streak := 0;
      bestStreak := 0;
      totalGames := stored.totalGames;
      bestAvg := stored.bestAvg;
      bestIQ := stored.bestIQ;
      roundsTotal := 10;
      dotSize := 60;
      minDelay := 400;
      maxDelay := 1200;
      consecutivePerfects := 0;
      totalPerfects := 0;
      selected := initial;
      count := Countdown.Start;
      counting := false;
      leaderboard := storedBoard;
    }

    /** The selector's change handler: the chosen row of the table becomes the
        round count, dot size and delay bounds. Nothing checks whether a
        game is on. */
    method SelectDifficulty(level: Difficulty.Level)
      requires Valid()
      modifies this`selected, this`roundsTotal, this`dotSize, this`minDelay, this`maxDelay
      ensures selected == level
      ensures var p := Difficulty.Settings(level);
              roundsTotal == p.rounds && dotSize == p.size && minDelay == p.minDelay && maxDelay == p.maxDelay
      ensures Valid()
    {
      selected := level;
      var settings := Difficulty.Settings(level);
      roundsTotal := settings.rounds;
      dotSize := settings.size;
      minDelay := settings.minDelay;
      maxDelay := settings.maxDelay;
    }

    /** startGame: reset the round counters (not the best streak or the
        perfect total) and start the countdown. */
    method StartGame()
      requires Valid()
      modifies this`round, this`times, this`running, this`streak, this`consecutivePerfects,
               this`count, this`counting
      ensures Session() == Rounds.Reset(old(Session()))
      ensures count == Countdown.Start && counting
      ensures Valid()
    {
      round := 0;
      times := [];
      running := false;
      streak := 0;
      consecutivePerfects := 0;
      count := Countdown.Start;
      counting := true;
    }

    /** One tick of the countdown interval: show the label, decrement the
        counter, and on the tick that takes it below -1 clear the interval,
        let taps count and schedule the first dot. */
    method CountdownTick(r: real) returns (shown: Countdown.Label, firstDelay: Option<real>)
      requires Valid() && counting
      modifies this`count, this`counting, this`running
      ensures shown == Countdown.Shown(old(count))
      ensures count == old(count) - 1
      ensures counting == !Countdown.Finishes(old(count))
      ensures running == Countdown.Finishes(old(count))
      ensures firstDelay.Some? <==> Countdown.Finishes(old(count))
      ensures firstDelay.Some? ==>
                Rounds.NextStep(round, roundsTotal, minDelay, maxDelay, r) == Rounds.ShowDotAfter(firstDelay.value)
      ensures firstDelay.Some? && 0.0 <= r < 1.0 ==>
                minDelay as real <= firstDelay.value < maxDelay as real
      ensures Valid()
    {
      shown := Countdown.Shown(count);
      count := count - 1;
      if count < -1 {
        counting := false;
        running := true;
        // nextRound(): no tap has been honoured yet, so round is 0 and below
        // roundsTotal, and nextRound schedules the first dot.
        firstDelay := Some(Rounds.RoundDelay(minDelay, maxDelay, r));
      } else {
        firstDelay := None;
      }
    }

    /** showDot: the dot appears and the clock reading is kept as the start of
        the reaction. */
    method ShowDot(now: real)
      requires Valid()
      modifies this`startTime
      ensures startTime == now
      ensures Valid()
    {
      startTime := now;
    }

    /** handleTap at clock reading `now`; `r` is the Math.random() value that
        nextRound would use, `readings` what endGame would read. */
    method HandleTap(now: real, r: real, readings: EndReadings) returns (outcome: TapOutcome)
      requires Valid()
      modifies this`round, this`times, this`running, this`streak, this`bestStreak,
               this`consecutivePerfects, this`totalPerfects,
               this`totalGames, this`bestAvg, this`bestIQ, this`leaderboard
      ensures !old(running) ==> outcome == Ignored && unchanged(this)
      ensures old(running) ==>
                outcome == Scored(now - old(startTime), Rounds.NextStep(round, roundsTotal, minDelay, maxDelay, r))
      ensures old(running) && outcome.next.Ended? ==>
                && Session() == Rounds.Tap(old(Session()), now - old(startTime), Difficulty.PerfectThreshold(selected)).(running := false)
                && Stats() == BestStats.Record(old(Stats()), Scoring.Average(times), Scoring.CalculateIQ(times, totalPerfects, readings.iqBase))
                && leaderboard == Leaderboard.Save(old(leaderboard), FinalEntry(times, totalPerfects, selected, readings))
      ensures old(running) && outcome.next.ShowDotAfter? ==>
                && Session() == Rounds.Tap(old(Session()), now - old(startTime), Difficulty.PerfectThreshold(selected))
                && Stats() == old(Stats())
                && leaderboard == old(leaderboard)
      ensures Valid()
    {
      if !running {
        return Ignored;
      }
      outcome := ScoreTap(now - startTime, r, readings);
    }

    /** handleTap past its guard: record the reaction, then nextRound. */
    method ScoreTap(reaction: real, r: real, readings: EndReadings) returns (outcome: TapOutcome)
      requires Valid() && running
      modifies this`round, this`times, this`running, this`streak, this`bestStreak,
               this`consecutivePerfects, this`totalPerfects,
               this`totalGames, this`bestAvg, this`bestIQ, this`leaderboard
      ensures outcome == Scored(reaction, Rounds.NextStep(round, roundsTotal, minDelay, maxDelay, r))
      ensures outcome.next.Ended? ==>
                && Session() == Rounds.Tap(old(Session()), reaction, Difficulty.PerfectThreshold(selected)).(running := false)
                && Stats() == BestStats.Record(old(Stats()), Scoring.Average(times), Scoring.CalculateIQ(times, totalPerfects, readings.iqBase))
                && leaderboard == Leaderboard.Save(old(leaderboard), FinalEntry(times, totalPerfects, selected, readings))
      ensures outcome.next.ShowDotAfter? ==>
                && Session() == Rounds.Tap(old(Session()), reaction, Difficulty.PerfectThreshold(selected))
                && Stats() == old(Stats())
                && leaderboard == old(leaderboard)
      ensures Valid()
    {
      RecordTap(reaction);
      var next := NextRound(r, readings);
      outcome := Scored(reaction, next);
    }

    /** The part of handleTap that records a tap: append the reaction, count
        the round, and apply the streak and perfect rule with the threshold of
        the selected difficulty. */
    method RecordTap(reaction: real)
      requires Valid() && running
      modifies this`round, this`times, this`streak, this`bestStreak,
               this`consecutivePerfects, this`totalPerfects
      ensures Session() == Rounds.Tap(old(Session()), reaction, Difficulty.PerfectThreshold(selected))
      ensures Valid()
    {
      times := times + [reaction];
      round := round + 1;

      var threshold := Difficulty.PerfectThreshold(selected);
      if reaction < threshold {
        streak := streak + 1;
        if streak > bestStreak {
          bestStreak := streak;
        }
        if reaction < threshold * 0.8 {
          consecutivePerfects := consecutivePerfects + 1;
          totalPerfects := totalPerfects + 1;
        }
      } else {
        streak := 0;
        consecutivePerfects := 0;
      }
    }

    /** nextRound: end the game once the round count has reached the number
        of rounds, otherwise return the delay after which the next dot shows. */
    method NextRound(r: real, readings: EndReadings) returns (next: Rounds.Schedule)
      requires Valid()
      modifies this`running, this`totalGames, this`bestAvg, this`bestIQ, this`leaderboard
      ensures next == Rounds.NextStep(round, roundsTotal, minDelay, maxDelay, r)
      ensures next.Ended? ==>
                && Session() == old(Session()).(running := false)
                && Stats() == BestStats.Record(old(Stats()), Scoring.Average(times), Scoring.CalculateIQ(times, totalPerfects, readings.iqBase))
                && leaderboard == Leaderboard.Save(old(leaderboard), FinalEntry(times, totalPerfects, selected, readings))
      ensures next.ShowDotAfter? ==>
                Session() == old(Session()) && Stats() == old(Stats()) && leaderboard == old(leaderboard)
      ensures Valid()
    {
      if round >= roundsTotal {
        EndGame(readings);
        return Rounds.Ended;
      }
      next := Rounds.ShowDotAfter(Rounds.RoundDelay(minDelay, maxDelay, r));
    }

    /** endGame: stop honouring taps, score the game, save it to the
        leaderboard and update the statistics. */
    method EndGame(readings: EndReadings)
      requires Valid()
      modifies this`running, this`totalGames, this`bestAvg, this`bestIQ, this`leaderboard
      ensures Session() == old(Session()).(running := false)
      ensures Stats() == BestStats.Record(old(Stats()), Scoring.Average(times), Scoring.CalculateIQ(times, totalPerfects, readings.iqBase))
      ensures leaderboard == Leaderboard.Save(old(leaderboard), FinalEntry(times, totalPerfects, selected, readings))
      ensures Valid()
    {
      running := false;
      var avg := Scoring.Average(times);
      var iq := Scoring.CalculateIQ(times, totalPerfects, readings.iqBase);
      var consistency := readings.consistency;
      SaveToLeaderboard(avg, iq, consistency, totalPerfects, readings.date);
      UpdateStats(avg, iq);
    }

    /** The statistics part of endGame: one more game played, and the best
        mean and best IQ replaced only by a strictly better result. */
    method UpdateStats(avg: real, iq: int)
      requires Valid()
      modifies this`totalGames, this`bestAvg, this`bestIQ
      ensures Valid() && Session() == old(Session())
      ensures Stats() == BestStats.Record(old(Stats()), avg, iq)
    {
      totalGames := totalGames + 1;
      if bestAvg.None? || avg < bestAvg.value {
        bestAvg := Some(avg);
      }
      if bestIQ.None? || iq > bestIQ.value {
        bestIQ := Some(iq);
      }
    }

    /** saveToLeaderboard: push the entry, sort by average, keep five. */
    method SaveToLeaderboard(avg: real, iq: int, consistency: int, perfects: nat, date: string)
      requires Valid()
      modifies this`leaderboard
      ensures Valid() && Session() == old(Session())
      ensures leaderboard ==
                Leaderboard.Save(old(leaderboard),
                                 Leaderboard.Entry(avg, iq, consistency, perfects, date, Difficulty.Name(selected)))
      ensures |leaderboard| <= Leaderboard.Capacity && Leaderboard.SortedByAvg(leaderboard)
    {
      var entry := Leaderboard.Entry(avg, iq, consistency, perfects, date, Difficulty.Name(selected));
      var lb := leaderboard + [entry];
      lb := Leaderboard.SortByAvg(lb);
      lb := lb[..Leaderboard.Min(|lb|, Leaderboard.Capacity)];
      leaderboard := lb;
    }

    /** The settings button: once confirmed, the leaderboard and the
        statistics are removed from storage and read back as empty. */
    method ResetStats(confirmed: bool)
      requires Valid()
      modifies this`totalGames, this`bestAvg, this`bestIQ, this`leaderboard
      ensures confirmed ==> Stats() == BestStats.Cleared && leaderboard == []
      ensures !confirmed ==> Stats() == old(Stats()) && leaderboard == old(leaderboard)
      ensures Valid()
    {
      if confirmed {
        leaderboard := [];
        totalGames := 0;
        bestAvg := None;
        bestIQ := None;
      }
    }
  }

  /** A game that has just been started honours no tap during its countdown
      and starts play on the fifth tick, which shows "Go!" and schedules the
      first dot. */
  method StartsOnFifthTick(g: Game, now: real, r: real, readings: EndReadings)
    returns (shown: Countdown.Label, firstDelay: Option<real>)
    requires g.Valid()
    modifies g
    ensures shown == Countdown.Go && firstDelay.Some?
    ensures g.Valid() && g.running && !g.counting && g.round == 0
  {
    g.StartGame();
    var tick: nat := 1;
    while tick < 5
      invariant 1 <= tick <= 5
      invariant g.Valid() && g.counting && !g.running && g.round == 0
      invariant g.count == Countdown.Start - (tick - 1)
    {
      var outcome := g.HandleTap(now, r, readings);
      assert outcome == Ignored;
      var early, none := g.CountdownTick(r);
      assert none == None;
      tick := tick + 1;
    }
    shown, firstDelay := g.CountdownTick(r);
  }
}

/** The round and scoring rules of the game, as functions on the game's
    counters (reaction-dot.js, lines 18-32): what a tap does (handleTap,
    lines 124-161), what starting a game resets (startGame, lines 182-187)
    and what comes after a round (nextRound, lines 116-122). */
module Rounds {

  /** The per-game counters. */
  datatype Session = Session(
    round: nat,
    times: seq<real>,
    running: bool,
    streak: nat,
    bestStreak: nat,
    consecutivePerfects: nat,
    totalPerfects: nat)

  /** What every reachable state keeps: one recorded reaction per completed
      round, the perfects of the current streak inside that streak and
      inside the running total of perfects, and a best streak never behind
      the current one. */
  predicate Consistent(s: Session)
  {
    && |s.times| == s.round
    && s.consecutivePerfects <= s.streak <= s.round
    && s.streak <= s.bestStreak
    && s.consecutivePerfects <= s.totalPerfects
  }

  function Max(a: int, b: int): int
  {
    if a < b then b else a
  }

  /** A tap extends the streak when it beats the threshold. */
  predicate Hit(reaction: real, threshold: real)
  {
    reaction < threshold
  }

  /** A perfect tap is a hit that also beats 0.8 of the threshold. */
  predicate Perfect(reaction: real, threshold: real)
  {
    Hit(reaction, threshold) && reaction < threshold * 0.8
  }

  /** The effect of one honoured tap with the given reaction time. */
  function Tap(s: Session, reaction: real, threshold: real): (t: Session)
    ensures t.round == s.round + 1 && t.times == s.times + [reaction]
    ensures t.running == s.running
    ensures Consistent(s) ==> Consistent(t)
    ensures Hit(reaction, threshold) ==>
              t.streak == s.streak + 1 && t.bestStreak == Max(s.bestStreak, t.streak)
    ensures !Hit(reaction, threshold) ==>
              t.streak == 0 && t.consecutivePerfects == 0 && t.bestStreak == s.bestStreak
    ensures Perfect(reaction, threshold) ==>
              t.consecutivePerfects == s.consecutivePerfects + 1 && t.totalPerfects == s.totalPerfects + 1
    ensures Hit(reaction, threshold) && !Perfect(reaction, threshold) ==>
              t.consecutivePerfects == s.consecutivePerfects
    ensures !Perfect(reaction, threshold) ==> t.totalPerfects == s.totalPerfects
  {
    var hit := reaction < threshold;
    var perfect := hit && reaction < threshold * 0.8;
    var streak := if hit then s.streak + 1 else 0;
    Session(
      s.round + 1,
      s.times + [reaction],
      s.running,
      streak,
      if hit && streak > s.bestStreak then streak else s.bestStreak,
      if !hit then 0 else if perfect then s.consecutivePerfects + 1 else s.consecutivePerfects,
      if perfect then s.totalPerfects + 1 else s.totalPerfects)
  }

  /** Starting a game: the round counters start again and play waits for the
      countdown, while the best streak and the perfect total carry over from
      earlier games. */
  function Reset(s: Session): (t: Session)
    ensures Consistent(t)
    ensures t.round == 0 && t.times == [] && !t.running
    ensures t.streak == 0 && t.consecutivePerfects == 0
    ensures t.bestStreak == s.bestStreak && t.totalPerfects == s.totalPerfects
  {
    s.(round := 0, times := [], running := false, streak := 0, consecutivePerfects := 0)
  }

  /** A run of honoured taps, applied in order. */
  function Play(s: Session, reactions: seq<real>, threshold: real): Session
    decreases |reactions|
  {
    if reactions == [] then s
    else Tap(Play(s, reactions[..|reactions| - 1], threshold), reactions[|reactions| - 1], threshold)
  }

  /** The number of perfect taps among the reactions. */
  function CountPerfects(reactions: seq<real>, threshold: real): nat
    decreases |reactions|
  {
    if reactions == [] then 0
    else CountPerfects(reactions[..|reactions| - 1], threshold)
         + (if Perfect(reactions[|reactions| - 1], threshold) then 1 else 0)
  }

  /** The number of hits at the end of the reactions, after the last miss. */
  function TrailingHits(reactions: seq<real>, threshold: real): nat
    decreases |reactions|
  {
    if reactions == [] then 0
    else if Hit(reactions[|reactions| - 1], threshold) then TrailingHits(reactions[..|reactions| - 1], threshold) + 1
    else 0
  }

  /** Every tap records its reaction and completes a round. */
  lemma {:induction false} PlayRecords(s: Session, reactions: seq<real>, threshold: real)
    ensures Play(s, reactions, threshold).round == s.round + |reactions|
    ensures Play(s, reactions, threshold).times == s.times + reactions
    ensures Play(s, reactions, threshold).running == s.running
    decreases |reactions|
  {
    if reactions != [] {
      var n := |reactions| - 1;
      PlayRecords(s, reactions[..n], threshold);
      assert reactions == reactions[..n] + [reactions[n]];
      assert s.times + reactions == (s.times + reactions[..n]) + [reactions[n]];
    }
  }

  /** Taps keep the counters consistent. */
  lemma {:induction false} PlayConsistent(s: Session, reactions: seq<real>, threshold: real)
    requires Consistent(s)
    ensures Consistent(Play(s, reactions, threshold))
    decreases |reactions|
  {
    if reactions != [] {
      PlayConsistent(s, reactions[..|reactions| - 1], threshold);
    }
  }

  /** The running total of perfects grows by exactly the perfect taps. */
  lemma {:induction false} PlayTotalPerfects(s: Session, reactions: seq<real>, threshold: real)
    ensures Play(s, reactions, threshold).totalPerfects == s.totalPerfects + CountPerfects(reactions, threshold)
    decreases |reactions|
  {
    if reactions != [] {
      PlayTotalPerfects(s, reactions[..|reactions| - 1], threshold);
    }
  }

  /** The streak is the run of hits since the last miss, continued from the
      streak before the taps when there was no miss. */
  lemma {:induction false} PlayStreak(s: Session, reactions: seq<real>, threshold: real)
    ensures TrailingHits(reactions, threshold) <= |reactions|
    ensures Play(s, reactions, threshold).streak ==
              (if TrailingHits(reactions, threshold) == |reactions| then s.streak else 0)
              + TrailingHits(reactions, threshold)
    decreases |reactions|
  {
    if reactions != [] {
      PlayStreak(s, reactions[..|reactions| - 1], threshold);
    }
  }

  /** The best streak after a run of taps is the larger of the best streak
      before it and every streak reached on the way. */
  lemma {:induction false} PlayBestStreak(s: Session, reactions: seq<real>, threshold: real)
    ensures s.bestStreak <= Play(s, reactions, threshold).bestStreak
    ensures forall k :: 0 < k <= |reactions| ==>
              Play(s, reactions[..k], threshold).streak <= Play(s, reactions, threshold).bestStreak
    ensures Play(s, reactions, threshold).bestStreak == s.bestStreak
            || exists k :: 0 < k <= |reactions| &&
                 Play(s, reactions[..k], threshold).streak == Play(s, reactions, threshold).bestStreak
    decreases |reactions|
  {
    if reactions != [] {
      var n := |reactions| - 1;
      var front := reactions[..n];
      PlayBestStreak(s, front, threshold);
      forall k | 0 < k <= n
        ensures reactions[..k] == front[..k]
      {
      }
      assert reactions[..n + 1] == reactions;
    }
  }

  /** Three fast taps on the easiest threshold: all three are hits (and
      perfects), so the streak reaches 3. */
  lemma ThreeFastTaps(s: Session)
    ensures var t := Play(Reset(s), [200.0, 200.0, 200.0], 300.0);
            t.streak == 3 && t.bestStreak == Max(s.bestStreak, 3)
            && t.totalPerfects == s.totalPerfects + 3
  {
    var s0 := Reset(s);
    var rs := [200.0, 200.0, 200.0];
    assert rs[..2][..1] == rs[..1];
    assert Play(s0, rs[..1], 300.0).streak == 1;
    assert Play(s0, rs[..2], 300.0).streak == 2;
  }

  /** A perfect tap followed by a miss: the miss clears the streak and the
      perfects of the streak, but not the perfect total. */
  lemma PerfectThenMiss(s: Session)
    ensures var t := Play(Reset(s), [100.0, 500.0], 300.0);
            t.streak == 0 && t.consecutivePerfects == 0
            && t.totalPerfects == s.totalPerfects + 1 && t.bestStreak == Max(s.bestStreak, 1)
  {
    var rs := [100.0, 500.0];
    assert rs[..1] == [100.0];
  }

  /** What follows a round: the end of the game, or the next dot after a delay. */
  datatype Schedule = ShowDotAfter(delay: real) | Ended

  /** The random delay before the next dot, from a random number r. */
  function RoundDelay(minDelay: int, maxDelay: int, r: real): (d: real)
    ensures 0.0 <= r < 1.0 && minDelay < maxDelay ==> minDelay as real <= d < maxDelay as real
    ensures minDelay == maxDelay ==> d == minDelay as real
  {
    minDelay as real + r * (maxDelay - minDelay) as real
  }

  /** nextRound: the game ends exactly when the round count has reached the
      number of rounds; otherwise the next dot is scheduled after a delay
      within the delay bounds. */
  function NextStep(round: nat, roundsTotal: nat, minDelay: int, maxDelay: int, r: real): (next: Schedule)
    ensures next.Ended? <==> round >= roundsTotal
    ensures next.ShowDotAfter? && 0.0 <= r < 1.0 && minDelay < maxDelay ==>
              minDelay as real <= next.delay < maxDelay as real
  {
    if round >= roundsTotal then Ended else ShowDotAfter(RoundDelay(minDelay, maxDelay, r))
  }

  /** A fresh game of n rounds ends at the n-th tap and at no earlier one. */
  lemma EndsAtLastRound(s: Session, reactions: seq<real>, threshold: real,
                        roundsTotal: nat, minDelay: int, maxDelay: int, r: real)
    requires |reactions| == roundsTotal
    ensures NextStep(Play(Reset(s), reactions, threshold).round, roundsTotal, minDelay, maxDelay, r) == Ended
    ensures forall k :: 0 <= k < roundsTotal ==>
              NextStep(Play(Reset(s), reactions[..k], threshold).round, roundsTotal, minDelay, maxDelay, r).ShowDotAfter?
  {
    PlayRecords(Reset(s), reactions, threshold);
    forall k | 0 <= k < roundsTotal
      ensures Play(Reset(s), reactions[..k], threshold).round == k
    {
      PlayRecords(Reset(s), reactions[..k], threshold);
    }
  }
}

/** The fixed difficulty table of the game (reaction-dot.js, lines 38-71). */
module Difficulty {

  /** The four values the difficulty selector offers. */
  datatype Level = Easy | Medium | Hard | Expert

  /** One row of the table: the number of rounds, the dot size in pixels,
      the bounds of the random delay before each dot and the perfect-tap
      threshold in milliseconds, and a streak bonus the game never reads. */
  datatype Profile = Profile(
    rounds: nat,
    size: nat,
    minDelay: int,
    maxDelay: int,
    perfectThreshold: int,
    streakBonus: real)

  /** Every row is a well-formed profile: at least one round, a non-empty
      delay interval of positive delays and a positive threshold. */
  function Settings(level: Level): (p: Profile)
    ensures p.rounds >= 1
    ensures 0 < p.minDelay < p.maxDelay
    ensures p.perfectThreshold > 0
  {
    match level
    case Easy => Profile(10, 60, 400, 1200, 300, 1.2)
    case Medium => Profile(15, 50, 300, 1000, 250, 1.3)
    case Hard => Profile(20, 40, 200, 800, 200, 1.4)
    case Expert => Profile(25, 30, 150, 600, 150, 1.5)
  }

  /** The threshold a tap is judged against, as a time in milliseconds. */
  function PerfectThreshold(level: Level): (ms: real)
    ensures ms > 0.0
  {
    Settings(level).perfectThreshold as real
  }

  /** The selector's value for a level; it is stored with each leaderboard entry. */
  function Name(level: Level): string
  {
    match level
    case Easy => "easy"
    case Medium => "medium"
    case Hard => "hard"
    case Expert => "expert"
  }
}

/** The "Get Ready" countdown of startGame (reaction-dot.js, lines 202-213):
    a counter that starts at 3 and is decremented once per 700 ms tick;
    play starts on the tick that takes it below -1. */
module Countdown {

  /** The value the counter starts from. */
  const Start: int := 3

  /** What a tick shows: the counter while it is positive, then "Go!". */
  datatype Label = Number(n: int) | Go

  /** The label shown by the tick that finds the counter at `count`. */
  function Shown(count: int): Label
  {
    if count > 0 then Number(count) else Go
  }

  /** The tick that finds the counter at `count` is the one that starts play. */
  predicate Finishes(count: int)
  {
    count - 1 < -1
  }

  /** The labels shown from a counter at `count` up to and including the tick
      that starts play: one label per tick, the last tick showing "Go!". */
  function Labels(count: int): (ls: seq<Label>)
    requires count >= -1
    ensures |ls| == count + 2
    ensures ls[|ls| - 1] == Go
    ensures forall i :: 0 <= i < |ls| ==> ls[i] == Shown(count - i)
    decreases count + 1
  {
    if Finishes(count) then [Shown(count)] else [Shown(count)] + Labels(count - 1)
  }

  /** From 3 the countdown shows 3, 2, 1, "Go!" and "Go!": play starts on the
      fifth tick. */
  lemma FromStart()
    ensures Labels(Start) == [Number(3), Number(2), Number(1), Go, Go]
  {
    var ls := Labels(Start);
    assert ls[0] == Shown(3) && ls[1] == Shown(2) && ls[2] == Shown(1);
    assert ls[3] == Shown(0) && ls[4] == Shown(-1);
  }
}

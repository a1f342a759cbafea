/** The numeric scoring the game applies at the end of a game: the mean
    reaction time (reaction-dot.js, line 224) and the last steps of
    calculateIQ (lines 74 and 81-84). */
module Scoring {

  /** The total of the reaction times, added from left to right as
      `reduce((a, b) => a + b, 0)` does. */
  function Sum(times: seq<real>): real
  {
    if times == [] then 0.0 else Sum(times[..|times| - 1]) + times[|times| - 1]
  }

  /** The mean reaction time of a game; a game without taps has mean 0. */
  function Average(times: seq<real>): (avg: real)
    ensures times == [] ==> avg == 0.0
  {
    if |times| == 0 then 0.0 else Sum(times) / (|times| as real)
  }

  lemma {:induction false} SumAppend(a: seq<real>, b: seq<real>)
    ensures Sum(a + b) == Sum(a) + Sum(b)
    decreases |b|
  {
    if b == [] {
      assert a + b == a;
    } else {
      var n := |b| - 1;
      assert (a + b)[..|a + b| - 1] == a + b[..n];
      assert (a + b)[|a + b| - 1] == b[n];
      SumAppend(a, b[..n]);
    }
  }

  /** n times bounded by lo and hi add up to between n * lo and n * hi. */
  lemma {:induction false} SumBounds(times: seq<real>, lo: real, hi: real)
    requires forall i :: 0 <= i < |times| ==> lo <= times[i] <= hi
    ensures |times| as real * lo <= Sum(times) <= |times| as real * hi
    decreases |times|
  {
    if times != [] {
      var n := |times| - 1;
      var front := times[..n];
      assert forall i :: 0 <= i < |front| ==> front[i] == times[i];
      SumBounds(front, lo, hi);
      assert Sum(times) == Sum(front) + times[n];
      assert (n as real + 1.0) * lo == n as real * lo + lo;
      assert (n as real + 1.0) * hi == n as real * hi + hi;
    }
  }

  /** Dividing by a positive count keeps bounds that hold for count times them. */
  lemma DivideBounds(total: real, n: real, lo: real, hi: real)
    requires n > 0.0 && n * lo <= total <= n * hi
    ensures lo <= total / n <= hi
  {
    assert total / n - lo == (total - n * lo) / n;
    assert hi - total / n == (n * hi - total) / n;
  }

  /** The mean of a game lies between its fastest and slowest reaction. */
  lemma AverageWithin(times: seq<real>, lo: real, hi: real)
    requires times != []
    requires forall i :: 0 <= i < |times| ==> lo <= times[i] <= hi
    ensures lo <= Average(times) <= hi
  {
    SumBounds(times, lo, hi);
    DivideBounds(Sum(times), |times| as real, lo, hi);
  }

  /** The total does not depend on the order of the reactions. */
  lemma {:induction false} SumOrderInsensitive(a: seq<real>, b: seq<real>)
    requires multiset(a) == multiset(b)
    ensures Sum(a) == Sum(b)
    decreases |a|
  {
    if a != [] {
      var n := |a| - 1;
      var x := a[n];
      assert a == a[..n] + [x];
      assert x in multiset(b);
      var j :| 0 <= j < |b| && b[j] == x;
      var rest := b[..j] + b[j + 1..];
      assert b == b[..j] + [x] + b[j + 1..];
      assert multiset(a) == multiset(a[..n]) + multiset{x};
      assert multiset(b) == multiset(b[..j]) + multiset{x} + multiset(b[j + 1..]);
      assert multiset(rest) == multiset(b[..j]) + multiset(b[j + 1..]);
      assert multiset(a[..n]) == multiset(a) - multiset{x};
      assert multiset(rest) == multiset(b) - multiset{x};
      SumOrderInsensitive(a[..n], rest);
      SumAppend(b[..j] + [x], b[j + 1..]);
      SumAppend(b[..j], [x]);
      SumAppend(b[..j], b[j + 1..]);
      assert Sum([x]) == x by {
        assert [x][..0] == [];
      }
    }
  }

  /** The mean is a function of the multiset of reaction times. */
  lemma AverageOrderInsensitive(a: seq<real>, b: seq<real>)
    requires multiset(a) == multiset(b)
    ensures Average(a) == Average(b)
  {
    assert |a| == |multiset(a)| == |multiset(b)| == |b|;
    SumOrderInsensitive(a, b);
  }

  /** JavaScript's Math.round: the nearest integer, halves rounded up. */
  function Round(x: real): (n: int)
    ensures n as real - 0.5 <= x < n as real + 0.5
  {
    (x + 0.5).Floor
  }

  /** The clamp of line 84: Math.max(70, Math.min(iq, 160)). */
  function ClampIQ(raw: int): (iq: int)
    ensures 70 <= iq <= 160
    ensures 70 <= raw <= 160 ==> iq == raw
    ensures raw < 70 ==> iq == 70
    ensures raw > 160 ==> iq == 160
  {
    var upper := if raw < 160 then raw else 160;
    if 70 > upper then 70 else upper
  }

  /** calculateIQ(times, perfects). `base` stands for
      `baseIQ + (reactionFactor - 100) * 0.7 + consistencyFactor * 20`,
      which needs a square root and is computed outside this model; the
      model adds 2 points per perfect tap, rounds and clamps, and gives the
      floor value 70 to a game without taps. */
  function CalculateIQ(times: seq<real>, perfects: nat, base: real): (iq: int)
    ensures 70 <= iq <= 160
    ensures times == [] ==> iq == 70
  {
    if |times| == 0 then 70 else ClampIQ(Round(base + (perfects * 2) as real))
  }

  /** Adding a whole number before rounding adds it after rounding. */
  lemma RoundShift(x: real, k: int)
    ensures Round(x + k as real) == Round(x) + k
  {
    var n := Round(x);
    assert (n + k) as real - 0.5 <= x + k as real < (n + k) as real + 0.5;
    assert ((x + k as real) + 0.5).Floor == n + k;
  }

  /** Each perfect tap is worth exactly two points until the clamp. */
  lemma PerfectWorthTwo(times: seq<real>, perfects: nat, base: real)
    requires times != []
    requires 70 <= Round(base) + perfects * 2 && Round(base) + perfects * 2 + 2 <= 160
    ensures CalculateIQ(times, perfects + 1, base) == CalculateIQ(times, perfects, base) + 2
  {
    RoundShift(base, perfects * 2);
    RoundShift(base, (perfects + 1) * 2);
  }

  /** More perfect taps never lower the score, other inputs held fixed. */
  lemma IQNonDecreasingInPerfects(times: seq<real>, p: nat, q: nat, base: real)
    requires p <= q
    ensures CalculateIQ(times, p, base) <= CalculateIQ(times, q, base)
  {
    if times != [] {
      RoundShift(base, p * 2);
      RoundShift(base, q * 2);
    }
  }

  /** A higher base never lowers the score, other inputs held fixed. */
  lemma IQNonDecreasingInBase(times: seq<real>, perfects: nat, b1: real, b2: real)
    requires b1 <= b2
    ensures CalculateIQ(times, perfects, b1) <= CalculateIQ(times, perfects, b2)
  {
    var x1 := b1 + (perfects * 2) as real;
    var x2 := b2 + (perfects * 2) as real;
    assert Round(x1) <= Round(x2) by {
      assert Round(x1) as real - 0.5 <= x1 <= x2 < Round(x2) as real + 0.5;
    }
  }
}

/** The leaderboard kept in local storage and its update by
    saveToLeaderboard (reaction-dot.js, lines 268-281): push the new entry,
    sort ascending by average with the comparator `a.avg - b.avg`, keep the
    first five. */
module Leaderboard {

  /** One finished game: mean reaction time, IQ score, consistency score,
      perfect-tap count, the ISO date string and the difficulty name. */
  datatype Entry = Entry(
    avg: real,
    iq: int,
    consistency: int,
    perfects: nat,
    date: string,
    difficulty: string)

  /** The number of entries the leaderboard keeps. */
  const Capacity: nat := 5

  predicate SortedByAvg(lb: seq<Entry>)
  {
    forall i, j :: 0 <= i < j < |lb| ==> lb[i].avg <= lb[j].avg
  }

  /** Puts e after every leading entry whose average is at most e's: on a
      sorted list, where a stable sort puts an entry pushed at the end. */
  function Insert(lb: seq<Entry>, e: Entry): (r: seq<Entry>)
    ensures |r| == |lb| + 1
  {
    if lb == [] then [e]
    else if e.avg < lb[0].avg then [e] + lb
    else [lb[0]] + Insert(lb[1..], e)
  }

  /** Inserting adds e and loses nothing. */
  lemma {:induction false} InsertPermutes(lb: seq<Entry>, e: Entry)
    ensures multiset(Insert(lb, e)) == multiset(lb) + multiset{e}
    decreases |lb|
  {
    if lb != [] && e.avg >= lb[0].avg {
      InsertPermutes(lb[1..], e);
      assert lb == [lb[0]] + lb[1..];
    }
  }

  /** A bound below every entry and below e stays below every entry after
      the insertion. */
  lemma {:induction false} InsertAbove(lb: seq<Entry>, e: Entry, bound: real)
    requires forall i :: 0 <= i < |lb| ==> bound <= lb[i].avg
    requires bound <= e.avg
    ensures forall i :: 0 <= i < |lb| + 1 ==> bound <= Insert(lb, e)[i].avg
    decreases |lb|
  {
    if lb != [] && e.avg >= lb[0].avg {
      InsertAbove(lb[1..], e, bound);
    }
  }

  /** Inserting into a sorted list keeps it sorted. */
  lemma {:induction false} InsertSorted(lb: seq<Entry>, e: Entry)
    requires SortedByAvg(lb)
    ensures SortedByAvg(Insert(lb, e))
    decreases |lb|
  {
    if lb != [] && e.avg >= lb[0].avg {
      var tail := Insert(lb[1..], e);
      InsertSorted(lb[1..], e);
      InsertAbove(lb[1..], e, lb[0].avg);
      assert Insert(lb, e) == [lb[0]] + tail;
    }
  }

  /** Array.prototype.sort with the comparator `a.avg - b.avg`. The sort is
      stable, so the model is an insertion sort that inserts the entries in
      their original order, each after the equal ones before it. */
  function SortByAvg(lb: seq<Entry>): (r: seq<Entry>)
    ensures |r| == |lb|
    decreases |lb|
  {
    if lb == [] then []
    else
      var n := |lb| - 1;
      Insert(SortByAvg(lb[..n]), lb[n])
  }

  /** The sort returns a permutation of its input. */
  lemma {:induction false} SortByAvgPermutes(lb: seq<Entry>)
    ensures multiset(SortByAvg(lb)) == multiset(lb)
    decreases |lb|
  {
    if lb != [] {
      var n := |lb| - 1;
      var front := SortByAvg(lb[..n]);
      calc {
        multiset(SortByAvg(lb));
        multiset(Insert(front, lb[n]));
        { InsertPermutes(front, lb[n]); }
        multiset(front) + multiset{lb[n]};
        { SortByAvgPermutes(lb[..n]); }
        multiset(lb[..n]) + multiset{lb[n]};
        multiset(lb[..n] + [lb[n]]);
        { assert lb[..n] + [lb[n]] == lb; }
        multiset(lb);
      }
    }
  }

  /** The sort returns its input in ascending order of average. */
  lemma {:induction false} SortByAvgSorted(lb: seq<Entry>)
    ensures SortedByAvg(SortByAvg(lb))
    decreases |lb|
  {
    if lb != [] {
      var n := |lb| - 1;
      SortByAvgSorted(lb[..n]);
      InsertSorted(SortByAvg(lb[..n]), lb[n]);
    }
  }

  function Min(a: int, b: int): int
  {
    if a < b then a else b
  }

  /** In a sorted list every entry of a prefix is at most every entry of the
      rest. */
  lemma PrefixBeforeRest(s: seq<Entry>, k: nat)
    requires SortedByAvg(s) && k <= |s|
    ensures forall x, y :: x in s[..k] && y in multiset(s[k..]) ==> x.avg <= y.avg
  {
    forall x, y | x in s[..k] && y in multiset(s[k..])
      ensures x.avg <= y.avg
    {
      assert y in s[k..];
      var i :| 0 <= i < k && s[..k][i] == x;
      var j :| 0 <= j < |s| - k && s[k..][j] == y;
      assert s[i] == x && s[k + j] == y;
    }
  }

  /** The leaderboard after a game: at most five entries of the old board
      and the new one, in ascending order of average. */
  function Save(lb: seq<Entry>, e: Entry): (r: seq<Entry>)
    ensures |r| == Min(|lb| + 1, Capacity)
    ensures SortedByAvg(r)
  {
    SortByAvgSorted(lb + [e]);
    var sorted := SortByAvg(lb + [e]);
    sorted[..Min(|sorted|, Capacity)]
  }

  /** The kept entries come from the old board and the new entry, and they
      are the best ones: no entry that was cut has a lower average than an
      entry that was kept. */
  lemma SaveKeepsBest(lb: seq<Entry>, e: Entry)
    ensures multiset(Save(lb, e)) <= multiset(lb + [e])
    ensures var r := Save(lb, e);
            forall x, y :: x in r && y in multiset(lb + [e]) - multiset(r) ==> x.avg <= y.avg
  {
    var sorted := SortByAvg(lb + [e]);
    var k := Min(|sorted|, Capacity);
    SortByAvgPermutes(lb + [e]);
    SortByAvgSorted(lb + [e]);
    assert sorted == sorted[..k] + sorted[k..];
    assert multiset(sorted) == multiset(sorted[..k]) + multiset(sorted[k..]);
    assert multiset(lb + [e]) - multiset(sorted[..k]) == multiset(sorted[k..]);
    PrefixBeforeRest(sorted, k);
  }

  /** Inserting an entry no better than all of a sorted list appends it. */
  lemma {:induction false} InsertLast(lb: seq<Entry>, e: Entry)
    requires forall i :: 0 <= i < |lb| ==> lb[i].avg <= e.avg
    ensures Insert(lb, e) == lb + [e]
    decreases |lb|
  {
    if lb != [] {
      InsertLast(lb[1..], e);
      assert [lb[0]] + (lb[1..] + [e]) == lb + [e];
    }
  }

  /** The place where a stable sort puts e in a sorted list: after every
      leading entry whose average is at most e's. */
  function Position(lb: seq<Entry>, e: Entry): (k: nat)
    ensures k <= |lb|
    ensures forall i :: 0 <= i < k ==> lb[i].avg <= e.avg
    ensures k < |lb| ==> e.avg < lb[k].avg
    decreases |lb|
  {
    if lb == [] || e.avg < lb[0].avg then 0 else 1 + Position(lb[1..], e)
  }

  /** Inserting puts e at its position: the entries before it and after it
      keep their order. */
  lemma {:induction false} InsertAt(lb: seq<Entry>, e: Entry)
    ensures Insert(lb, e) == lb[..Position(lb, e)] + [e] + lb[Position(lb, e)..]
    decreases |lb|
  {
    if lb != [] && e.avg >= lb[0].avg {
      var tail := lb[1..];
      var k := Position(tail, e);
      InsertAt(tail, e);
      assert lb[..k + 1] == [lb[0]] + tail[..k];
      assert lb[k + 1..] == tail[k..];
    }
  }

  /** On a sorted list, inserting puts e after the entries whose average is
      at most e's (the equal ones included, as a stable sort does) and before
      the entries whose average is larger. */
  lemma InsertSplit(lb: seq<Entry>, e: Entry)
    requires SortedByAvg(lb)
    ensures Insert(lb, e) == lb[..Position(lb, e)] + [e] + lb[Position(lb, e)..]
    ensures forall i :: 0 <= i < Position(lb, e) ==> lb[i].avg <= e.avg
    ensures forall i :: Position(lb, e) <= i < |lb| ==> e.avg < lb[i].avg
  {
    InsertAt(lb, e);
    var k := Position(lb, e);
    forall i | k <= i < |lb|
      ensures e.avg < lb[i].avg
    {
      assert i == k || lb[k].avg <= lb[i].avg;
    }
  }

  /** Sorting a sorted board changes nothing. */
  lemma {:induction false} SortSorted(lb: seq<Entry>)
    requires SortedByAvg(lb)
    ensures SortByAvg(lb) == lb
    decreases |lb|
  {
    if lb != [] {
      var n := |lb| - 1;
      SortSorted(lb[..n]);
      InsertLast(lb[..n], lb[n]);
      assert lb[..n] + [lb[n]] == lb;
    }
  }

  /** On a sorted board (every board this code writes is one) the update is
      a stable insertion followed by the cut to five entries. */
  lemma SaveSorted(lb: seq<Entry>, e: Entry)
    requires SortedByAvg(lb)
    ensures Save(lb, e) == Insert(lb, e)[..Min(|lb| + 1, Capacity)]
  {
    var n := |lb + [e]| - 1;
    assert (lb + [e])[..n] == lb;
    SortSorted(lb);
  }

  /** An entry better than the last of a list sorts before it, so the last
      entry stays last. */
  lemma {:induction false} InsertKeepsLast(lb: seq<Entry>, e: Entry)
    requires lb != []
    requires e.avg < lb[|lb| - 1].avg
    ensures Insert(lb, e)[|lb|] == lb[|lb| - 1]
    decreases |lb|
  {
    if e.avg >= lb[0].avg {
      InsertKeepsLast(lb[1..], e);
    }
  }

  /** A full, sorted board is left exactly as it was if and only if the new
      average is no better than the worst one on it. */
  lemma FullBoardUnchangedIff(lb: seq<Entry>, e: Entry)
    requires SortedByAvg(lb) && |lb| == Capacity
    ensures Save(lb, e) == lb <==> lb[Capacity - 1].avg <= e.avg
  {
    SaveSorted(lb, e);
    var ins := Insert(lb, e);
    if lb[Capacity - 1].avg <= e.avg {
      InsertLast(lb, e);
      assert (lb + [e])[..Capacity] == lb;
    } else {
      // The last entry of lb is pushed out of the first five, and e is not it:
      // the board keeps one copy of that entry fewer.
      var last := lb[Capacity - 1];
      InsertKeepsLast(lb, e);
      InsertPermutes(lb, e);
      assert ins == ins[..Capacity] + [last];
      assert multiset(ins[..Capacity]) + multiset{last} == multiset(lb) + multiset{e};
      assert e != last && Save(lb, e) == ins[..Capacity];
      assert (multiset(lb) + multiset{e})[last] == multiset(lb)[last];
      assert (multiset(ins[..Capacity]) + multiset{last})[last] == multiset(ins[..Capacity])[last] + 1;
      assert multiset(Save(lb, e))[last] + 1 == multiset(lb)[last];
    }
  }

  /** The board after a number of games, saved one after another. */
  function SaveAll(lb: seq<Entry>, entries: seq<Entry>): (r: seq<Entry>)
    ensures entries == [] ==> r == lb
    ensures entries != [] ==> |r| == Min(|lb| + |entries|, Capacity) && SortedByAvg(r)
    decreases |entries|
  {
    if entries == [] then lb
    else Save(SaveAll(lb, entries[..|entries| - 1]), entries[|entries| - 1])
  }

  /** Six games from an empty board leave exactly five entries, sorted. */
  lemma SixGamesKeepFive(entries: seq<Entry>)
    requires |entries| == 6
    ensures |SaveAll([], entries)| == Capacity
    ensures SortedByAvg(SaveAll([], entries))
  {
  }
}

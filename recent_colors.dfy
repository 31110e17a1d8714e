/** The most-recent-colours list: newest first, lower-cased, without
    case-insensitive duplicates, at most five entries. Loading and saving the
    list in local storage is left out. */
module RecentColors {
  import opened Base

  /** `MAX_RECENT`. */
  const MaxRecent: nat := 5

  /** The entries that do not equal `normalized` once lower-cased. */
  function Without(prev: seq<string>, normalized: string): (r: seq<string>)
    ensures |r| <= |prev|
    ensures forall c :: c in r <==> c in prev && Lower(c) != normalized
    decreases |prev|
  {
    if prev == [] then []
    else if Lower(prev[0]) != normalized then [prev[0]] + Without(prev[1..], normalized)
    else Without(prev[1..], normalized)
  }

  /** The filter keeps the order of what it keeps. */
  lemma {:induction false} WithoutIsSubsequence(prev: seq<string>, normalized: string)
    ensures IsSubsequence(Without(prev, normalized), prev)
    decreases |prev|
  {
    if prev != [] {
      WithoutIsSubsequence(prev[1..], normalized);
      if Lower(prev[0]) != normalized {
        assert Without(prev, normalized)[1..] == Without(prev[1..], normalized);
      } else if Without(prev, normalized) != [] {
        assert IsSubsequence(Without(prev, normalized), prev[1..]);
      }
    }
  }

  /** Filtering a list none of whose entries match changes nothing. */
  lemma {:induction false} WithoutNothing(prev: seq<string>, normalized: string)
    requires forall i :: 0 <= i < |prev| ==> Lower(prev[i]) != normalized
    ensures Without(prev, normalized) == prev
    decreases |prev|
  {
    if prev != [] {
      WithoutNothing(prev[1..], normalized);
      assert [prev[0]] + prev[1..] == prev;
    }
  }

  /** `addRecentColor`: the colour, lower-cased, goes first; earlier entries
      equal to it up to case go; the list is cut to five. */
  function AddRecent(prev: seq<string>, color: string): (r: seq<string>)
    ensures 1 <= |r| <= MaxRecent
    ensures r[0] == Lower(color)
    ensures forall i :: 1 <= i < |r| ==> Lower(r[i]) != Lower(color)
    ensures forall x :: x in r[1..] ==> x in prev
  {
    var normalized := Lower(color);
    var filtered := Without(prev, normalized);
    var r := Take([normalized] + filtered, MaxRecent);
    assert forall i :: 1 <= i < |r| ==> r[i] == filtered[i - 1];
    r
  }

  /** The entries after the first are the kept earlier entries, in their
      order, a prefix of them when the list is full. */
  lemma AddRecentKeepsOrder(prev: seq<string>, color: string)
    ensures IsSubsequence(AddRecent(prev, color)[1..], prev)
    ensures |Without(prev, Lower(color))| < MaxRecent ==>
      AddRecent(prev, color)[1..] == Without(prev, Lower(color))
    ensures AddRecent(prev, color)[1..] == Take(Without(prev, Lower(color)), MaxRecent - 1)
  {
    var filtered := Without(prev, Lower(color));
    var r := AddRecent(prev, color);
    assert r[1..] == filtered[..|r| - 1];
    WithoutIsSubsequence(prev, Lower(color));
    SubsequencePrefix(filtered, prev, |r| - 1);
  }

  /** Adding the same colour twice in a row is adding it once. */
  lemma AddRecentIdempotent(prev: seq<string>, color: string)
    ensures AddRecent(AddRecent(prev, color), color) == AddRecent(prev, color)
  {
    var n := Lower(color);
    var r := AddRecent(prev, color);
    LowerIdempotent(color);
    assert r == [n] + r[1..];
    WithoutNothing(r[1..], n);
    assert Without(r, n) == r[1..];
  }

  /** `clearRecentColors`. */
  function ClearRecent(prev: seq<string>): (r: seq<string>)
    ensures |r| == 0
  {
    []
  }

  /** After clearing, the next colour added is the only entry. */
  lemma AddAfterClear(prev: seq<string>, color: string)
    ensures AddRecent(ClearRecent(prev), color) == [Lower(color)]
  {
  }
}

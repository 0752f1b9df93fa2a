/**
  `similarity` from inference/worker/chat_chain_utils.py: the Jaro similarity
  of two tool names (its comment names Jaro-Winkler, but no common-prefix
  boost is applied). A greedy pass marks matching characters within a window
  in two 0/1 arrays; a second pass counts the positions at which the matched
  characters of the two strings, read in order, differ.

  The reference definition here is split in the same two steps: `MatchRows`
  is the state of the marks after each row of the first pass, and
  `Transpositions` compares the matched characters read in order. The method
  `Similarity` runs the two loops over arrays and is proved to compute
  `JaroSimilarity`.
 */
module Jaro {
  import opened Strings

  /** `max(len1, len2) // 2 - 1`; -1 when both strings have at most one character. */
  function MaxDist(len1: nat, len2: nat): int {
    (if len1 >= len2 then len1 else len2) / 2 - 1
  }

  /** `max(0, i - max_dist)`: the first position of `ts2` row `i` may match. */
  function WindowLo(i: nat, d: int): nat {
    if i - d > 0 then i - d else 0
  }

  /** `min(len2, i + max_dist + 1)`: one past the last position row `i` may match. */
  function WindowHi(i: nat, d: int, len2: nat): int {
    if len2 < i + d + 1 then len2 else i + d + 1
  }

  /** Position `j` of `ts2` is in the matching window of position `i` of `ts1`. */
  predicate InWindow(ts1: String, ts2: String, i: nat, j: nat) {
    var d := MaxDist(|ts1|, |ts2|);
    WindowLo(i, d) <= j < WindowHi(i, d, |ts2|)
  }

  /** Some character of `ts1` equals a character of `ts2` inside its window. */
  ghost predicate AnyWindowMatch(ts1: String, ts2: String) {
    exists i, j :: 0 <= i < |ts1| && 0 <= j < |ts2| && InWindow(ts1, ts2, i, j) && ts1[i] == ts2[j]
  }

  /** Every entry is 0 (unmarked) or 1 (marked). */
  predicate Bits(m: seq<int>) {
    forall k :: 0 <= k < |m| ==> m[k] == 0 || m[k] == 1
  }

  /** The number of marked positions. */
  function Count(m: seq<int>): nat
    decreases |m|
  {
    if |m| == 0 then 0 else Count(m[..|m| - 1]) + (if m[|m| - 1] == 1 then 1 else 0)
  }

  /** The characters of `ts` at marked positions, in order. */
  function Picked(ts: String, m: seq<int>): (r: String)
    requires |ts| == |m|
    ensures |r| == Count(m)
    decreases |ts|
  {
    if |ts| == 0 then []
    else Picked(ts[..|ts| - 1], m[..|m| - 1]) + (if m[|m| - 1] == 1 then [ts[|ts| - 1]] else [])
  }

  /** The number of positions at which two equally long strings differ. */
  function Mismatches(a: String, b: String): (r: nat)
    requires |a| == |b|
    ensures r <= |a|
    decreases |a|
  {
    if |a| == 0 then 0
    else Mismatches(a[..|a| - 1], b[..|b| - 1]) + (if a[|a| - 1] != b[|b| - 1] then 1 else 0)
  }

  /** The marks after some rows of the matching pass, and how many pairs were matched. */
  datatype Marks = Marks(m1: seq<int>, m2: seq<int>, count: nat)

  /**
    The first position `j' >= j` of the window of row `i` holding the same
    character as `ts1[i]` and not yet marked in `m2`, or -1 if there is none:
    where the inner `for` loop stops with `break`.
   */
  function FirstFree(ts1: String, ts2: String, m2: seq<int>, i: nat, j: nat): (r: int)
    requires i < |ts1| && |m2| == |ts2|
    ensures r == -1 || (j <= r < WindowHi(i, MaxDist(|ts1|, |ts2|), |ts2|) && ts1[i] == ts2[r] && m2[r] == 0)
    ensures r == -1 ==> forall k :: j <= k < WindowHi(i, MaxDist(|ts1|, |ts2|), |ts2|) ==> ts1[i] != ts2[k] || m2[k] != 0
    ensures r != -1 ==> forall k :: j <= k < r ==> ts1[i] != ts2[k] || m2[k] != 0
    decreases |ts2| - j
  {
    if j >= WindowHi(i, MaxDist(|ts1|, |ts2|), |ts2|) then -1
    else if ts1[i] == ts2[j] && m2[j] == 0 then j
    else FirstFree(ts1, ts2, m2, i, j + 1)
  }

  /** The marks and the match count after rows `0 .. i-1` of the matching pass. */
  function MatchRows(ts1: String, ts2: String, i: nat): (r: Marks)
    requires i <= |ts1|
    ensures |r.m1| == |ts1| && |r.m2| == |ts2|
    decreases i
  {
    if i == 0 then Marks(seq(|ts1|, _ => 0), seq(|ts2|, _ => 0), 0)
    else
      var prev := MatchRows(ts1, ts2, i - 1);
      var j := FirstFree(ts1, ts2, prev.m2, i - 1, WindowLo(i - 1, MaxDist(|ts1|, |ts2|)));
      if j == -1 then prev
      else Marks(prev.m1[i - 1 := 1], prev.m2[j := 1], prev.count + 1)
  }

  lemma {:induction false} CountMarkOne(m: seq<int>, k: nat)
    requires k < |m| && m[k] == 0
    ensures Count(m[k := 1]) == Count(m) + 1
    decreases |m|
  {
    var n := |m| - 1;
    if k < n {
      assert m[k := 1][..n] == m[..n][k := 1];
      CountMarkOne(m[..n], k);
    } else {
      assert m[k := 1][..n] == m[..n];
    }
  }

  lemma {:induction false} CountBound(m: seq<int>)
    ensures Count(m) <= |m|
    decreases |m|
  {
    if |m| > 0 {
      CountBound(m[..|m| - 1]);
    }
  }

  lemma {:induction false} CountZeros(n: nat)
    ensures Count(seq(n, _ => 0)) == 0
    decreases n
  {
    if n > 0 {
      assert seq(n, _ => 0)[..n - 1] == seq(n - 1, _ => 0);
      CountZeros(n - 1);
    }
  }

  /** With no position marked, every entry of a 0/1 sequence is 0. */
  lemma {:induction false} CountZeroAllUnmarked(m: seq<int>)
    requires Bits(m) && Count(m) == 0
    ensures forall k :: 0 <= k < |m| ==> m[k] == 0
    decreases |m|
  {
    if |m| > 0 {
      CountZeroAllUnmarked(m[..|m| - 1]);
    }
  }

  /** A marked position makes the count positive. */
  lemma {:induction false} CountPositive(m: seq<int>, k: nat)
    requires k < |m| && m[k] == 1
    ensures Count(m) > 0
    decreases |m|
  {
    if k < |m| - 1 {
      CountPositive(m[..|m| - 1], k);
    }
  }

  /** Every row before `i` that stayed unmarked found each equal character of its window already taken. */
  ghost predicate Maximal(ts1: String, ts2: String, i: nat, m1: seq<int>, m2: seq<int>)
    requires |m1| == |ts1| && |m2| == |ts2|
  {
    forall k, j :: 0 <= k < i && k < |ts1| && 0 <= j < |ts2| && m1[k] == 0 && InWindow(ts1, ts2, k, j) && ts2[j] == ts1[k] ==> m2[j] == 1
  }

  /** What the matching pass guarantees after `i` rows. */
  ghost predicate RowsInvariant(ts1: String, ts2: String, i: nat, r: Marks)
    requires |r.m1| == |ts1| && |r.m2| == |ts2|
  {
    && Bits(r.m1) && Bits(r.m2)
    && Count(r.m1) == r.count && Count(r.m2) == r.count
    && (forall k :: i <= k < |ts1| ==> r.m1[k] == 0)
    && (r.count > 0 ==> AnyWindowMatch(ts1, ts2))
    && Maximal(ts1, ts2, i, r.m1, r.m2)
  }

  /** A row that finds no free equal character leaves the marks as they were and keeps `RowsInvariant`. */
  lemma MatchRowUnmatched(ts1: String, ts2: String, i: nat, prev: Marks)
    requires 0 < i <= |ts1| && |prev.m1| == |ts1| && |prev.m2| == |ts2|
    requires RowsInvariant(ts1, ts2, i - 1, prev)
    requires FirstFree(ts1, ts2, prev.m2, i - 1, WindowLo(i - 1, MaxDist(|ts1|, |ts2|))) == -1
    ensures RowsInvariant(ts1, ts2, i, prev)
  {
    forall k, j | 0 <= k < i && k < |ts1| && 0 <= j < |ts2| && prev.m1[k] == 0 && InWindow(ts1, ts2, k, j) && ts2[j] == ts1[k]
      ensures prev.m2[j] == 1
    {
      if k == i - 1 {
        assert prev.m2[j] != 0;
      }
    }
  }

  /** A row that marks the free equal character at `j` keeps `RowsInvariant`. */
  lemma MatchRowMatched(ts1: String, ts2: String, i: nat, prev: Marks, j: nat)
    requires 0 < i <= |ts1| && |prev.m1| == |ts1| && |prev.m2| == |ts2|
    requires RowsInvariant(ts1, ts2, i - 1, prev)
    requires j < |ts2| && InWindow(ts1, ts2, i - 1, j) && ts1[i - 1] == ts2[j] && prev.m2[j] == 0
    ensures RowsInvariant(ts1, ts2, i, Marks(prev.m1[i - 1 := 1], prev.m2[j := 1], prev.count + 1))
  {
    var r := Marks(prev.m1[i - 1 := 1], prev.m2[j := 1], prev.count + 1);
    CountMarkOne(prev.m1, i - 1);
    CountMarkOne(prev.m2, j);
    assert AnyWindowMatch(ts1, ts2);
    forall k, j' | 0 <= k < i && k < |ts1| && 0 <= j' < |ts2| && r.m1[k] == 0 && InWindow(ts1, ts2, k, j') && ts2[j'] == ts1[k]
      ensures r.m2[j'] == 1
    {
      assert prev.m1[k] == 0;
    }
  }

  /** One row of the matching pass keeps `RowsInvariant`. */
  lemma MatchRowStep(ts1: String, ts2: String, i: nat)
    requires 0 < i <= |ts1|
    requires RowsInvariant(ts1, ts2, i - 1, MatchRows(ts1, ts2, i - 1))
    ensures RowsInvariant(ts1, ts2, i, MatchRows(ts1, ts2, i))
  {
    var prev := MatchRows(ts1, ts2, i - 1);
    var j := FirstFree(ts1, ts2, prev.m2, i - 1, WindowLo(i - 1, MaxDist(|ts1|, |ts2|)));
    if j == -1 {
      MatchRowUnmatched(ts1, ts2, i, prev);
    } else {
      MatchRowMatched(ts1, ts2, i, prev, j);
    }
  }

  lemma {:induction false} MatchRowsInvariant(ts1: String, ts2: String, i: nat)
    requires i <= |ts1|
    ensures RowsInvariant(ts1, ts2, i, MatchRows(ts1, ts2, i))
    decreases i
  {
    if i == 0 {
      CountZeros(|ts1|);
      CountZeros(|ts2|);
    } else {
      MatchRowsInvariant(ts1, ts2, i - 1);
      MatchRowStep(ts1, ts2, i);
    }
  }

  /** The matched characters of the two strings, read in order, are equally many. */
  lemma MatchCountsAgree(ts1: String, ts2: String)
    ensures var r := MatchRows(ts1, ts2, |ts1|);
            |Picked(ts1, r.m1)| == r.count == |Picked(ts2, r.m2)| && r.count <= |ts1| && r.count <= |ts2|
  {
    var r := MatchRows(ts1, ts2, |ts1|);
    MatchRowsInvariant(ts1, ts2, |ts1|);
    CountBound(r.m1);
    CountBound(r.m2);
  }

  /** The marks the matching pass ends with are 0/1 arrays holding the same number of marks. */
  lemma FinalMarks(ts1: String, ts2: String)
    ensures var r := MatchRows(ts1, ts2, |ts1|);
            Bits(r.m1) && Bits(r.m2) && Count(r.m1) == r.count && Count(r.m2) == r.count
  {
    MatchRowsInvariant(ts1, ts2, |ts1|);
  }

  /** The number of matched characters, read in order, that differ; the ratio halves it into transpositions. */
  function Transpositions(ts1: String, ts2: String, r: Marks): (t: nat)
    requires |r.m1| == |ts1| && |r.m2| == |ts2| && Count(r.m1) == Count(r.m2)
    ensures t <= Count(r.m1)
  {
    Mismatches(Picked(ts1, r.m1), Picked(ts2, r.m2))
  }

  /** `(match / len1 + match / len2 + (match - t / 2) / match) / 3`, in exact arithmetic. */
  function JaroRatio(m: nat, t: nat, len1: nat, len2: nat): real
    requires m > 0 && len1 > 0 && len2 > 0
  {
    ((m as real) / (len1 as real) + (m as real) / (len2 as real) + ((m as real) - (t as real) / 2.0) / (m as real)) / 3.0
  }

  /** The value `similarity(ts1, ts2)` returns. */
  function JaroSimilarity(ts1: String, ts2: String): real {
    if ts1 == ts2 then 1.0
    else
      var r := MatchRows(ts1, ts2, |ts1|);
      if r.count == 0 then 0.0
      else
        MatchCountsAgree(ts1, ts2);
        JaroRatio(r.count, Transpositions(ts1, ts2, r), |ts1|, |ts2|)
  }

  lemma RatioAtMostOne(x: real, y: real)
    requires 0.0 < x <= y
    ensures 0.0 < x / y <= 1.0
  {
  }

  /** With `0 < m <= len1, len2` and `t <= m` the ratio lies in (0, 1]. */
  lemma JaroRatioBounds(m: nat, t: nat, len1: nat, len2: nat)
    requires 0 < m <= len1 && m <= len2 && t <= m
    ensures 0.0 < JaroRatio(m, t, len1, len2) <= 1.0
  {
    var mr, tr := m as real, t as real;
    RatioAtMostOne(mr, len1 as real);
    RatioAtMostOne(mr, len2 as real);
    RatioAtMostOne(mr - tr / 2.0, mr);
  }

  /** A string is fully similar to itself. */
  lemma SimilarityReflexive(s: String)
    ensures JaroSimilarity(s, s) == 1.0
  {
  }

  lemma {:induction false} CountZeroIfUnmarked(m: seq<int>)
    requires forall k :: 0 <= k < |m| ==> m[k] == 0
    ensures Count(m) == 0
    decreases |m|
  {
    if |m| > 0 {
      CountZeroIfUnmarked(m[..|m| - 1]);
    }
  }

  /**
    The similarity of distinct strings is 0 exactly when no character has an
    equal partner in its window, and lies in [0, 1] in every case.
   */
  lemma SimilarityRange(ts1: String, ts2: String)
    requires ts1 != ts2
    ensures JaroSimilarity(ts1, ts2) == 0.0 <==> !AnyWindowMatch(ts1, ts2)
    ensures 0.0 <= JaroSimilarity(ts1, ts2) <= 1.0
  {
    var r := MatchRows(ts1, ts2, |ts1|);
    MatchRowsInvariant(ts1, ts2, |ts1|);
    MatchCountsAgree(ts1, ts2);
    if r.count == 0 {
      CountZeroAllUnmarked(r.m1);
      CountZeroAllUnmarked(r.m2);
    } else {
      JaroRatioBounds(r.count, Transpositions(ts1, ts2, r), |ts1|, |ts2|);
    }
  }

  /** The number of marks among the first `n` positions. */
  function CountTo(m: seq<int>, n: nat): nat
    requires n <= |m|
  {
    if n == 0 then 0 else CountTo(m, n - 1) + (if m[n - 1] == 1 then 1 else 0)
  }

  /** The characters at marked positions among the first `n`, in order. */
  function PickedTo(ts: String, m: seq<int>, n: nat): (r: String)
    requires |ts| == |m| && n <= |m|
    ensures |r| == CountTo(m, n)
  {
    if n == 0 then [] else PickedTo(ts, m, n - 1) + (if m[n - 1] == 1 then [ts[n - 1]] else [])
  }

  lemma {:induction false} CountToSlice(m: seq<int>, n: nat)
    requires n <= |m|
    ensures CountTo(m, n) == Count(m[..n])
  {
    if n > 0 {
      CountToSlice(m, n - 1);
      assert m[..n][..n - 1] == m[..n - 1];
    }
  }

  lemma {:induction false} PickedToSlice(ts: String, m: seq<int>, n: nat)
    requires |ts| == |m| && n <= |m|
    ensures PickedTo(ts, m, n) == Picked(ts[..n], m[..n])
  {
    if n > 0 {
      PickedToSlice(ts, m, n - 1);
      assert m[..n][..n - 1] == m[..n - 1];
      assert ts[..n][..n - 1] == ts[..n - 1];
    }
  }

  lemma {:induction false} CountToMonotone(m: seq<int>, p: nat, q: nat)
    requires p <= q <= |m|
    ensures CountTo(m, p) <= CountTo(m, q)
    decreases q
  {
    if p < q {
      CountToMonotone(m, p, q - 1);
    }
  }

  /** Past `p`, positions that add no mark add no character. */
  lemma {:induction false} PickedToTail(ts: String, m: seq<int>, p: nat, q: nat)
    requires |ts| == |m| && p <= q <= |m| && CountTo(m, p) == CountTo(m, q)
    ensures PickedTo(ts, m, p) == PickedTo(ts, m, q)
    decreases q
  {
    if p < q {
      CountToMonotone(m, p, q - 1);
      PickedToTail(ts, m, p, q - 1);
    }
  }

  lemma MismatchesStep(a: String, b: String, x: char, y: char)
    requires |a| == |b|
    ensures Mismatches(a + [x], b + [y]) == Mismatches(a, b) + (if x != y then 1 else 0)
  {
    assert (a + [x])[..|a|] == a;
    assert (b + [y])[..|b|] == b;
  }

  /**
    The inner `for` loop of the matching pass for row `i`: mark the first
    unmarked equal character of the window in both arrays and stop there.
   */
  method MarkRow(ts1: String, ts2: String, hash1: array<int>, hash2: array<int>, i: nat) returns (found: int)
    requires i < |ts1| && hash1.Length == |ts1| && hash2.Length == |ts2| && hash1 != hash2
    modifies hash1, hash2
    ensures found == FirstFree(ts1, ts2, old(hash2[..]), i, WindowLo(i, MaxDist(|ts1|, |ts2|)))
    ensures found == -1 ==> hash1[..] == old(hash1[..]) && hash2[..] == old(hash2[..])
    ensures found != -1 ==> hash1[..] == old(hash1[..])[i := 1] && hash2[..] == old(hash2[..])[found := 1]
  {
    var maxDist := MaxDist(|ts1|, |ts2|);
    var lo, hi := WindowLo(i, maxDist), WindowHi(i, maxDist, |ts2|);
    found := -1;
    var j := lo;
    while j < hi
      invariant lo <= j && (j <= hi || j == lo)
      invariant hash1[..] == old(hash1[..]) && hash2[..] == old(hash2[..])
      invariant FirstFree(ts1, ts2, hash2[..], i, lo) == FirstFree(ts1, ts2, hash2[..], i, j)
    {
      if ts1[i] == ts2[j] && hash2[j] == 0 {
        found := j;
        hash1[i] := 1;
        hash2[j] := 1;
        return;
      }
      j := j + 1;
    }
  }

  /** The first loop of `similarity`: greedy matching within the window, marking both arrays. */
  method MarkMatches(ts1: String, ts2: String) returns (hash1: array<int>, hash2: array<int>, matched: nat)
    ensures fresh(hash1) && fresh(hash2)
    ensures Marks(hash1[..], hash2[..], matched) == MatchRows(ts1, ts2, |ts1|)
  {
    matched := 0;
    hash1 := new int[|ts1|](_ => 0);
    hash2 := new int[|ts2|](_ => 0);
    var i := 0;
    while i < |ts1|
      invariant 0 <= i <= |ts1|
      invariant Marks(hash1[..], hash2[..], matched) == MatchRows(ts1, ts2, i)
    {
      ghost var prev := MatchRows(ts1, ts2, i);
      var found := MarkRow(ts1, ts2, hash1, hash2, i);
      if found != -1 {
        matched := matched + 1;
      }
      assert MatchRows(ts1, ts2, i + 1)
             == if found == -1 then prev else Marks(prev.m1[i := 1], prev.m2[found := 1], prev.count + 1);
      i := i + 1;
    }
  }

  /** The inner `while` of the second pass: move `point` forward to the next marked position. */
  method NextMarked(ts2: String, hash2: array<int>, start: nat) returns (point: nat)
    requires hash2.Length == |ts2| && start <= |ts2|
    requires CountTo(hash2[..], start) < CountTo(hash2[..], |ts2|)
    ensures start <= point < |ts2| && hash2[point] != 0
    ensures CountTo(hash2[..], point) == CountTo(hash2[..], start)
    ensures PickedTo(ts2, hash2[..], point) == PickedTo(ts2, hash2[..], start)
  {
    ghost var m2 := hash2[..];
    point := start;
    while hash2[point] == 0
      invariant start <= point < |ts2|
      invariant CountTo(m2, point) == CountTo(m2, start)
      invariant PickedTo(ts2, m2, point) == PickedTo(ts2, m2, start)
      decreases |ts2| - point
    {
      point := point + 1;
    }
  }

  /**
    The second loop of `similarity`: a cursor `point` walks the marks of
    `ts2` alongside the marks of `ts1`, counting the pairs that differ.
   */
  method CountTranspositions(ts1: String, ts2: String, hash1: array<int>, hash2: array<int>) returns (t: nat)
    requires hash1.Length == |ts1| && hash2.Length == |ts2|
    requires Bits(hash2[..]) && Count(hash1[..]) == Count(hash2[..])
    ensures t == Mismatches(Picked(ts1, hash1[..]), Picked(ts2, hash2[..]))
  {
    var len1, len2 := |ts1|, |ts2|;
    ghost var m1, m2 := hash1[..], hash2[..];
    CountToSlice(m1, len1);
    CountToSlice(m2, len2);
    assert m1[..len1] == m1 && m2[..len2] == m2;
    t := 0;
    var point := 0;
    var i := 0;
    while i < len1
      invariant 0 <= i <= len1 && 0 <= point <= len2
      invariant CountTo(m1, i) == CountTo(m2, point)
      invariant t == Mismatches(PickedTo(ts1, m1, i), PickedTo(ts2, m2, point))
    {
      if hash1[i] == 1 {
        CountToMonotone(m1, i + 1, len1);
        point := NextMarked(ts2, hash2, point);
        assert m2[point] == 1;
        assert PickedTo(ts1, m1, i + 1) == PickedTo(ts1, m1, i) + [ts1[i]];
        assert PickedTo(ts2, m2, point + 1) == PickedTo(ts2, m2, point) + [ts2[point]];
        MismatchesStep(PickedTo(ts1, m1, i), PickedTo(ts2, m2, point), ts1[i], ts2[point]);
        if ts1[i] != ts2[point] {
          t := t + 1;
        }
        point := point + 1;
      } else {
        assert PickedTo(ts1, m1, i + 1) == PickedTo(ts1, m1, i);
      }
      i := i + 1;
    }
    CountToMonotone(m2, point, len2);
    PickedToTail(ts2, m2, point, len2);
    PickedToSlice(ts1, m1, len1);
    PickedToSlice(ts2, m2, len2);
    assert ts1[..len1] == ts1 && ts2[..len2] == ts2;
  }

  /** `similarity(ts1, ts2)`: the two passes, then the Jaro ratio with `t` halved. */
  method Similarity(ts1: String, ts2: String) returns (r: real)
    ensures r == JaroSimilarity(ts1, ts2)
    ensures 0.0 <= r <= 1.0
    ensures ts1 == ts2 ==> r == 1.0
    ensures ts1 != ts2 ==> (r == 0.0 <==> !AnyWindowMatch(ts1, ts2))
  {
    if ts1 == ts2 {
      return 1.0;
    }
    SimilarityRange(ts1, ts2);
    var len1, len2 := |ts1|, |ts2|;
    var hash1, hash2, matched := MarkMatches(ts1, ts2);
    if matched == 0 {
      return 0.0;
    }
    FinalMarks(ts1, ts2);
    var t := CountTranspositions(ts1, ts2, hash1, hash2);
    r := JaroRatio(matched, t, len1, len2);
  }
}

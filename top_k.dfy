/**
 * The tie-aware top-k value of one example, as `calc_top_k` computes it:
 * `in_top_k` of the true class, divided by the number of classes whose
 * score equals the k-th largest score.
 *
 * Scores are exact reals; only comparisons and equality are used.
 */
module TopK {

  /** How a score is compared with a threshold when counting. */
  datatype Comparison = Greater | GreaterOrEqual | Equal

  predicate Compares(c: Comparison, y: real, x: real) {
    match c
    case Greater => y > x
    case GreaterOrEqual => y >= x
    case Equal => y == x
  }

  /** The number of scores that compare with `x` as `c` says. */
  function Count(s: seq<real>, c: Comparison, x: real): nat {
    if s == [] then 0 else (if Compares(c, s[0], x) then 1 else 0) + Count(s[1..], c, x)
  }

  // ---------------------------------------------------------------------
  // Counting

  lemma {:induction false} CountAppend(a: seq<real>, b: seq<real>, c: Comparison, x: real)
    ensures Count(a + b, c, x) == Count(a, c, x) + Count(b, c, x)
  {
    if a == [] {
      assert a + b == b;
    } else {
      assert (a + b)[0] == a[0];
      assert (a + b)[1..] == a[1..] + b;
      CountAppend(a[1..], b, c, x);
    }
  }

  lemma {:induction false} CountAtMostLength(s: seq<real>, c: Comparison, x: real)
    ensures Count(s, c, x) <= |s|
  {
    if s != [] { CountAtMostLength(s[1..], c, x); }
  }

  /** Equal scores are those at least as high, less those strictly higher. */
  lemma {:induction false} CountEqualSplit(s: seq<real>, x: real)
    ensures Count(s, Equal, x) == Count(s, GreaterOrEqual, x) - Count(s, Greater, x)
  {
    if s != [] { CountEqualSplit(s[1..], x); }
  }

  /** Raising the threshold can only lower the count, and `>= x` covers at least `> y` when `y >= x`. */
  lemma {:induction false} CountMonotone(s: seq<real>, x: real, y: real)
    requires x <= y
    ensures Count(s, Greater, y) <= Count(s, Greater, x)
    ensures Count(s, Greater, y) <= Count(s, GreaterOrEqual, x)
    ensures x < y ==> Count(s, GreaterOrEqual, y) <= Count(s, Greater, x)
  {
    if s != [] { CountMonotone(s[1..], x, y); }
  }

  // ---------------------------------------------------------------------
  // Sorting, as top_k returns its values

  predicate SortedDescending(t: seq<real>) {
    forall i, j :: 0 <= i < j < |t| ==> t[i] >= t[j]
  }

  function Insert(x: real, t: seq<real>): seq<real> {
    if t == [] || x >= t[0] then [x] + t else [t[0]] + Insert(x, t[1..])
  }

  /** The scores sorted from the highest down, with multiplicity. */
  function SortDescending(s: seq<real>): seq<real> {
    if s == [] then [] else Insert(s[0], SortDescending(s[1..]))
  }

  lemma {:induction false} InsertMultiset(x: real, t: seq<real>)
    ensures multiset(Insert(x, t)) == multiset([x] + t)
  {
    if t != [] && x < t[0] {
      InsertMultiset(x, t[1..]);
      assert t == [t[0]] + t[1..];
    }
  }

  lemma {:induction false} InsertBounded(x: real, t: seq<real>, y: real)
    requires x <= y && forall i :: 0 <= i < |t| ==> t[i] <= y
    ensures forall i :: 0 <= i < |Insert(x, t)| ==> Insert(x, t)[i] <= y
  {
    if t != [] && x < t[0] {
      InsertBounded(x, t[1..], y);
    }
  }

  lemma {:induction false} InsertSorted(x: real, t: seq<real>)
    requires SortedDescending(t)
    ensures SortedDescending(Insert(x, t))
  {
    if t != [] && x < t[0] {
      var rest := Insert(x, t[1..]);
      InsertSorted(x, t[1..]);
      InsertBounded(x, t[1..], t[0]);
      assert Insert(x, t) == [t[0]] + rest;
    }
  }

  lemma {:induction false} InsertCount(x: real, t: seq<real>, c: Comparison, y: real)
    ensures Count(Insert(x, t), c, y) == Count([x] + t, c, y)
  {
    if t != [] && x < t[0] {
      InsertCount(x, t[1..], c, y);
      assert ([x] + t)[1..] == t;
      assert ([x] + t[1..])[1..] == t[1..];
      assert Insert(x, t)[1..] == Insert(x, t[1..]);
    }
  }

  /** Sorting keeps every score with its multiplicity and orders them from the highest down. */
  lemma {:induction false} SortDescendingCorrect(s: seq<real>)
    ensures |SortDescending(s)| == |s|
    ensures SortedDescending(SortDescending(s))
    ensures multiset(SortDescending(s)) == multiset(s)
  {
    if s != [] {
      SortDescendingCorrect(s[1..]);
      InsertSorted(s[0], SortDescending(s[1..]));
      InsertMultiset(s[0], SortDescending(s[1..]));
      assert s == [s[0]] + s[1..];
      assert |multiset(SortDescending(s))| == |multiset(s)|;
    }
  }

  /** Sorting does not change how many scores compare with a threshold. */
  lemma {:induction false} SortDescendingCount(s: seq<real>, c: Comparison, y: real)
    ensures Count(SortDescending(s), c, y) == Count(s, c, y)
  {
    if s != [] {
      SortDescendingCount(s[1..], c, y);
      InsertCount(s[0], SortDescending(s[1..]), c, y);
      assert ([s[0]] + SortDescending(s[1..]))[1..] == SortDescending(s[1..]);
    }
  }

  /** The `k` highest scores, highest first (the values `top_k` returns). */
  function TopKValues(s: seq<real>, k: nat): (top: seq<real>)
    requires k <= |s|
    ensures |top| == k
  {
    SortDescendingCorrect(s);
    SortDescending(s)[..k]
  }

  /**
   * The k-th largest score counted with multiplicity: `truth_top_k[:, k-1]`.
   * It is one of the scores, and it is the threshold where the count crosses
   * k: fewer than k scores lie strictly above it, at least k at or above it.
   */
  function KthLargest(s: seq<real>, k: nat): (b: real)
    requires 1 <= k <= |s|
    ensures b in s
    ensures Count(s, Greater, b) < k
    ensures Count(s, GreaterOrEqual, b) >= k
  {
    var t := SortDescending(s);
    SortDescendingCorrect(s);
    assert t[k - 1] in multiset(s);
    SortedCountAbove(t, k);
    SortedCountAtLeast(t, k);
    SortDescendingCount(s, Greater, t[k - 1]);
    SortDescendingCount(s, GreaterOrEqual, t[k - 1]);
    TopKValues(s, k)[k - 1]
  }

  lemma SortedCountAbove(t: seq<real>, k: nat)
    requires 1 <= k <= |t| && SortedDescending(t)
    ensures Count(t, Greater, t[k - 1]) < k
  {
    var b := t[k - 1];
    var front, back := t[..k - 1], t[k - 1..];
    assert t == front + back;
    CountAppend(front, back, Greater, b);
    CountAtMostLength(front, Greater, b);
    AllBelowCountZero(back, b);
  }

  lemma SortedCountAtLeast(t: seq<real>, k: nat)
    requires 1 <= k <= |t| && SortedDescending(t)
    ensures Count(t, GreaterOrEqual, t[k - 1]) >= k
  {
    var b := t[k - 1];
    assert t == t[..k] + t[k..];
    CountAppend(t[..k], t[k..], GreaterOrEqual, b);
    AllAboveCountAll(t[..k], b);
  }

  lemma {:induction false} AllBelowCountZero(s: seq<real>, b: real)
    requires forall i :: 0 <= i < |s| ==> s[i] <= b
    ensures Count(s, Greater, b) == 0
  {
    if s != [] { AllBelowCountZero(s[1..], b); }
  }

  lemma {:induction false} AllAboveCountAll(s: seq<real>, b: real)
    requires forall i :: 0 <= i < |s| ==> s[i] >= b
    ensures Count(s, GreaterOrEqual, b) == |s|
  {
    if s != [] { AllAboveCountAll(s[1..], b); }
  }

  // ---------------------------------------------------------------------
  // The per-example value

  /** A score has fewer than k scores strictly above it exactly when it reaches the k-th largest score. */
  lemma FewerAboveIffReachesBoundary(s: seq<real>, x: real, k: nat)
    requires 1 <= k <= |s|
    ensures Count(s, Greater, x) < k <==> x >= KthLargest(s, k)
  {
    var b := KthLargest(s, k);
    if x >= b {
      CountMonotone(s, b, x);
    } else {
      CountMonotone(s, x, b);
    }
  }

  /**
   * `in_top_k`: the target class is in the top k when fewer than k classes
   * score strictly higher, that is when its score reaches the k-th largest
   * score, so ties straddling the boundary are all admitted.
   */
  function InTopK(s: seq<real>, target: nat, k: nat): (hit: bool)
    requires target < |s|
    ensures 1 <= k <= |s| ==> (hit <==> s[target] >= KthLargest(s, k))
  {
    if 1 <= k <= |s| then
      FewerAboveIffReachesBoundary(s, s[target], k);
      Count(s, Greater, s[target]) < k
    else
      Count(s, Greater, s[target]) < k
  }

  /** The number of classes that share the k-th largest score: at least the k-th largest itself. */
  function CountBorderValues(s: seq<real>, k: nat): (n: nat)
    requires 1 <= k <= |s|
    ensures 1 <= n <= |s|
  {
    var b := KthLargest(s, k);
    CountEqualSplit(s, b);
    CountAtMostLength(s, Equal, b);
    Count(s, Equal, b)
  }

  /**
   * The per-example value of `calc_top_k`. It lies in [0, 1]; it is positive
   * exactly when the true class is in the top k, and then it is one over the
   * number of tied boundary classes.
   */
  function TopKValue(s: seq<real>, target: nat, k: nat): (v: real)
    requires 1 <= k <= |s| && target < |s|
    ensures 0.0 <= v <= 1.0
    ensures v > 0.0 <==> InTopK(s, target, k)
    ensures InTopK(s, target, k) ==> v == 1.0 / CountBorderValues(s, k) as real
  {
    (if InTopK(s, target, k) then 1.0 else 0.0) / CountBorderValues(s, k) as real
  }

  /** A true class scoring below the k-th largest score gets nothing. */
  lemma BelowBoundaryScoresZero(s: seq<real>, target: nat, k: nat)
    requires 1 <= k <= |s| && target < |s|
    requires s[target] < KthLargest(s, k)
    ensures TopKValue(s, target, k) == 0.0
  {
  }

  /** With a single class at the boundary the value is 1 for a hit and 0 for a miss. */
  lemma UniqueBoundaryIsPlainTopK(s: seq<real>, target: nat, k: nat)
    requires 1 <= k <= |s| && target < |s|
    requires CountBorderValues(s, k) == 1
    ensures TopKValue(s, target, k) == if InTopK(s, target, k) then 1.0 else 0.0
  {
  }

  predicate Distinct(s: seq<real>) {
    forall i, j :: 0 <= i < j < |s| ==> s[i] != s[j]
  }

  /** `target` strictly beats every other class. */
  predicate IsArgmax(s: seq<real>, target: nat)
    requires target < |s|
  {
    forall j :: 0 <= j < |s| && j != target ==> s[j] < s[target]
  }

  lemma {:induction false} DistinctCountEqualAtMostOne(s: seq<real>, x: real)
    requires Distinct(s)
    ensures Count(s, Equal, x) <= 1
  {
    if s != [] {
      DistinctCountEqualAtMostOne(s[1..], x);
      if s[0] == x {
        forall i | 0 <= i < |s[1..]| ensures s[1..][i] < x || s[1..][i] > x {
          assert s[1..][i] == s[i + 1];
        }
        AllDifferentCountZero(s[1..], x);
      }
    }
  }

  lemma {:induction false} AllDifferentCountZero(s: seq<real>, x: real)
    requires forall i :: 0 <= i < |s| ==> s[i] < x || s[i] > x
    ensures Count(s, Equal, x) == 0
  {
    if s != [] { AllDifferentCountZero(s[1..], x); }
  }

  lemma {:induction false} NoneGreaterIsMax(s: seq<real>, x: real)
    ensures Count(s, Greater, x) == 0 <==> forall j :: 0 <= j < |s| ==> s[j] <= x
  {
    if s != [] {
      NoneGreaterIsMax(s[1..], x);
      assert forall j :: 1 <= j < |s| ==> s[j] == s[1..][j - 1];
    }
  }

  /** With k = 1 and distinct scores the value is plain argmax accuracy. */
  lemma Top1DistinctIsArgmaxAccuracy(s: seq<real>, target: nat)
    requires 1 <= |s| && target < |s|
    requires Distinct(s)
    ensures TopKValue(s, target, 1) == if IsArgmax(s, target) then 1.0 else 0.0
  {
    DistinctCountEqualAtMostOne(s, KthLargest(s, 1));
    NoneGreaterIsMax(s, s[target]);
    if IsArgmax(s, target) {
      assert InTopK(s, target, 1);
    } else {
      var j :| 0 <= j < |s| && j != target && s[j] >= s[target];
      if j < target { assert s[j] != s[target]; } else { assert s[target] != s[j]; }
      assert !InTopK(s, target, 1);
    }
  }

  /**
   * Ties at the boundary split credit, also when the true class is strictly
   * above the tied classes; k = 1 with the true class below the maximum scores 0.
   */
  lemma TiedBoundaryExamples()
    ensures TopKValue([0.4, 0.3, 0.3], 1, 2) == 0.5
    ensures TopKValue([0.5, 0.3, 0.3], 0, 2) == 0.5
    ensures TopKValue([0.4, 0.3, 0.3], 1, 1) == 0.0
  {
  }
}

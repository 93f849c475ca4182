/**
 The two two-sample Kolmogorov-Smirnov walks.  The grouped walk of edge validation computes the
 exact supremum; the element-at-a-time walk of mode validation computes a larger statistic.
 */
module KolmogorovSmirnov {
  import opened Numeric

  // ----- empirical distributions -----

  /** How many samples are at most x. */
  function CountLE(s: seq<real>, x: real): (n: nat)
    ensures n <= |s|
  {
    if s == [] then 0 else CountLE(s[..|s|-1], x) + if s[|s|-1] <= x then 1 else 0
  }

  /** How many samples are below x. */
  function CountLT(s: seq<real>, x: real): (n: nat)
    ensures n <= |s|
  {
    if s == [] then 0 else CountLT(s[..|s|-1], x) + if s[|s|-1] < x then 1 else 0
  }

  function Share(n: nat, total: nat): real
    requires total > 0
  {
    n as real / total as real
  }

  /** Distance of the two empirical distribution functions at x. */
  function Gap(a: seq<real>, b: seq<real>, x: real): real
    requires a != [] && b != []
  {
    AbsR(Share(CountLE(a, x), |a|) - Share(CountLE(b, x), |b|))
  }

  /** `d` is the supremum over all x of the distance, and is attained. */
  ghost predicate IsSupremum(a: seq<real>, b: seq<real>, d: real)
    requires a != [] && b != []
  {
    (forall x :: Gap(a, b, x) <= d) && (exists x :: Gap(a, b, x) == d)
  }

  ghost predicate Sorted(s: seq<real>) {
    forall i, j :: 0 <= i <= j < |s| ==> s[i] <= s[j]
  }

  /** In a sorted sample, element k is counted at x exactly when it is at most (below) x. */
  lemma {:induction false} CountSorted(s: seq<real>, x: real, k: nat)
    requires Sorted(s) && k < |s|
    ensures CountLE(s, x) > k <==> s[k] <= x
    ensures CountLT(s, x) > k <==> s[k] < x
  {
    var n := |s| - 1;
    if k < n {
      CountSorted(s[..n], x, k);
    } else if n > 0 {
      CountSorted(s[..n], x, n - 1);
    }
  }

  // ----- sorting, as the library call does it -----

  function Insert(v: real, s: seq<real>): seq<real> {
    if s == [] || s[|s|-1] <= v then s + [v] else Insert(v, s[..|s|-1]) + [s[|s|-1]]
  }

  function SortedCopy(s: seq<real>): seq<real> {
    if s == [] then [] else Insert(s[|s|-1], SortedCopy(s[..|s|-1]))
  }

  lemma {:induction false} InsertSorted(v: real, s: seq<real>)
    requires Sorted(s)
    ensures Sorted(Insert(v, s)) && |Insert(v, s)| == |s| + 1
    ensures forall k :: 0 <= k <= |s| ==> Insert(v, s)[k] == v || Insert(v, s)[k] in s
  {
    if s != [] && s[|s|-1] > v {
      var rest, last := s[..|s|-1], s[|s|-1];
      InsertSorted(v, rest);
      assert forall k :: 0 <= k < |s| ==> Insert(v, rest)[k] <= last;
    }
  }

  lemma {:induction false} InsertCount(v: real, s: seq<real>, x: real)
    ensures CountLE(Insert(v, s), x) == CountLE(s, x) + if v <= x then 1 else 0
    ensures CountLT(Insert(v, s), x) == CountLT(s, x) + if v < x then 1 else 0
  {
    if s == [] || s[|s|-1] <= v {
      assert (s + [v])[..|s|] == s;
    } else {
      var rest := s[..|s|-1];
      InsertCount(v, rest, x);
      assert Insert(v, s)[..|Insert(v, rest)|] == Insert(v, rest);
    }
  }

  lemma {:induction false} SortedCopyFacts(s: seq<real>, x: real)
    ensures Sorted(SortedCopy(s)) && |SortedCopy(s)| == |s|
    ensures CountLE(SortedCopy(s), x) == CountLE(s, x) && CountLT(SortedCopy(s), x) == CountLT(s, x)
  {
    if s != [] {
      SortedCopyFacts(s[..|s|-1], x);
      InsertSorted(s[|s|-1], SortedCopy(s[..|s|-1]));
      InsertCount(s[|s|-1], SortedCopy(s[..|s|-1]), x);
    }
  }

  // ----- the grouped walk -----

  lemma {:induction false} CountMonotone(s: seq<real>, x: real, y: real)
    requires x <= y
    ensures CountLE(s, x) <= CountLE(s, y) && CountLT(s, x) <= CountLT(s, y) && CountLT(s, y) <= CountLE(s, y)
    ensures x < y ==> CountLE(s, x) <= CountLT(s, y)
  {
    if s != [] {
      CountMonotone(s[..|s|-1], x, y);
    }
  }

  lemma CountIs(s: seq<real>, x: real, i: nat)
    requires Sorted(s) && i <= |s| && (i < |s| ==> x < s[i]) && (i > 0 ==> s[i-1] <= x)
    ensures CountLE(s, x) == i
  {
    if i < |s| { CountSorted(s, x, i); }
    if i > 0 { CountSorted(s, x, i - 1); }
  }

  lemma ShareMonotone(m: nat, n: nat, total: nat)
    requires total > 0 && m <= n <= total
    ensures 0.0 <= Share(m, total) <= Share(n, total) <= 1.0 && Share(total, total) == 1.0
  {
    Quotients(m as real, n as real, total as real);
    Quotients(n as real, total as real, total as real);
  }

  lemma Quotients(x: real, y: real, t: real)
    requires 0.0 <= x <= y && t > 0.0
    ensures 0.0 <= x / t <= y / t && t / t == 1.0
  {
    var gain := y - x;
    assert y / t - x / t == gain / t;
  }

  /** Every x counted no further than (i, j) has a distance of at most d. */
  ghost predicate Covered(a: seq<real>, b: seq<real>, i: nat, j: nat, d: real)
    requires a != [] && b != []
  {
    forall x :: CountLE(a, x) <= i && CountLE(b, x) <= j ==> Gap(a, b, x) <= d
  }

  /** Advancing both lists past one value covers everything up to the next value. */
  lemma CoverStep(a: seq<real>, b: seq<real>, i: nat, j: nat, d: real, v: real, d': real)
    requires a != [] && b != [] && Sorted(a) && Sorted(b) && i < |a| && j < |b|
    requires v <= a[i] && v <= b[j] && d <= d' && Gap(a, b, v) <= d' && Covered(a, b, i, j, d)
    ensures Covered(a, b, CountLE(a, v), CountLE(b, v), d')
  {
    hide CountLE, CountLT, Share, AbsR;
    forall x | CountLE(a, x) <= CountLE(a, v) && CountLE(b, x) <= CountLE(b, v)
      ensures Gap(a, b, x) <= d'
    {
      if x < v {
        CountSorted(a, x, i);
        CountSorted(b, x, j);
      } else {
        CountMonotone(a, v, x);
        CountMonotone(b, v, x);
      }
    }
  }

  /** Once one list is used up the other can only come closer. */
  lemma CoverExit(a: seq<real>, b: seq<real>, v: real, d: real)
    requires a != [] && b != [] && (CountLE(a, v) == |a| || CountLE(b, v) == |b|)
    requires Covered(a, b, CountLE(a, v), CountLE(b, v), d)
    ensures forall x :: Gap(a, b, x) <= d
  {
    assert Gap(a, b, v) <= d;
    forall x ensures Gap(a, b, x) <= d {
      if x < v {
        CountMonotone(a, x, v);
        CountMonotone(b, x, v);
      } else {
        CountMonotone(a, v, x);
        CountMonotone(b, v, x);
        ShareMonotone(CountLE(a, v), CountLE(a, x), |a|);
        ShareMonotone(CountLE(b, v), CountLE(b, x), |b|);
      }
    }
  }

  lemma SortedGap(a: seq<real>, b: seq<real>, d: real)
    requires a != [] && b != [] && SortedCopy(a) != [] && SortedCopy(b) != []
    requires IsSupremum(SortedCopy(a), SortedCopy(b), d)
    ensures IsSupremum(a, b, d)
  {
    hide Gap, SortedCopy;
    forall x ensures Gap(SortedCopy(a), SortedCopy(b), x) == Gap(a, b, x) {
      SortedGapAt(a, b, x);
    }
    var x :| Gap(SortedCopy(a), SortedCopy(b), x) == d;
    assert Gap(a, b, x) == d;
  }

  lemma SortedGapAt(a: seq<real>, b: seq<real>, x: real)
    requires a != [] && b != []
    ensures SortedCopy(a) != [] && SortedCopy(b) != [] && Gap(SortedCopy(a), SortedCopy(b), x) == Gap(a, b, x)
  {
    hide SortedCopy, Share, CountLE, CountLT;
    SortedCopyFacts(a, x);
    SortedCopyFacts(b, x);
  }

  /** Steps over every sample that is at most `value`. */
  method Skip(s: seq<real>, from: nat, value: real) returns (i: nat)
    requires Sorted(s) && from <= |s| && (from > 0 ==> s[from-1] <= value)
    ensures i <= |s| && i == CountLE(s, value)
    ensures from <= i && (from < |s| && s[from] <= value ==> from < i)
  {
    hide CountLE;
    i := from;
    while i < |s| && s[i] <= value
      invariant from <= i <= |s| && (i > 0 ==> s[i-1] <= value)
    {
      i := i + 1;
    }
    CountIs(s, value, i);
  }

  lemma BeforeValue(s: seq<real>, v: real, i: nat, value: real)
    requires Sorted(s) && i < |s| && CountLE(s, v) == i && value <= s[i]
    ensures v < s[i] && (i > 0 ==> s[i-1] <= v)
    ensures i > 0 ==> s[i-1] <= s[i]
  {
    CountSorted(s, v, i);
    if i > 0 { CountSorted(s, v, i - 1); }
  }

  /** `ks_statistic` of edge validation: the exact supremum, ties and early exhaustion included. */
  method GroupedKs(expected: seq<real>, realized: seq<real>) returns (maxDistance: real)
    ensures expected == [] || realized == [] ==> maxDistance == 0.0
    ensures expected != [] && realized != [] ==> IsSupremum(expected, realized, maxDistance)
  {
    hide CountLE, Covered, Share, Gap, SortedCopy, IsSupremum, Sorted;
    if expected == [] || realized == [] {
      return 0.0;
    }
    var a, b := SortedCopy(expected), SortedCopy(realized);
    SortedCopyFacts(expected, 0.0);
    SortedCopyFacts(realized, 0.0);
    var i, j := 0, 0;
    maxDistance := 0.0;
    ghost var v := MinR(a[0], b[0]) - 1.0;
    ghost var w := v;
    CountIs(a, v, 0);
    CountIs(b, v, 0);
    StartCovered(a, b, v);
    while i < |a| && j < |b|
      invariant i <= |a| && j <= |b|
      invariant CountLE(a, v) == i && CountLE(b, v) == j
      invariant Covered(a, b, i, j, maxDistance) && Gap(a, b, w) == maxDistance
      decreases |a| - i + |b| - j
    {
      var value := MinR(a[i], b[j]);
      ghost var i0, j0 := i, j;
      BeforeValue(a, v, i, value);
      BeforeValue(b, v, j, value);
      i := Skip(a, i, value);
      j := Skip(b, j, value);
      var cdfExpected, cdfRealized := Share(i, |a|), Share(j, |b|);
      var distance := AbsR(cdfExpected - cdfRealized);
      GapIs(a, b, value);
      CoverStep(a, b, i0, j0, maxDistance, value, MaxR(maxDistance, distance));
      v := value;
      w := if maxDistance < distance then value else w;
      maxDistance := MaxR(maxDistance, distance);
    }
    CoverExit(a, b, v, maxDistance);
    SupremumAttained(a, b, maxDistance, w);
    SortedGap(expected, realized, maxDistance);
  }

  lemma StartCovered(a: seq<real>, b: seq<real>, v: real)
    requires a != [] && b != []
    ensures Covered(a, b, 0, 0, 0.0)
    ensures CountLE(a, v) == CountLE(b, v) == 0 ==> Gap(a, b, v) == 0.0
  {
  }

  lemma GapIs(a: seq<real>, b: seq<real>, x: real)
    requires a != [] && b != []
    ensures Gap(a, b, x) == AbsR(Share(CountLE(a, x), |a|) - Share(CountLE(b, x), |b|))
  {
  }

  lemma SupremumAttained(a: seq<real>, b: seq<real>, d: real, w: real)
    requires a != [] && b != [] && (forall x :: Gap(a, b, x) <= d) && Gap(a, b, w) == d
    ensures IsSupremum(a, b, d)
  {
  }

  // ----- what the supremum is -----

  lemma GapFacts(a: seq<real>, b: seq<real>, x: real)
    requires a != [] && b != []
    ensures 0.0 <= Gap(a, b, x) <= 1.0 && Gap(a, b, x) == Gap(b, a, x)
    ensures Gap(a, b, x) == 0.0 <==> Share(CountLE(a, x), |a|) == Share(CountLE(b, x), |b|)
  {
    ShareMonotone(CountLE(a, x), |a|, |a|);
    ShareMonotone(CountLE(b, x), |b|, |b|);
  }

  lemma SupremumUnique(a: seq<real>, b: seq<real>, d: real, e: real)
    requires a != [] && b != [] && IsSupremum(a, b, d)
    ensures IsSupremum(a, b, e) <==> d == e
  {
    hide Gap;
    if IsSupremum(a, b, e) {
      var x, y :| Gap(a, b, x) == d && Gap(a, b, y) == e;
    }
  }

  ghost predicate SameDistribution(a: seq<real>, b: seq<real>)
    requires a != [] && b != []
  {
    forall x :: Share(CountLE(a, x), |a|) == Share(CountLE(b, x), |b|)
  }

  /** The statistic is in [0, 1], symmetric, and zero exactly when the distribution functions coincide. */
  lemma SupremumFacts(a: seq<real>, b: seq<real>, d: real)
    requires a != [] && b != [] && IsSupremum(a, b, d)
    ensures 0.0 <= d <= 1.0 && IsSupremum(b, a, d)
    ensures d == 0.0 <==> SameDistribution(a, b)
  {
    hide Share, CountLE, Gap;
    forall x ensures Gap(a, b, x) == Gap(b, a, x) && 0.0 <= Gap(a, b, x) <= 1.0 {
      GapFacts(a, b, x);
    }
    var w :| Gap(a, b, w) == d;
    assert Gap(b, a, w) == d;
    if SameDistribution(a, b) {
      GapFacts(a, b, w);
      assert CountLE(a, w) == CountLE(a, w);
    }
    if d == 0.0 {
      forall x ensures Share(CountLE(a, x), |a|) == Share(CountLE(b, x), |b|) {
        GapFacts(a, b, x);
      }
    }
  }

  // ----- the element-at-a-time walk -----

  /** How far the first sample runs ahead at x while its ties are consumed before the second's. */
  function Lead(a: seq<real>, b: seq<real>, x: real): real
    requires a != [] && b != []
  {
    Share(CountLE(a, x), |a|) - Share(CountLT(b, x), |b|)
  }

  /** `d` is the larger of the two suprema, and is attained. */
  ghost predicate IsElementwise(a: seq<real>, b: seq<real>, d: real)
    requires a != [] && b != []
  {
    && (forall x :: Gap(a, b, x) <= d)
    && (forall x :: Lead(a, b, x) <= d)
    && (exists x :: Gap(a, b, x) == d || Lead(a, b, x) == d)
  }

  /** The walk's position: everything consumed comes before everything that is not. */
  ghost predicate Consistent(a: seq<real>, b: seq<real>, i: nat, j: nat) {
    && Sorted(a) && Sorted(b) && i <= |a| && j <= |b|
    && (i > 0 && j < |b| ==> a[i-1] <= b[j])
    && (j > 0 && i < |a| ==> b[j-1] < a[i])
  }

  function Distance(a: seq<real>, b: seq<real>, i: nat, j: nat): real
    requires a != [] && b != []
  {
    AbsR(Share(i, |a|) - Share(j, |b|))
  }

  ghost predicate LeadCovered(a: seq<real>, b: seq<real>, i: nat, j: nat, d: real)
    requires a != [] && b != []
  {
    forall x :: CountLE(a, x) <= i && CountLT(b, x) <= j ==> Lead(a, b, x) <= d
  }

  lemma CoverNext(a: seq<real>, b: seq<real>, i: nat, j: nat, i': nat, j': nat, d: real, d': real)
    requires a != [] && b != [] && Consistent(a, b, i, j) && i < |a| && j < |b|
    requires if a[i] <= b[j] then i' == i + 1 && j' == j else i' == i && j' == j + 1
    requires d <= d' && Distance(a, b, i', j') <= d'
    requires Covered(a, b, i, j, d) && LeadCovered(a, b, i, j, d)
    ensures Consistent(a, b, i', j') && Covered(a, b, i', j', d') && LeadCovered(a, b, i', j', d')
  {
    hide CountLE, CountLT, Share, AbsR;
    forall x | CountLE(a, x) <= i' && CountLE(b, x) <= j'
      ensures Gap(a, b, x) <= d'
    {
      ReachedExactly(a, b, i, j, x);
    }
    forall x | CountLE(a, x) <= i' && CountLT(b, x) <= j'
      ensures Lead(a, b, x) <= d'
    {
      ReachedExactly(a, b, i, j, x);
      SignedBelow(a, b, i', j');
    }
  }

  lemma SignedBelow(a: seq<real>, b: seq<real>, i: nat, j: nat)
    requires a != [] && b != []
    ensures Share(i, |a|) - Share(j, |b|) <= Distance(a, b, i, j)
  {
  }

  /** A value that passes the next sample to be consumed has passed everything consumed before. */
  lemma ReachedExactly(a: seq<real>, b: seq<real>, i: nat, j: nat, x: real)
    requires Consistent(a, b, i, j) && i < |a| && j < |b|
    ensures a[i] <= b[j] && CountLE(a, x) > i ==> CountLE(b, x) >= j && CountLT(b, x) >= j
    ensures a[i] > b[j] && CountLE(b, x) > j ==> CountLE(a, x) >= i
    ensures a[i] > b[j] && CountLT(b, x) > j ==> CountLE(a, x) >= i
  {
    CountSorted(a, x, i);
    CountSorted(b, x, j);
    if i > 0 { CountSorted(a, x, i - 1); }
    if j > 0 { CountSorted(b, x, j - 1); }
  }

  /** Every position the walk visits is matched by a value of x. */
  lemma DistanceAttained(a: seq<real>, b: seq<real>, i: nat, j: nat) returns (x: real)
    requires a != [] && b != [] && Consistent(a, b, i, j) && i + j > 0
    ensures Distance(a, b, i, j) <= Gap(a, b, x) || Distance(a, b, i, j) <= Lead(a, b, x)
  {
    hide CountLE, CountLT;
    if Share(i, |a|) >= Share(j, |b|) && i > 0 {
      x := a[i-1];
      CountSorted(a, x, i - 1);
      if j < |b| { CountSorted(b, x, j); }
      ShareMonotone(i, CountLE(a, x), |a|);
      ShareMonotone(CountLT(b, x), j, |b|);
    } else if j > 0 {
      x := b[j-1];
      CountSorted(b, x, j - 1);
      if i < |a| { CountSorted(a, x, i); }
      ShareMonotone(j, CountLE(b, x), |b|);
      ShareMonotone(CountLE(a, x), i, |a|);
    } else {
      ShareMonotone(0, i, |a|);
      assert false;
    }
  }

  /** Closer to one means closer to a list that is used up. */
  lemma TowardsOne(m: nat, n: nat, total: nat)
    requires total > 0 && m <= n <= total
    ensures AbsR(1.0 - Share(n, total)) <= AbsR(1.0 - Share(m, total))
            && 1.0 - Share(n, total) <= AbsR(1.0 - Share(m, total))
    ensures AbsR(Share(n, total) - 1.0) <= AbsR(Share(m, total) - 1.0)
    ensures Share(total, total) == 1.0 && Share(n, total) - 1.0 <= 0.0 <= AbsR(Share(m, total) - 1.0)
  {
    ShareMonotone(m, n, total);
  }

  lemma ExitFirst(a: seq<real>, b: seq<real>, j: nat, d: real, x: real)
    requires a != [] && b != [] && Consistent(a, b, |a|, j) && Distance(a, b, |a|, j) <= d
    requires Covered(a, b, |a|, j, d) && LeadCovered(a, b, |a|, j, d)
    ensures Gap(a, b, x) <= d && Lead(a, b, x) <= d
  {
    hide CountLE, CountLT, Share, AbsR;
    if j < |b| {
      CountSorted(b, x, j);
      CountSorted(a, x, |a| - 1);
    }
    TowardsOne(|a|, |a|, |a|);
    if CountLE(b, x) > j {
      TowardsOne(j, CountLE(b, x), |b|);
    }
    if CountLT(b, x) > j {
      TowardsOne(j, CountLT(b, x), |b|);
    }
  }

  lemma ExitSecond(a: seq<real>, b: seq<real>, i: nat, d: real, x: real)
    requires a != [] && b != [] && Consistent(a, b, i, |b|) && i < |a| && Distance(a, b, i, |b|) <= d
    requires Covered(a, b, i, |b|, d) && LeadCovered(a, b, i, |b|, d)
    ensures Gap(a, b, x) <= d && Lead(a, b, x) <= d
  {
    hide CountLE, CountLT, Share, AbsR;
    CountSorted(a, x, i);
    CountSorted(b, x, |b| - 1);
    TowardsOne(|b|, |b|, |b|);
    if CountLE(a, x) > i {
      TowardsOne(i, CountLE(a, x), |a|);
    }
  }

  lemma SortedElementwise(a: seq<real>, b: seq<real>, d: real)
    requires a != [] && b != [] && SortedCopy(a) != [] && SortedCopy(b) != []
    requires IsElementwise(SortedCopy(a), SortedCopy(b), d)
    ensures IsElementwise(a, b, d)
  {
    hide Gap, Lead, SortedCopy;
    forall x
      ensures Gap(SortedCopy(a), SortedCopy(b), x) == Gap(a, b, x)
      ensures Lead(SortedCopy(a), SortedCopy(b), x) == Lead(a, b, x)
    {
      SortedGapAt(a, b, x);
      SortedLeadAt(a, b, x);
    }
    var x :| Gap(SortedCopy(a), SortedCopy(b), x) == d || Lead(SortedCopy(a), SortedCopy(b), x) == d;
    assert Gap(a, b, x) == d || Lead(a, b, x) == d;
  }

  lemma SortedLeadAt(a: seq<real>, b: seq<real>, x: real)
    requires a != [] && b != []
    ensures SortedCopy(a) != [] && SortedCopy(b) != [] && Lead(SortedCopy(a), SortedCopy(b), x) == Lead(a, b, x)
  {
    hide SortedCopy, Share, CountLE, CountLT;
    SortedCopyFacts(a, x);
    SortedCopyFacts(b, x);
  }

  lemma ElementwiseAttained(a: seq<real>, b: seq<real>, d: real, w: real)
    requires a != [] && b != [] && (forall x :: Gap(a, b, x) <= d && Lead(a, b, x) <= d)
    requires d <= Gap(a, b, w) || d <= Lead(a, b, w)
    ensures IsElementwise(a, b, d)
  {
    hide Gap, Lead;
    assert Gap(a, b, w) <= d && Lead(a, b, w) <= d;
  }

  lemma WalkStart(a: seq<real>, b: seq<real>, x: real)
    requires a != [] && b != [] && Sorted(a) && Sorted(b) && x < a[0] && x < b[0]
    ensures Consistent(a, b, 0, 0) && Covered(a, b, 0, 0, 0.0) && LeadCovered(a, b, 0, 0, 0.0)
    ensures Gap(a, b, x) == 0.0
  {
    CountIs(a, x, 0);
    CountIs(b, x, 0);
  }

  /** `ks_statistic` of mode validation. */
  method ElementKs(a: seq<real>, b: seq<real>) returns (maxDistance: real)
    ensures a == [] || b == [] ==> maxDistance == 1.0
    ensures a != [] && b != [] ==> IsElementwise(a, b, maxDistance)
  {
    hide CountLE, CountLT, Covered, LeadCovered, Share, Gap, Lead, SortedCopy, IsElementwise, Distance, Consistent,
         Sorted;
    if a == [] || b == [] {
      return 1.0;
    }
    var lhs, rhs := SortedCopy(a), SortedCopy(b);
    SortedCopyFacts(a, 0.0);
    SortedCopyFacts(b, 0.0);
    var i, j := 0, 0;
    var cdfA, cdfB := 0.0, 0.0;
    maxDistance := 0.0;
    ghost var w := MinR(lhs[0], rhs[0]) - 1.0;
    WalkStart(lhs, rhs, w);
    ShareZero(|lhs|);
    ShareZero(|rhs|);
    while i < |lhs| && j < |rhs|
      invariant i <= |lhs| && j <= |rhs|
      invariant Consistent(lhs, rhs, i, j) && cdfA == Share(i, |lhs|) && cdfB == Share(j, |rhs|)
      invariant Covered(lhs, rhs, i, j, maxDistance) && LeadCovered(lhs, rhs, i, j, maxDistance)
      invariant i + j > 0 ==> Distance(lhs, rhs, i, j) <= maxDistance
      invariant maxDistance <= Gap(lhs, rhs, w) || maxDistance <= Lead(lhs, rhs, w)
      decreases |lhs| - i + |rhs| - j
    {
      ghost var i0, j0 := i, j;
      if lhs[i] <= rhs[j] {
        i := i + 1;
        cdfA := Share(i, |lhs|);
      } else {
        j := j + 1;
        cdfB := Share(j, |rhs|);
      }
      DistanceIs(lhs, rhs, i, j);
      CoverNext(lhs, rhs, i0, j0, i, j, maxDistance, MaxR(maxDistance, AbsR(cdfA - cdfB)));
      if maxDistance < AbsR(cdfA - cdfB) {
        w := DistanceAttained(lhs, rhs, i, j);
      }
      maxDistance := MaxR(maxDistance, AbsR(cdfA - cdfB));
    }
    forall x ensures Gap(lhs, rhs, x) <= maxDistance && Lead(lhs, rhs, x) <= maxDistance {
      if i == |lhs| {
        ExitFirst(lhs, rhs, j, maxDistance, x);
      } else {
        ExitSecond(lhs, rhs, i, maxDistance, x);
      }
    }
    ElementwiseAttained(lhs, rhs, maxDistance, w);
    SortedElementwise(a, b, maxDistance);
  }

  lemma ShareZero(total: nat)
    requires total > 0
    ensures Share(0, total) == 0.0
  {
  }

  lemma DistanceIs(a: seq<real>, b: seq<real>, i: nat, j: nat)
    requires a != [] && b != []
    ensures Distance(a, b, i, j) == AbsR(Share(i, |a|) - Share(j, |b|))
  {
  }

  // ----- the two walks compared -----

  /** Just below x: a value at which every sample below x, and no other, is counted. */
  lemma {:induction false} JustBelow(s: seq<real>, x: real) returns (y: real)
    ensures y < x && forall z :: y <= z < x ==> CountLE(s, z) == CountLT(s, x)
  {
    if s == [] {
      y := x - 1.0;
    } else {
      var last := s[|s|-1];
      y := JustBelow(s[..|s|-1], x);
      if last < x {
        y := MaxR(y, last);
      }
      assert forall z :: y <= z < x ==> CountLE(s, z) == CountLE(s[..|s|-1], z) + if last <= z then 1 else 0;
    }
  }

  lemma {:induction false} NotASample(s: seq<real>, x: real)
    requires x !in s
    ensures CountLE(s, x) == CountLT(s, x)
  {
    if s != [] {
      NotASample(s[..|s|-1], x);
    }
  }

  /** Away from values that both samples share, the lead is no more than the exact statistic. */
  lemma LeadOfUnshared(a: seq<real>, b: seq<real>, x: real, d: real)
    requires a != [] && b != [] && IsSupremum(a, b, d) && (x !in a || x !in b)
    ensures Lead(a, b, x) <= d
  {
    hide Share, CountLE, CountLT;
    assert Gap(a, b, x) <= d;
    if x !in b {
      NotASample(b, x);
    } else {
      NotASample(a, x);
      var ya := JustBelow(a, x);
      var yb := JustBelow(b, x);
      var y := MaxR(ya, yb);
      assert Gap(a, b, y) <= d;
      assert CountLE(a, y) == CountLT(a, x) && CountLE(b, y) == CountLT(b, x);
    }
  }

  /**
   The element-at-a-time statistic is never below the exact one, and equals it exactly when at every
   value the samples share, consuming the first sample's ties alone leads by no more than the exact
   statistic; in particular whenever the samples share no value, whatever repeats inside one sample.
   */
  lemma ElementwiseAgainstExact(a: seq<real>, b: seq<real>, exact: real, walked: real)
    requires a != [] && b != [] && IsSupremum(a, b, exact) && IsElementwise(a, b, walked)
    ensures exact <= walked
    ensures walked == exact <==> forall x :: x in a && x in b ==> Lead(a, b, x) <= exact
    ensures (forall x :: x in a ==> x !in b) ==> walked == exact
  {
    hide Gap, Lead;
    var w :| Gap(a, b, w) == exact;
    var v :| Gap(a, b, v) == walked || Lead(a, b, v) == walked;
    assert Gap(a, b, w) <= walked && Gap(a, b, v) <= exact;
    if forall x :: x in a && x in b ==> Lead(a, b, x) <= exact {
      if v !in a || v !in b {
        LeadOfUnshared(a, b, v, exact);
      }
    }
  }

  lemma {:induction false} SampleCounted(s: seq<real>, x: real)
    requires x in s
    ensures CountLT(s, x) + 1 <= CountLE(s, x)
  {
    var rest := s[..|s|-1];
    CountMonotone(rest, x, x);
    if x in rest {
      SampleCounted(rest, x);
    }
  }

  /**
   Every sample compared with itself: the exact statistic is 0, but the element-at-a-time walk
   never answers less than 1/n.
   */
  lemma SelfComparison(a: seq<real>, walked: real)
    requires a != [] && IsElementwise(a, a, walked)
    ensures IsSupremum(a, a, 0.0)
    ensures walked >= 1.0 / |a| as real
  {
    hide CountLE, CountLT, Share, Gap;
    forall x ensures Gap(a, a, x) == 0.0 {
      GapFacts(a, a, x);
    }
    var first := a[0];
    assert Lead(a, a, first) <= walked;
    SampleCounted(a, first);
    ShareGain(CountLT(a, first), CountLE(a, first), |a|);
    assert Gap(a, a, first) == 0.0;
  }

  lemma ShareGain(m: nat, n: nat, total: nat)
    requires total > 0 && m + 1 <= n
    ensures Share(n, total) - Share(m, total) >= 1.0 / total as real
  {
    var t := total as real;
    assert n as real / t - m as real / t == (n - m) as real / t;
    assert (n - m) as real / t >= 1.0 / t;
  }
}

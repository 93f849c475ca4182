/** What the figures of an edge report mean, in terms of the samples in its windows and of one another. */
module EdgeLaws {
  import opened Numeric
  import opened Domain
  import opened OnlineMoments
  import opened EdgeValidation

  // ----- window entries and their means -----

  /**
   A sample enters the windows with its own figures, those within 0.0001 of zero as zero.  Its error is its expected
   less its realized entry; its capture, times the expected entry, is the realized PnL unless that is more than five
   times the expected one.
   */
  lemma EntryMeans(s: Sample)
    ensures Value(ExpectedEdge, s) == if AbsR(s.expectedMarkout) <= 0.0001 then 0.0 else s.expectedMarkout
    ensures Value(RealizedMarkout, s) == if AbsR(s.realizedMarkout) <= 0.0001 then 0.0 else s.realizedMarkout
    ensures Value(RealizedPnl, s) == if AbsR(s.pnl) <= 0.0001 then 0.0 else s.pnl
    ensures Value(EdgeError, s) == Value(ExpectedEdge, s) - Value(RealizedMarkout, s)
    ensures AbsR(Value(EdgeError, s) - (s.expectedMarkout - s.realizedMarkout)) <= 0.0002
    ensures Value(ExecutionAlpha, s) == if AbsR(s.executionAlpha) <= 0.0001 then 0.0 else s.executionAlpha
    ensures Value(RealizedPnl, s) - Value(AdjustedReturn, s)
            == 0.20 * AbsR(s.actualSlippageBps) + 0.0005 * s.durationMs as real
    ensures Value(Slippage, s) >= 0.0 && Value(ExecutionLoss, s) >= 0.0 && Value(AdverseSelection, s) >= 0.0
    ensures s.actualSlippageBps >= 0.0 ==> Value(Slippage, s) == s.actualSlippageBps
    ensures s.executionLoss >= 0.0 ==> Value(ExecutionLoss, s) == s.executionLoss
    ensures s.adverseSelectionLoss >= 0.0 ==> Value(AdverseSelection, s) == s.adverseSelectionLoss
    ensures Value(EdgeComponent, s) == s.edgeComponent && Value(FeesRebates, s) == s.feesRebatesComponent
    ensures 0.0 <= Value(FillRate, s) <= 1.0 && (0.0 <= s.fillRatio <= 1.0 ==> Value(FillRate, s) == s.fillRatio)
    ensures Value(OutbidFlag, s) == 1.0 <==> s.competition in {Competitive, Saturated}
    ensures Value(OutbidFlag, s) == 0.0 <==> s.competition == Normal
  {
  }

  lemma CaptureMeans(s: Sample)
    ensures var expected, pnl := Value(ExpectedEdge, s), Value(RealizedPnl, s);
            && (expected == 0.0 ==> Value(CaptureRatio, s) == 0.0)
            && (expected != 0.0 && AbsR(pnl) <= 5.0 * AbsR(expected) ==> Times(Value(CaptureRatio, s), expected) == pnl)
            && (AbsR(pnl) > 5.0 * AbsR(expected) > 0.0 ==>
                  Value(CaptureRatio, s) == if pnl > 0.0 <==> expected > 0.0 then 5.0 else -5.0)
  {
    var expected, pnl := Value(ExpectedEdge, s), Value(RealizedPnl, s);
    if expected != 0.0 {
      QuotientClamps(pnl, expected);
    }
  }

  lemma QuotientClamps(n: real, d: real)
    requires d != 0.0
    ensures AbsR(n) <= 5.0 * AbsR(d) ==> -5.0 <= n / d <= 5.0 && Times(n / d, d) == n
    ensures AbsR(n) > 5.0 * AbsR(d) ==> if n > 0.0 <==> d > 0.0 then n / d > 5.0 else n / d < -5.0
  {
    hide AbsR;
    AbsQuotient(n, d);
    Undo(n, d);
    if n != 0.0 {
      QuotientSign(n, d);
    }
    AbsIs(n / d);
    AbsIs(n);
    AbsIs(d);
  }

  lemma AbsIs(v: real)
    ensures AbsR(v) == (if v < 0.0 then -v else v) && (v == 0.0 ==> AbsR(v) == 0.0)
  {
  }

  lemma Undo(n: real, d: real)
    requires d != 0.0
    ensures Times(n / d, d) == n
  {
  }

  lemma AbsQuotient(n: real, d: real)
    requires d != 0.0
    ensures AbsR(n / d) <= 5.0 <==> AbsR(n) <= 5.0 * AbsR(d)
  {
    var q, size := AbsR(n / d), AbsR(d);
    assert q * size == AbsR(n);
    ProductOrder(5.0, q, size);
  }

  lemma QuotientSign(n: real, d: real)
    requires d != 0.0 && n != 0.0
    ensures n / d > 0.0 <==> (n > 0.0 <==> d > 0.0)
  {
    assert n / d * d == n;
  }

  lemma {:induction false} SumDifference(a: seq<real>, b: seq<real>, c: seq<real>)
    requires |a| == |b| == |c| && forall i :: 0 <= i < |a| ==> c[i] == a[i] - b[i]
    ensures Sum(c) == Sum(a) - Sum(b)
  {
    if a != [] {
      SumDifference(a[..|a|-1], b[..|b|-1], c[..|c|-1]);
    }
  }

  /** The mean error is the mean expected edge less the mean realized markout of the same samples. */
  lemma ErrorMeanIsShortfall(h: seq<Sample>, capacity: nat)
    ensures Mean(Window(EdgeError, h, capacity))
            == Mean(Window(ExpectedEdge, h, capacity)) - Mean(Window(RealizedMarkout, h, capacity))
  {
    hide Sum, Window;
    var e, r, x := Window(ExpectedEdge, h, capacity), Window(RealizedMarkout, h, capacity),
        Window(EdgeError, h, capacity);
    ErrorEntries(h, capacity);
    SumDifference(e, r, x);
    MeanDifference(Sum(e), Sum(r), |x|);
  }

  lemma ErrorEntries(h: seq<Sample>, capacity: nat)
    ensures var e, r, x := Window(ExpectedEdge, h, capacity), Window(RealizedMarkout, h, capacity),
                           Window(EdgeError, h, capacity);
            |e| == |r| == |x| && forall i :: 0 <= i < |x| ==> x[i] == e[i] - r[i]
  {
    hide Value;
    forall s: Sample
      ensures Value(EdgeError, s) == Value(ExpectedEdge, s) - Value(RealizedMarkout, s)
    {
      EntryMeans(s);
    }
  }

  lemma MeanDifference(a: real, b: real, n: nat)
    ensures n > 0 ==> (a - b) / n as real == a / n as real - b / n as real
  {
  }

  function Contested(samples: seq<Sample>): nat {
    if samples == [] then 0
    else Contested(samples[..|samples|-1]) + if samples[|samples|-1].competition == Normal then 0 else 1
  }

  lemma {:induction false} FlagSum(samples: seq<Sample>, flags: seq<real>)
    requires |samples| == |flags| && forall i :: 0 <= i < |samples| ==> flags[i] == Value(OutbidFlag, samples[i])
    ensures Sum(flags) == Contested(samples) as real
  {
    if samples != [] {
      FlagSum(samples[..|samples|-1], flags[..|flags|-1]);
    }
  }

  /** The mean of the outbid flags is the share of contested samples among the last `capacity`. */
  lemma OutbidMeanIsShare(h: seq<Sample>, capacity: nat)
    requires h != [] && capacity > 0
    ensures var n := if |h| < capacity then |h| else capacity;
            Mean(Window(OutbidFlag, h, capacity)) == Contested(h[|h|-n..]) as real / n as real
  {
    hide Value;
    var n := if |h| < capacity then |h| else capacity;
    FlagSum(h[|h|-n..], Window(OutbidFlag, h, capacity));
  }

  /** The variance is the mean square less the square of the mean, scaled to a sample's. */
  lemma VarianceMeans(xs: seq<real>)
    requires |xs| >= 2
    ensures Times(Variance(xs), |xs| as real - 1.0) == Dev2(xs, 0.0) - Times(|xs| as real, Times(Mean(xs), Mean(xs)))
    ensures Variance(xs) >= 0.0
  {
    hide Dev1, Dev2, Dev3, Mean, Variance, Moved3;
    Shift(xs, Mean(xs), -Mean(xs));
    MeanCentres(xs);
    Dev2NonNegative(xs, Mean(xs));
    VarianceTimes(xs);
    VarianceSign(xs);
  }

  lemma VarianceTimes(xs: seq<real>)
    requires |xs| >= 2
    ensures Times(Variance(xs), |xs| as real - 1.0) == Dev2(xs, Mean(xs))
  {
    hide Dev2, Mean;
    Undivide(Dev2(xs, Mean(xs)), |xs| as real - 1.0);
  }

  lemma VarianceSign(xs: seq<real>)
    requires |xs| >= 2 && Dev2(xs, Mean(xs)) >= 0.0
    ensures Variance(xs) >= 0.0
  {
    hide Dev2, Mean;
  }

  // ----- the statistics of a window -----

  /** The t-statistic is the Sharpe-like ratio times the root of n, and both times the deviation give the mean back. */
  lemma RatiosMean(root: Root, xs: seq<real>)
    requires |xs| >= 2 && Variance(xs) > EPSILON
    ensures Times(SharpeLike(root, xs), root(Variance(xs))) == Mean(xs)
    ensures TStatistic(root, xs) == Times(SharpeLike(root, xs), root(|xs| as real))
  {
    hide Variance, Mean;
    Quotients(Mean(xs), root(Variance(xs)), root(|xs| as real));
  }

  lemma Quotients(mean: real, deviation: real, size: real)
    requires deviation > 0.0 && size > 0.0
    ensures deviation / size > 0.0 && Times(mean / deviation, deviation) == mean
    ensures mean / (deviation / size) == Times(mean / deviation, size)
  {
    var e, q := deviation / size, mean / deviation;
    assert e * size == deviation;
    assert q * deviation == mean;
    assert (q * size) * e == q * (size * e);
  }

  /** A signal is stable exactly when its mean is beyond the noise and its deviation smaller than the mean. */
  lemma StableIff(root: Root, xs: seq<real>)
    ensures StableSignal(root, xs) <==> AbsR(Mean(xs)) > 0.0001 && root(Variance(xs)) < AbsR(Mean(xs))
  {
    hide Mean, Variance, AbsR;
    if AbsR(Mean(xs)) > NOISE_FLOOR {
      BelowIff(root(Variance(xs)), AbsR(Mean(xs)));
    }
  }

  lemma BelowIff(n: real, d: real)
    requires d > 0.0
    ensures n / d < 1.0 <==> n < d
  {
    var q := n / d;
    assert q * d == n;
    ProductOrder(q, 1.0, d);
  }

  /** The skew has the sign of the cubed deviations, and gives them back scaled by n times the cubed deviation. */
  lemma WindowSkewMeans(root: Root, xs: seq<real>)
    requires xs != [] && Variance(xs) > EPSILON
    ensures Times(Times(Skew(root, xs), Cubed(root(Variance(xs)))), |xs| as real) == Dev3(xs, Mean(xs))
    ensures Skew(root, xs) > 0.0 <==> Dev3(xs, Mean(xs)) > 0.0
    ensures Skew(root, xs) < 0.0 <==> Dev3(xs, Mean(xs)) < 0.0
  {
    hide Mean, Variance, Dev3, Cubed;
    CubePositive(root(Variance(xs)));
    TwoQuotients(Dev3(xs, Mean(xs)), |xs| as real, Cubed(root(Variance(xs))));
  }

  lemma TwoQuotients(n: real, a: real, b: real)
    requires a > 0.0 && b > 0.0
    ensures Times(Times(n / a / b, b), a) == n
    ensures (n / a / b > 0.0 <==> n > 0.0) && (n / a / b < 0.0 <==> n < 0.0)
  {
    var p := n / a;
    var q := p / b;
    assert p * a == n;
    assert q * b == p;
  }

  /**
   The confidence interval lies above zero exactly when t exceeds 1.96, below it exactly when t is under -1.96, and
   starts below zero exactly when t is under 1.96.
   */
  lemma IntervalIffT(root: Root, xs: seq<real>)
    requires |xs| >= 2 && Variance(xs) > EPSILON
    ensures Mean(xs) - Margin(root, xs) > 0.0 <==> TStatistic(root, xs) > 1.96
    ensures Mean(xs) - Margin(root, xs) < 0.0 <==> TStatistic(root, xs) < 1.96
    ensures Mean(xs) + Margin(root, xs) < 0.0 <==> TStatistic(root, xs) < -1.96
    ensures TStatistic(root, xs) < 0.0 <==> Mean(xs) < 0.0
  {
    hide Variance, Mean;
    var deviation, size := root(Variance(xs)), root(|xs| as real);
    RatioPositive(deviation, size);
    MarginIs(deviation, size);
    Compare(Mean(xs), deviation / size);
  }

  lemma MarginIs(deviation: real, size: real)
    requires size > 0.0
    ensures 1.96 * deviation / size == 1.96 * (deviation / size)
  {
  }

  lemma Compare(mean: real, error: real)
    requires error > 0.0
    ensures mean - 1.96 * error > 0.0 <==> mean / error > 1.96
    ensures mean - 1.96 * error < 0.0 <==> mean / error < 1.96
    ensures mean + 1.96 * error < 0.0 <==> mean / error < -1.96
    ensures mean / error < 0.0 <==> mean < 0.0
  {
    var t := mean / error;
    assert t * error == mean;
    assert (t - 1.96) * error == mean - 1.96 * error;
    assert (t + 1.96) * error == mean + 1.96 * error;
  }

  /**
   The half-life reaches a given number of samples exactly when the window holds half as many and the realized mean
   is, in size, at least 1 - ln 2 / t of the expected mean.
   */
  lemma HalfLifeIff(expected: seq<real>, realized: seq<real>, t: real)
    requires expected != [] && realized != [] && AbsR(Mean(expected)) > NOISE_FLOOR && 1.0 < t <= 500.0
    ensures HalfLife(expected, realized) >= t
            <==> 2.0 * |expected| as real >= t
                 && AbsR(Mean(realized)) >= Times(1.0 - LN_2 / t, AbsR(Mean(expected)))
  {
    hide Mean;
    var a, b := Mean(realized), Mean(expected);
    var ratio := AbsR(a / b);
    ShareIff(a, b, 1.0 - LN_2 / t);
    assert ratio >= 0.0;
    var gap := MaxR(1.0 - Clamp(ratio, 0.0, 0.999), 0.001);
    ReachIff(gap, t);
    GapIff(ratio, t);
  }

  lemma ShareIff(a: real, b: real, share: real)
    requires b != 0.0
    ensures AbsR(a / b) >= share <==> AbsR(a) >= Times(share, AbsR(b))
  {
    var q := a / b;
    assert q * b == a;
    assert AbsR(q) * AbsR(b) == AbsR(a);
    ProductOrder(AbsR(q), share, AbsR(b));
  }

  lemma ProductOrder(x: real, y: real, scale: real)
    requires scale > 0.0
    ensures x >= y <==> x * scale >= y * scale
  {
    assert (x - y) * scale == x * scale - y * scale;
  }

  lemma ReachIff(gap: real, t: real)
    requires gap > 0.0 && t > 0.0
    ensures LN_2 / gap >= t <==> gap <= LN_2 / t
  {
    var q, r := LN_2 / gap, LN_2 / t;
    assert q * gap == LN_2 == r * t;
    ProductOrder(q, t, gap);
    ProductOrder(r, gap, t);
  }

  lemma GapIff(ratio: real, t: real)
    requires 0.0 <= ratio && 1.0 < t <= 500.0
    ensures MaxR(1.0 - Clamp(ratio, 0.0, 0.999), 0.001) <= LN_2 / t <==> ratio >= 1.0 - LN_2 / t
    ensures ratio >= 1.0 - LN_2 / t ==> ratio > EPSILON
  {
    var r := LN_2 / t;
    assert r * t == LN_2;
    ProductOrder(r, 0.001, t);
    ProductOrder(LN_2, r, t);
    assert 0.001 < r < LN_2;
  }

  // ----- the competition score -----

  lemma ScoreParts(root: Root, edges: seq<real>, fills: seq<real>, slippages: seq<real>, outbids: seq<real>)
    ensures CompetitionScore(root, edges, fills, slippages, outbids)
            == 0.25 * Clamp(MaxR(Mean(edges), 0.0) / 4.0, 0.0, 1.0) + 0.30 * Clamp(1.0 - Mean(fills), 0.0, 1.0)
               + 0.25 * Clamp(Mean(outbids), 0.0, 1.0)
               + 0.20 * Clamp(Mean(slippages) / (if StableSignal(root, edges) then 12.0 else 20.0), 0.0, 1.0)
  {
    hide Mean, StableSignal;
  }

  /** What makes a market contested: a large edge, few fills, many outbid samples and much slippage. */
  ghost predicate NoLessContested(
    edges: seq<real>, fills: seq<real>, slippages: seq<real>, outbids: seq<real>,
    edges': seq<real>, fills': seq<real>, slippages': seq<real>, outbids': seq<real>)
  {
    && Mean(edges) <= Mean(edges') && Mean(fills') <= Mean(fills) && Mean(slippages) <= Mean(slippages')
    && Mean(outbids) <= Mean(outbids')
  }

  /** The score rises with each of the four, and counts slippage for more when the edge is a stable signal. */
  lemma ScoreRises(
    root: Root, edges: seq<real>, fills: seq<real>, slippages: seq<real>, outbids: seq<real>,
    edges': seq<real>, fills': seq<real>, slippages': seq<real>, outbids': seq<real>)
    requires NoLessContested(edges, fills, slippages, outbids, edges', fills', slippages', outbids')
    requires StableSignal(root, edges) ==> StableSignal(root, edges')
    ensures CompetitionScore(root, edges, fills, slippages, outbids)
            <= CompetitionScore(root, edges', fills', slippages', outbids')
  {
    hide Mean, StableSignal, CompetitionScore;
    ScoreParts(root, edges, fills, slippages, outbids);
    ScoreParts(root, edges', fills', slippages', outbids');
  }

  /** Where the score ends, and what each of the four adds to it at most. */
  lemma ScoreShares(root: Root, edges: seq<real>, fills: seq<real>, slippages: seq<real>, outbids: seq<real>,
                    other: seq<real>)
    ensures var score := CompetitionScore(root, edges, fills, slippages, outbids);
            && 0.0 <= score <= 1.0
            && (score == 0.0
                <==> Mean(edges) <= 0.0 && Mean(fills) >= 1.0 && Mean(outbids) <= 0.0 && Mean(slippages) <= 0.0)
            && (score == 1.0
                <==> Mean(edges) >= 4.0 && Mean(fills) <= 0.0 && Mean(outbids) >= 1.0
                     && Mean(slippages) >= if StableSignal(root, edges) then 12.0 else 20.0)
            && (Mean(fills) <= 0.0 && Mean(other) >= 1.0 ==>
                  score - CompetitionScore(root, edges, other, slippages, outbids) == 0.30)
            && (Mean(slippages) >= 20.0 && Mean(other) <= 0.0 ==>
                  score - CompetitionScore(root, edges, fills, other, outbids) == 0.20)
            && (Mean(outbids) >= 1.0 && Mean(other) <= 0.0 ==>
                  score - CompetitionScore(root, edges, fills, slippages, other) == 0.25)
  {
    hide Mean, StableSignal, CompetitionScore;
    ScoreParts(root, edges, fills, slippages, outbids);
    ScoreParts(root, edges, other, slippages, outbids);
    ScoreParts(root, edges, fills, other, outbids);
    ScoreParts(root, edges, fills, slippages, other);
  }

  // ----- the reliability -----

  datatype Figures = Figures(errorMean: real, errorVariance: real, errorSkew: real, sharpe: real, capture: real,
                             competition: real, failureEma: real)
  {
    function Score(): real {
      Reliability(errorMean, errorVariance, errorSkew, sharpe, capture, competition, failureEma)
    }

    function Raw(): real {
      RawReliability(errorMean, errorVariance, errorSkew, sharpe, capture, competition)
    }

    /** The other figures are no better in any respect. */
    predicate NoWorseThan(o: Figures) {
      && AbsR(errorMean) <= AbsR(o.errorMean) && errorVariance <= o.errorVariance
      && AbsR(errorSkew) <= AbsR(o.errorSkew)
      && o.sharpe <= sharpe && o.capture <= capture && competition <= o.competition && failureEma <= o.failureEma
    }
  }

  lemma RawFalls(f: Figures, worse: Figures)
    requires f.NoWorseThan(worse)
    ensures worse.Raw() <= f.Raw()
  {
  }

  lemma RawBest(f: Figures)
    ensures f.Raw() <= 0.95
    ensures f.Raw() == 0.95 <==> f.errorMean == 0.0 && f.errorVariance <= 0.0 && f.errorSkew == 0.0 && f.sharpe >= 2.0
                                 && f.capture >= 1.0 && f.competition <= 0.0
  {
  }

  lemma ClampedProduct(a: real, b: real, a': real, b': real)
    requires a <= a' <= 0.95 && 0.0 < b <= b' <= 1.0
    ensures Clamp(Times(a, b), 0.0, 1.0) <= Clamp(Times(a', b'), 0.0, 1.0) <= 0.95
    ensures Clamp(Times(a, b), 0.0, 1.0) == 0.95 <==> a == 0.95 && b == 1.0
    ensures 0.0 <= a && b' == 1.0 ==> Clamp(Times(a, b'), 0.0, 1.0) == a
  {
    ClampedBelow(a, b);
    ClampedBelow(a', b');
    if a' >= 0.0 {
      ProductSign(a' - a, b);
      ProductSign(a', b' - b);
      assert a * b <= a' * b <= a' * b';
    } else {
      ProductSign(-a', b');
      ProductSign(-a, b);
      assert (-a') * b' == -(a' * b');
      assert (-a) * b == -(a * b);
    }
  }

  lemma ClampedBelow(a: real, b: real)
    requires a <= 0.95 && 0.0 < b <= 1.0
    ensures Times(a, b) <= 0.95 && (Times(a, b) == 0.95 <==> a == 0.95 && b == 1.0)
  {
    if a <= 0.0 {
      ProductSign(-a, b);
      assert (-a) * b == -(a * b);
    } else {
      ProductSign(a, 1.0 - b);
      assert a * (1.0 - b) == a - a * b;
    }
  }

  /**
   The reliability never rises when a figure worsens.  It is never above 0.95, and there exactly when the
   error is nothing, the Sharpe-like ratio at least 2, the capture at least 1, and neither competition nor failures
   count.
   */
  lemma ReliabilityFalls(f: Figures, worse: Figures)
    requires f.NoWorseThan(worse)
    ensures 0.0 <= worse.Score() <= f.Score() <= 0.95
    ensures f.Score() == 0.95
            <==> f.errorMean == 0.0 && f.errorVariance <= 0.0 && f.errorSkew == 0.0 && f.sharpe >= 2.0
                 && f.capture >= 1.0 && f.competition <= 0.0 && f.failureEma <= 0.0
  {
    hide RawReliability, Times;
    RawFalls(f, worse);
    RawBest(f);
    var b, b' := 1.0 - Clamp(worse.failureEma, 0.0, 0.95) * 0.35, 1.0 - Clamp(f.failureEma, 0.0, 0.95) * 0.35;
    ClampedProduct(worse.Raw(), b, f.Raw(), b');
    ClampedProduct(f.Raw(), b', f.Raw(), b');
  }

  /** What the worst of each figure costs, with neither competition nor failures counted. */
  lemma ReliabilityShares(f: Figures, worse: Figures)
    requires f.competition <= 0.0 && f.failureEma <= 0.0 && worse.failureEma <= 0.0
    ensures f.errorMean == 0.0 && worse == f.(errorMean := 10.0) ==> f.Score() - worse.Score() == 0.40
    ensures f.errorVariance == 0.0 && worse == f.(errorVariance := 25.0) ==> f.Score() - worse.Score() == 0.18
    ensures f.errorSkew == 0.0 && worse == f.(errorSkew := 4.0) ==> f.Score() - worse.Score() == 0.07
    ensures f.sharpe == 2.0 && worse == f.(sharpe := -1.0) ==> f.Score() - worse.Score() == 0.20
    ensures f.capture == 1.0 && worse == f.(capture := -0.5) ==> f.Score() - worse.Score() == 0.10
    ensures worse == f.(competition := 1.0) && f.Score() >= 0.15 ==> f.Score() - worse.Score() == 0.15
  {
    hide Times, RawReliability;
    NoFailures(f);
    NoFailures(worse);
    if worse.competition <= 0.0 {
      RawNonNegative(worse);
    }
    RawNonNegative(f);
    ErrorShares(f, worse);
    OtherShares(f, worse);
    hide Reliability;
  }

  lemma NoFailures(f: Figures)
    requires f.failureEma <= 0.0
    ensures f.Score() == MaxR(f.Raw(), 0.0)
  {
    hide RawReliability;
    RawBest(f);
  }

  lemma RawNonNegative(f: Figures)
    requires f.competition <= 0.0
    ensures f.Raw() >= 0.0
  {
  }

  lemma ErrorShares(f: Figures, worse: Figures)
    ensures f.errorMean == 0.0 && worse == f.(errorMean := 10.0) ==> f.Raw() - worse.Raw() == 0.40
    ensures f.errorVariance == 0.0 && worse == f.(errorVariance := 25.0) ==> f.Raw() - worse.Raw() == 0.18
    ensures f.errorSkew == 0.0 && worse == f.(errorSkew := 4.0) ==> f.Raw() - worse.Raw() == 0.07
  {
  }

  lemma OtherShares(f: Figures, worse: Figures)
    requires f.competition <= 0.0
    ensures f.sharpe == 2.0 && worse == f.(sharpe := -1.0) ==> f.Raw() - worse.Raw() == 0.20
    ensures f.capture == 1.0 && worse == f.(capture := -0.5) ==> f.Raw() - worse.Raw() == 0.10
    ensures worse == f.(competition := 1.0) ==> f.Raw() - worse.Raw() == 0.15
  {
  }

  /** Full failures scale a reliability to 66.75% of what it is without any. */
  lemma FailuresScale(f: Figures, failing: Figures)
    requires f.failureEma <= 0.0 && failing == f.(failureEma := failing.failureEma) && failing.failureEma >= 0.95
    ensures failing.Score() == 0.6675 * f.Score()
  {
    NoFailures(f);
    RawBest(f);
    hide RawReliability;
  }

  /** The execution alpha moves the capture by its own sign, by 0.15 at most, and the same either way. */
  lemma AlphaMeans(capture: real, alpha: real, more: real)
    requires alpha <= more
    ensures CaptureWithAlpha(capture, alpha) <= CaptureWithAlpha(capture, more)
    ensures CaptureWithAlpha(capture, alpha) - capture == capture - CaptureWithAlpha(capture, -alpha)
    ensures AbsR(CaptureWithAlpha(capture, alpha) - capture) <= 0.15
    ensures CaptureWithAlpha(capture, alpha) - capture == 0.15 <==> alpha >= 1.0
    ensures CaptureWithAlpha(capture, alpha) > capture <==> alpha > 0.0
  {
  }

  /** Execution quality rises with the fills and falls with slippage and competition; its ends and its shares. */
  lemma QualityMoves(fills: real, slippage: real, competition: real, fills': real, slippage': real, competition': real)
    requires fills <= fills' && AbsR(slippage') <= AbsR(slippage) && competition' <= competition
    ensures 0.0 <= ExecutionQuality(fills, slippage, competition) <= ExecutionQuality(fills', slippage', competition')
            <= 1.0
    ensures ExecutionQuality(fills, slippage, competition) == 1.0
            <==> fills >= 1.0 && slippage == 0.0 && competition <= 0.0
    ensures ExecutionQuality(fills, slippage, competition) == 0.0
            <==> fills <= 0.0 && AbsR(slippage) >= 15.0 && competition >= 1.0
    ensures ExecutionQuality(1.0, slippage, competition) - ExecutionQuality(0.0, slippage, competition) == 0.50
    ensures ExecutionQuality(fills, slippage, 0.0) - ExecutionQuality(fills, slippage, 1.0) == 0.20
  {
    hide ExecutionQuality;
    QualityParts(fills, slippage, competition);
    QualityParts(fills', slippage', competition');
    QualityParts(1.0, slippage, competition);
    QualityParts(0.0, slippage, competition);
    QualityParts(fills, slippage, 0.0);
    QualityParts(fills, slippage, 1.0);
  }

  lemma QualityParts(f: real, s: real, c: real)
    ensures ExecutionQuality(f, s, c)
            == 0.50 * Clamp(f, 0.0, 1.0) + 0.30 * (1.0 - Clamp(AbsR(s) / 15.0, 0.0, 1.0))
                 + 0.20 * (1.0 - Clamp(c, 0.0, 1.0))
  {
  }

  // ----- what the report concludes -----

  /** A report's conclusions in terms of its own figures. */
  lemma ReportReads(
    root: Root, h: seq<Sample>, capacity: nat, failureEma: real, memory: Memory, drawdown: real, s: Snapshot)
    requires IsReport(root, h, capacity, failureEma, memory, drawdown, s)
    ensures s.edgeRegime == Stable
            <==> s.reliability >= 0.60 && s.halfLife >= 16.0 && s.ksStatistic <= 0.45 && s.captureMean >= 0.0
    ensures s.edgeRegime == Unstable <==> s.reliability < 0.35 || s.ksStatistic > 0.70 || s.captureMean < 0.0
    ensures s.competitionState == Normal
            <==> s.competitionScore < 0.45 && Mean(Window(FillRate, h, capacity)) >= 0.60 && s.negativeCaptureStreak < 8
    ensures s.competitionState == Saturated
            <==> s.competitionScore >= 0.75 || Mean(Window(FillRate, h, capacity)) < 0.35
                 || s.negativeCaptureStreak >= 8
    ensures s.sampleCount < MIN_SAMPLES ==> s.edgeState == Uncertain
    ensures s.errorMean
            == Mean(Window(ExpectedEdge, h, capacity)) - Mean(Window(RealizedMarkout, h, capacity))
    ensures s.low + s.high == 2.0 * Mean(Window(RealizedPnl, h, capacity))
  {
    hide KsOf, Window, Streak, ScoreOf, ReliabilityOf, SizeMultiplier, HalfLife, TStatistic, Margin, Mean, Variance,
         Skew, SharpeLike;
    ErrorMeanIsShortfall(h, capacity);
  }

  /** With a mean above its margin, or below zero, t follows the mean's sign and clears 1.30. */
  lemma TFollows(root: Root, xs: seq<real>)
    requires |xs| >= 2 && root(Variance(xs)) >= 0.0
    ensures Margin(root, xs) >= 0.0
    ensures TStatistic(root, xs) < 0.0 <==> Mean(xs) < 0.0
    ensures Mean(xs) - Margin(root, xs) > 0.0 ==> TStatistic(root, xs) > 1.30
  {
    hide Variance, Mean;
    MarginNotNegative(root(Variance(xs)), root(|xs| as real));
    if Variance(xs) > EPSILON {
      IntervalIffT(root, xs);
    }
  }

  lemma MarginNotNegative(deviation: real, size: real)
    requires deviation >= 0.0 && size > 0.0
    ensures 1.96 * deviation / size >= 0.0
  {
    QuotientNotNegative(1.96 * deviation, size);
  }

  lemma QuotientNotNegative(n: real, d: real)
    requires n >= 0.0 && d > 0.0
    ensures n / d >= 0.0
  {
    assert n / d * d == n;
  }

  /**
   With enough samples the edge is valid only with its whole confidence interval above zero, and the bar of 1.30 on t
   never decides; where PnL varies that asks for t above 1.96.  It is invalid whenever the mean realized PnL is
   negative, so a losing window always stops trading.  The root of the variance is only taken not to be negative.
   */
  lemma ValidIff(
    root: Root, h: seq<Sample>, capacity: nat, failureEma: real, memory: Memory, drawdown: real, s: Snapshot)
    requires IsReport(root, h, capacity, failureEma, memory, drawdown, s)
    requires s.sampleCount >= MIN_SAMPLES && root(Variance(Window(RealizedPnl, h, capacity))) >= 0.0
    ensures s.edgeState == Valid
            <==> s.low > 0.0 && s.negativeCaptureStreak < 6 && s.captureMean > 0.15 && s.reliability > 0.55
                 && (s.ksStatistic < 0.45
                     || (s.captureMean > 0.75 && AbsR(s.errorMean) < 0.25 && s.reliability > 0.75))
    ensures Variance(Window(RealizedPnl, h, capacity)) > EPSILON ==> (s.low > 0.0 <==> s.tStatistic > 1.96)
    ensures s.edgeState == Invalid
            <==> s.negativeCaptureStreak >= 6 || s.captureMean < -0.10 || Mean(Window(RealizedPnl, h, capacity)) < 0.0
                 || (s.ksStatistic > 0.72 && s.captureMean < 0.05 && s.reliability < 0.50 && AbsR(s.errorMean) > 0.25)
                 || s.reliability < 0.28
    ensures Mean(Window(RealizedPnl, h, capacity)) < 0.0 ==> !s.tradingEnabled && s.sizeMultiplier == 0.0
  {
    hide KsOf, Window, Streak, ScoreOf, ReliabilityOf, SizeMultiplier, HalfLife, TStatistic, Margin, Mean, Variance,
         Skew, SharpeLike, ClassifyRegime, ClassifyCompetition;
    var pnls := Window(RealizedPnl, h, capacity);
    TFollows(root, pnls);
    if Variance(pnls) > EPSILON {
      IntervalIffT(root, pnls);
    }
    SizeZeroIff(root, h, capacity, failureEma, memory, drawdown, s);
  }

  // ----- the size -----

  predicate NoWorseState(a: EdgeState, b: EdgeState) {
    a == b || a == Valid || b == Invalid
  }

  predicate NoWorseRegime(a: EdgeRegime, b: EdgeRegime) {
    a == b || a == Stable || b == Unstable
  }

  predicate NoWorseCompetition(a: CompetitionState, b: CompetitionState) {
    a == b || a == Normal || b == Saturated
  }

  /** The size never rises when the reliability, a conclusion or the drawdown worsens. */
  lemma SizeFalls(
    reliability: real, state: EdgeState, regime: EdgeRegime, competition: CompetitionState, drawdown: real,
    reliability': real, state': EdgeState, regime': EdgeRegime, competition': CompetitionState, drawdown': real,
    memory: Memory)
    requires 0.0 <= reliability' <= reliability <= 1.0 && drawdown <= drawdown'
    requires NoWorseState(state, state') && NoWorseRegime(regime, regime')
    requires NoWorseCompetition(competition, competition')
    ensures SizeMultiplier(reliability', state', regime', competition', drawdown', memory)
            <= SizeMultiplier(reliability, state, regime, competition, drawdown, memory)
  {
    hide DynamicSize, CompetitionFactor, MemoryFactor, Times;
    DynamicFalls(reliability, state, regime, drawdown, reliability', state', regime', drawdown');
    CompetitionFalls(competition, competition');
    MemoryFactorRange(memory);
    DynamicFacts(reliability', state', regime', drawdown');
    CompetitionFactorFacts(competition');
    var d, d' := DynamicSize(reliability, state, regime, drawdown),
        DynamicSize(reliability', state', regime', drawdown');
    var c, c' := CompetitionFactor(competition), CompetitionFactor(competition');
    TimesOrder(d', c', d, c);
    TimesOrder(Times(d', c'), MemoryFactor(memory), Times(d, c), MemoryFactor(memory));
  }

  lemma TimesOrder(a: real, b: real, a': real, b': real)
    requires 0.0 <= a <= a' && 0.0 <= b <= b'
    ensures 0.0 <= Times(a, b) <= Times(a', b')
  {
    ProductSign(a, b);
    ProductSign(a' - a, b);
    ProductSign(a', b' - b);
    assert a * b <= a' * b <= a' * b';
  }

  lemma CompetitionFalls(competition: CompetitionState, competition': CompetitionState)
    requires NoWorseCompetition(competition, competition')
    ensures CompetitionFactor(competition') <= CompetitionFactor(competition)
  {
  }

  lemma FactorsFall(state: EdgeState, regime: EdgeRegime, state': EdgeState, regime': EdgeRegime)
    requires NoWorseState(state, state') && NoWorseRegime(regime, regime')
    ensures StateFactor(state') <= StateFactor(state) && RegimeFactor(regime') <= RegimeFactor(regime)
  {
  }

  lemma DynamicFalls(reliability: real, state: EdgeState, regime: EdgeRegime, drawdown: real, reliability': real,
                     state': EdgeState, regime': EdgeRegime, drawdown': real)
    requires 0.0 <= reliability' <= reliability <= 1.0 && drawdown <= drawdown'
    requires NoWorseState(state, state') && NoWorseRegime(regime, regime')
    ensures DynamicSize(reliability', state', regime', drawdown') <= DynamicSize(reliability, state, regime, drawdown)
  {
    hide StateFactor, RegimeFactor, Times;
    FactorsFall(state, regime, state', regime');
    FactorFacts(state', regime');
    var g, g' := Times(reliability, StateFactor(state)), Times(reliability', StateFactor(state'));
    TimesOrder(reliability', StateFactor(state'), reliability, StateFactor(state));
    TimesOrder(g', RegimeFactor(regime'), g, RegimeFactor(regime));
    TimesOrder(Times(g', RegimeFactor(regime')), Clamp(1.0 - drawdown' * 1.35, 0.0, 1.0),
               Times(g, RegimeFactor(regime)), Clamp(1.0 - drawdown * 1.35, 0.0, 1.0));
  }

  /**
   A doubtful edge trades 65% of a valid one, a decaying one 75% and an unstable one 40% of a stable one, a competitive
   market 65% of an ordinary one: no cap ever cuts into the product.
   */
  lemma SizeShares(reliability: real, state: EdgeState, regime: EdgeRegime, competition: CompetitionState,
                   drawdown: real, memory: Memory)
    requires 0.0 <= reliability <= 1.0
    ensures SizeMultiplier(reliability, Uncertain, regime, competition, drawdown, memory)
            == Times(0.65, SizeMultiplier(reliability, Valid, regime, competition, drawdown, memory))
    ensures SizeMultiplier(reliability, state, Decaying, competition, drawdown, memory)
            == Times(0.75, SizeMultiplier(reliability, state, Stable, competition, drawdown, memory))
    ensures SizeMultiplier(reliability, state, Unstable, competition, drawdown, memory)
            == Times(0.40, SizeMultiplier(reliability, state, Stable, competition, drawdown, memory))
    ensures SizeMultiplier(reliability, state, regime, Competitive, drawdown, memory)
            == Times(0.65, SizeMultiplier(reliability, state, regime, Normal, drawdown, memory))
  {
    var cut := Clamp(1.0 - drawdown * 1.35, 0.0, 1.0);
    SizeIsProduct(reliability, state, regime, competition, drawdown, memory);
    hide SizeMultiplier, Times, Clamp, MemoryFactor;
    forall st, re, co
      ensures SizeMultiplier(reliability, st, re, co, drawdown, memory)
              == Times(Times(Times(StateFactor(st), RegimeFactor(re)), CompetitionFactor(co)),
                       Times(Times(reliability, cut), MemoryFactor(memory)))
    {
      SizeIsProduct(reliability, st, re, co, drawdown, memory);
    }
    var rest := Times(Times(reliability, cut), MemoryFactor(memory));
    FactorShares(StateFactor(state), RegimeFactor(regime), CompetitionFactor(competition), rest);
  }

  lemma FactorShares(a: real, b: real, c: real, rest: real)
    ensures Times(Times(Times(0.65, b), c), rest) == Times(0.65, Times(Times(Times(1.0, b), c), rest))
    ensures Times(Times(Times(a, 0.75), c), rest) == Times(0.75, Times(Times(Times(a, 1.0), c), rest))
    ensures Times(Times(Times(a, 0.40), c), rest) == Times(0.40, Times(Times(Times(a, 1.0), c), rest))
    ensures Times(Times(Times(a, b), 0.65), rest) == Times(0.65, Times(Times(Times(a, b), 1.0), rest))
  {
  }

  lemma SizeIsProduct(reliability: real, state: EdgeState, regime: EdgeRegime, competition: CompetitionState,
                      drawdown: real, memory: Memory)
    requires 0.0 <= reliability <= 1.0
    ensures SizeMultiplier(reliability, state, regime, competition, drawdown, memory)
            == Times(Times(Times(StateFactor(state), RegimeFactor(regime)), CompetitionFactor(competition)),
                     Times(Times(reliability, Clamp(1.0 - drawdown * 1.35, 0.0, 1.0)), MemoryFactor(memory)))
  {
    hide StateFactor, RegimeFactor, CompetitionFactor, MemoryFactor, Times;
    var a, b, c, m := StateFactor(state), RegimeFactor(regime), CompetitionFactor(competition), MemoryFactor(memory);
    var cut := Clamp(1.0 - drawdown * 1.35, 0.0, 1.0);
    FactorFacts(state, regime);
    CompetitionFactorFacts(competition);
    MemoryFactorRange(memory);
    UnitProduct(reliability, a);
    UnitProduct(Times(reliability, a), b);
    UnitProduct(Times(Times(reliability, a), b), cut);
    UnitProduct(Times(Times(Times(reliability, a), b), cut), c);
    ScaledProduct(Times(Times(Times(Times(reliability, a), b), cut), c), m);
    Rearrange(reliability, a, b, cut, c, m);
  }

  lemma Rearrange(r: real, a: real, b: real, cut: real, c: real, m: real)
    ensures Times(Times(Times(Times(Times(r, a), b), cut), c), m)
            == Times(Times(Times(a, b), c), Times(Times(r, cut), m))
  {
    var ab := a * b;
    assert r * a * b == r * ab;
    assert r * ab * cut == ab * (r * cut);
    assert ab * (r * cut) * c == ab * c * (r * cut);
    assert ab * c * (r * cut) * m == ab * c * (r * cut * m);
  }

  /**
   A memory of fewer than eight samples counts for a flat 0.85; from eight on a better memory never lowers the
   size.
   */
  lemma MemoryMeans(m: Memory, better: Memory)
    requires m.reliability <= better.reliability && m.quality <= better.quality && m.capture <= better.capture
    ensures m.count < 8 ==> MemoryFactor(m) == 0.85
    ensures 8 <= m.count && 8 <= better.count ==> MemoryFactor(m) <= MemoryFactor(better)
    ensures 8 <= m.count && m.reliability == m.quality == 0.0 && m.capture <= 0.0 ==> MemoryFactor(m) == 0.65
    ensures 8 <= m.count && m.reliability == m.quality == m.capture == 1.0 ==> MemoryFactor(m) == 1.0
  {
  }

  // ----- what one event remembers -----

  /** The figure moves by this share of the way to the new value. */
  predicate MovesTo(before: real, after: real, value: real, share: real) {
    after - before == Times(share, value - before)
  }

  /**
   A bucket's first sample becomes its memory; every later one moves each figure 8% of the way to the sample's own.
   The other buckets, and the failure average, keep theirs.
   */
  lemma ObservedRemembers(root: Root, capacity: nat, e: Engine, s: Sample, other: Bucket)
    ensures var b, next := BucketOf(s.regime), Step(root, capacity, e, Observed(s));
            && b in next.memories && next.failureEma == e.failureEma && next.history == e.history + [s]
            && (other != b ==> Recall(next.memories, other) == Recall(e.memories, other))
            && var m, m' := Recall(e.memories, b), next.memories[b];
            var reliability := ReliabilityOf(root, e.history + [s], capacity, e.failureEma);
            var quality := ExecutionQuality(s.fillRatio, s.actualSlippageBps, ScoreOf(root, next.history, capacity));
            && (m.count == 0 ==> m'.reliability == reliability && m'.pnl == Value(RealizedPnl, s)
                                 && m'.quality == quality && m'.capture == Value(CaptureRatio, s) && m'.count == 1)
            && (m.count > 0 ==> MovesTo(m.reliability, m'.reliability, reliability, 0.08)
                                && MovesTo(m.quality, m'.quality, quality, 0.08)
                                && MovesTo(m.pnl, m'.pnl, Value(RealizedPnl, s), 0.08)
                                && MovesTo(m.capture, m'.capture, Value(CaptureRatio, s), 0.08))
  {
    hide ReliabilityOf, ScoreOf, ExecutionQuality, BucketOf, FilterNoise;
  }

  /** A failure moves the failure average 18% of the way to its severity and touches nothing else. */
  lemma FailureMoves(root: Root, capacity: nat, e: Engine, reason: FailureReason)
    ensures var next := Step(root, capacity, e, Failed(reason));
            && next.history == e.history && next.memories == e.memories
            && MovesTo(e.failureEma, next.failureEma, Severity(reason), 0.18)
  {
  }

  /**
   A spike of competition weighs most, then no fill at all, pulled liquidity, latency, being outbid and a deep
   queue.
   */
  lemma SeverityOrder()
    ensures 0.0 < Severity(QueueTooDeep) < Severity(Outbid) < Severity(LatencyTooHigh) < Severity(LiquidityPull)
            < Severity(NoFillTimeout) < Severity(CompetitionSpike) < 1.0
  {
  }

  /** The buckets, first match first. */
  lemma BucketIff(r: MarketRegime)
    ensures BucketOf(r) == WideSpread <==> r.spread > 10.0
    ensures BucketOf(r) == HighVol <==> r.spread <= 10.0 && r.volatility > 2.5
    ensures BucketOf(r) == Trending <==> r.spread <= 10.0 && r.volatility <= 2.5 && r.trendStrength > 1.5
  {
  }
}

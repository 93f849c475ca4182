/** The one-pass error moments of the edge reliability model, against their batch definitions. */
module OnlineMoments {
  import opened Numeric

  function Sum(xs: seq<real>): real {
    if xs == [] then 0.0 else Sum(xs[..|xs|-1]) + xs[|xs|-1]
  }

  /** Sum of first, second and third powers of the deviations from c. */
  function Dev1(xs: seq<real>, c: real): real {
    if xs == [] then 0.0 else Dev1(xs[..|xs|-1], c) + (xs[|xs|-1] - c)
  }

  function Dev2(xs: seq<real>, c: real): real {
    if xs == [] then 0.0
    else Dev2(xs[..|xs|-1], c) + (xs[|xs|-1] - c) * (xs[|xs|-1] - c)
  }

  function Dev3(xs: seq<real>, c: real): real {
    if xs == [] then 0.0
    else Dev3(xs[..|xs|-1], c) + (xs[|xs|-1] - c) * (xs[|xs|-1] - c) * (xs[|xs|-1] - c)
  }

  function Mean(xs: seq<real>): real {
    if xs == [] then 0.0 else Sum(xs) / |xs| as real
  }

  // ----- moving the centre -----

  lemma {:induction false} DevFromMean(xs: seq<real>, c: real)
    ensures Dev1(xs, c) == Sum(xs) - |xs| as real * c
  {
    if xs != [] {
      DevFromMean(xs[..|xs|-1], c);
    }
  }

  lemma MeanCentres(xs: seq<real>)
    ensures Dev1(xs, Mean(xs)) == 0.0
  {
    DevFromMean(xs, Mean(xs));
  }

  /** What Dev2 becomes when the centre moves by d, given the old Dev2, Dev1 and the sample count. */
  function Moved2(dev2: real, dev1: real, n: real, d: real): real {
    dev2 - 2.0 * d * dev1 + n * (d * d)
  }

  function Moved3(dev3: real, dev2: real, dev1: real, n: real, d: real): real {
    dev3 - 3.0 * d * dev2 + 3.0 * (d * d) * dev1 - n * (d * d * d)
  }

  lemma Moved2Step(dev2: real, dev1: real, n: real, d: real, y: real)
    ensures Moved2(dev2 + y * y, dev1 + y, n + 1.0, d) == Moved2(dev2, dev1, n, d) + (y - d) * (y - d)
  {
    assert 2.0 * d * (dev1 + y) == 2.0 * d * dev1 + 2.0 * d * y;
  }

  lemma Cube(y: real, d: real)
    ensures (y - d) * (y - d) * (y - d) == y * y * y - 3.0 * d * (y * y) + 3.0 * (d * d) * y - d * d * d
  {
    var s := y * y - 2.0 * d * y + d * d;
    assert (y - d) * (y - d) == s;
    assert s * (y - d) == s * y - s * d;
    assert s * y == y * y * y - 2.0 * d * (y * y) + (d * d) * y;
    assert s * d == d * (y * y) - 2.0 * (d * d) * y + d * d * d;
  }

  lemma Moved3Step(dev3: real, dev2: real, dev1: real, n: real, d: real, y: real)
    ensures Moved3(dev3 + y * y * y, dev2 + y * y, dev1 + y, n + 1.0, d)
            == Moved3(dev3, dev2, dev1, n, d) + (y - d) * (y - d) * (y - d)
  {
    Cube(y, d);
    assert 3.0 * d * (dev2 + y * y) == 3.0 * d * dev2 + 3.0 * d * (y * y);
    assert 3.0 * (d * d) * (dev1 + y) == 3.0 * (d * d) * dev1 + 3.0 * (d * d) * y;
    assert (n + 1.0) * (d * d * d) == n * (d * d * d) + d * d * d;
  }

  lemma DevStep(xs: seq<real>, c: real, y: real)
    requires xs != [] && y == xs[|xs|-1] - c
    ensures var rest := xs[..|xs|-1];
            && Dev1(xs, c) == Dev1(rest, c) + y
            && Dev2(xs, c) == Dev2(rest, c) + y * y
            && Dev3(xs, c) == Dev3(rest, c) + y * y * y
  {
  }

  lemma {:induction false} Shift(xs: seq<real>, c: real, d: real)
    ensures Dev2(xs, c + d) == Moved2(Dev2(xs, c), Dev1(xs, c), |xs| as real, d)
    ensures Dev3(xs, c + d) == Moved3(Dev3(xs, c), Dev2(xs, c), Dev1(xs, c), |xs| as real, d)
    decreases |xs|, 1
  {
    if xs == [] {
      MovedEmpty(d);
    } else {
      ShiftMore(xs, c, d);
    }
  }

  lemma ShiftMore(xs: seq<real>, c: real, d: real)
    requires xs != []
    ensures Dev2(xs, c + d) == Moved2(Dev2(xs, c), Dev1(xs, c), |xs| as real, d)
    ensures Dev3(xs, c + d) == Moved3(Dev3(xs, c), Dev2(xs, c), Dev1(xs, c), |xs| as real, d)
    decreases |xs|, 0
  {
    hide Moved2, Moved3, Dev1, Dev2, Dev3;
    var rest, y := xs[..|xs|-1], xs[|xs|-1] - c;
    Shift(rest, c, d);
    Moved2Step(Dev2(rest, c), Dev1(rest, c), |rest| as real, d, y);
    Moved3Step(Dev3(rest, c), Dev2(rest, c), Dev1(rest, c), |rest| as real, d, y);
    DevStep(xs, c, y);
    DevStep(xs, c + d, y - d);
    assert |xs| as real == |rest| as real + 1.0;
  }

  lemma MovedEmpty(d: real)
    ensures Moved2(0.0, 0.0, 0.0, d) == 0.0 == Moved3(0.0, 0.0, 0.0, 0.0, d)
  {
  }

  // ----- the model's state -----

  datatype Moments = Moments(count: nat, mean: real, m2: real, m3: real)

  /** The state after a stream of errors holds that stream's batch moments. */
  ghost predicate Holds(m: Moments, xs: seq<real>) {
    m.count == |xs| && m.mean == Mean(xs) && m.m2 == Dev2(xs, m.mean) && m.m3 == Dev3(xs, m.mean)
  }

  function Update(m: Moments, value: real): Moments {
    var previous := m.count as real;
    var count := if m.count == U64_MAX then U64_MAX else m.count + 1;
    var n := count as real;
    var delta := value - m.mean;
    var deltaN := delta / n;
    var term1 := delta * deltaN * previous;
    Moments(count, m.mean + deltaN, m.m2 + term1, m.m3 + (term1 * deltaN * (n - 2.0) - 3.0 * deltaN * m.m2))
  }

  lemma MeanStep(xs: seq<real>, x: real)
    ensures Mean(xs + [x]) == Mean(xs) + (x - Mean(xs)) / (|xs| + 1) as real
  {
    var n := |xs| as real;
    assert (xs + [x])[..|xs|] == xs;
    assert Sum(xs) == n * Mean(xs);
    assert (n + 1.0) * (Mean(xs) + (x - Mean(xs)) / (n + 1.0)) == (n + 1.0) * Mean(xs) + (x - Mean(xs));
  }

  /** The algebra of the update: with p samples of first deviation 0 about c, adding one at distance delta. */
  lemma UpdateAlgebra(p: real, n: real, delta: real, d: real, m2: real)
    requires n == p + 1.0 && n * d == delta
    ensures p * (d * d) + (delta - d) * (delta - d) == delta * d * p
    ensures (delta - d) * (delta - d) * (delta - d) - p * (d * d * d) == delta * d * p * d * (n - 2.0)
  {
    assert delta - d == p * d;
    assert (p * d) * (p * d) == p * p * (d * d);
    assert p * (d * d) + p * p * (d * d) == p * n * (d * d);
    assert (p * d) * (p * d) * (p * d) == p * p * p * (d * d * d);
  }

  /** One update carries the batch moments of xs to those of xs + [x]. */
  lemma UpdateHolds(m: Moments, xs: seq<real>, x: real)
    requires Holds(m, xs) && |xs| < U64_MAX
    ensures Holds(Update(m, x), xs + [x])
  {
    hide Mean, Moved2, Moved3, Dev1, Dev2, Dev3;
    var p, n := |xs| as real, (|xs| + 1) as real;
    var delta := x - m.mean;
    var d := delta / n;
    var c := m.mean + d;
    assert n * d == delta;
    MeanStep(xs, x);
    MeanCentres(xs);
    Shift(xs, m.mean, d);
    assert (xs + [x])[..|xs|] == xs;
    DevStep(xs + [x], c, delta - d);
    AtCentre(m.m2, m.m3, p, d);
    UpdateAlgebra(p, n, delta, d, m.m2);
  }

  lemma AtCentre(m2: real, m3: real, p: real, d: real)
    ensures Moved2(m2, 0.0, p, d) == m2 + p * (d * d)
    ensures Moved3(m3, m2, 0.0, p, d) == m3 - 3.0 * d * m2 - p * (d * d * d)
  {
  }

  /** The batch sample variance, 0 for fewer than two samples. */
  function SampleVariance(xs: seq<real>): real {
    if |xs| < 2 then 0.0 else Dev2(xs, Mean(xs)) / (|xs| - 1) as real
  }

  /** The skew of n samples, 0 for fewer than three or hardly any spread. */
  function SkewOf(root: Root, n: nat, m2: real, m3: real): real
    requires m2 >= 0.0
  {
    if n < 3 || AbsR(m2) <= EPSILON then 0.0
    else
      ProductSign(m2, root(m2));
      Ratio(Times(root(n as real), m3), m2 * root(m2))
  }

  function BatchSkew(root: Root, xs: seq<real>): real {
    Dev2NonNegative(xs, Mean(xs));
    SkewOf(root, |xs|, Dev2(xs, Mean(xs)), Dev3(xs, Mean(xs)))
  }

  lemma {:induction false} Dev2NonNegative(xs: seq<real>, c: real)
    ensures Dev2(xs, c) >= 0.0
  {
    if xs != [] {
      Dev2NonNegative(xs[..|xs|-1], c);
      SquareNonNegative(xs[|xs|-1] - c);
    }
  }

  lemma SquareNonNegative(v: real)
    ensures v * v >= 0.0
  {
  }

  datatype Distribution = Distribution(mean: real, variance: real, skew: real)

  function BatchDistribution(root: Root, xs: seq<real>): Distribution {
    Distribution(Mean(xs), SampleVariance(xs), BatchSkew(root, xs))
  }

  /** `reliability_score`: 1 less three capped penalties. */
  function ErrorReliability(d: Distribution): (r: real)
    ensures 0.0 <= r <= 1.0
  {
    Clamp(1.0 - (0.45 * Clamp(AbsR(d.mean) / 10.0, 0.0, 1.0) + 0.40 * Clamp(d.variance / 25.0, 0.0, 1.0)
                 + 0.15 * Clamp(AbsR(d.skew) / 4.0, 0.0, 1.0)), 0.0, 1.0)
  }

  /** The skew has the third moment's sign, and is its share of the 1.5th power of the second, times the root of n. */
  lemma SkewMeans(root: Root, n: nat, m2: real, m3: real)
    requires n >= 3 && m2 > EPSILON
    ensures Times(SkewOf(root, n, m2, m3), Times(m2, root(m2))) == Times(root(n as real), m3)
    ensures (SkewOf(root, n, m2, m3) > 0.0 <==> m3 > 0.0) && (SkewOf(root, n, m2, m3) < 0.0 <==> m3 < 0.0)
  {
    hide SkewOf, Times;
    PowerPositive(m2, root(m2));
    SkewIs(root, n, m2, m3);
    SignOfRatio(root(n as real), m3, Times(m2, root(m2)));
  }

  lemma PowerPositive(a: real, b: real)
    requires a > 0.0 && b > 0.0
    ensures Times(a, b) > 0.0
  {
    ProductSign(a, b);
  }

  lemma SkewIs(root: Root, n: nat, m2: real, m3: real)
    requires n >= 3 && m2 > EPSILON && Times(m2, root(m2)) > 0.0
    ensures SkewOf(root, n, m2, m3) == Ratio(Times(root(n as real), m3), Times(m2, root(m2)))
  {
    hide Ratio;
  }

  lemma SignOfRatio(scale: real, v: real, base: real)
    requires scale > 0.0 && base > 0.0
    ensures Times(Ratio(Times(scale, v), base), base) == Times(scale, v)
    ensures (Ratio(Times(scale, v), base) > 0.0 <==> v > 0.0) && (Ratio(Times(scale, v), base) < 0.0 <==> v < 0.0)
  {
    var top := Times(scale, v);
    assert top > 0.0 <==> v > 0.0;
    assert top < 0.0 <==> v < 0.0;
    hide Times;
    var q := Ratio(top, base);
    Undivide(top, base);
    assert q * base == top;
    TimesIs(q, base);
  }

  lemma TimesIs(a: real, b: real)
    ensures Times(a, b) == a * b
  {
  }

  /**
   A larger mean error, variance or skew never raises the reliability.  It is 1 exactly when there is no error at all
   and 0 exactly when all three penalties are full; a full penalty alone costs 0.45, 0.40 and 0.15.
   */
  lemma ErrorReliabilityFalls(d: Distribution, worse: Distribution)
    requires AbsR(d.mean) <= AbsR(worse.mean) && d.variance <= worse.variance && AbsR(d.skew) <= AbsR(worse.skew)
    ensures ErrorReliability(worse) <= ErrorReliability(d)
    ensures ErrorReliability(d) == 1.0 <==> d.mean == 0.0 && d.variance <= 0.0 && d.skew == 0.0
    ensures ErrorReliability(d) == 0.0 <==> AbsR(d.mean) >= 10.0 && d.variance >= 25.0 && AbsR(d.skew) >= 4.0
    ensures d.mean == 0.0 && AbsR(worse.mean) >= 10.0 && d.variance == worse.variance && d.skew == worse.skew ==>
              ErrorReliability(d) - ErrorReliability(worse) == 0.45
    ensures d.variance <= 0.0 && worse.variance >= 25.0 && d.mean == worse.mean && d.skew == worse.skew ==>
              ErrorReliability(d) - ErrorReliability(worse) == 0.40
  {
    PenaltiesCost(d);
    PenaltiesCost(worse);
    hide ErrorReliability;
  }

  lemma PenaltiesCost(d: Distribution)
    ensures ErrorReliability(d) == 1.0 - 0.45 * Clamp(AbsR(d.mean) / 10.0, 0.0, 1.0)
                                   - 0.40 * Clamp(d.variance / 25.0, 0.0, 1.0)
                                   - 0.15 * Clamp(AbsR(d.skew) / 4.0, 0.0, 1.0)
  {
  }

  /** No one figure stops trading: below 0.35 both the mean error and the variance are beyond these bounds. */
  lemma StoppedBeyondBoth(d: Distribution)
    ensures ErrorReliability(d) < 0.35 ==> AbsR(d.mean) > 20.0 / 9.0 && d.variance > 25.0 / 8.0
  {
    PenaltiesCost(d);
    hide ErrorReliability;
  }

  class EdgeReliabilityModel {
    const root: Root
    var count: nat
    var mean: real
    var m2: real
    var m3: real
    ghost var errors: seq<real>

    ghost predicate Valid()
      reads this
    {
      m2 >= 0.0 && (|errors| <= U64_MAX ==> Holds(Moments(count, mean, m2, m3), errors))
    }

    /** `root` stands for the square root; the power 1.5 is the value times its root. */
    constructor (root: Root)
      ensures Valid() && errors == [] && this.root == root
    {
      this.root := root;
      count, mean, m2, m3 := 0, 0.0, 0.0, 0.0;
      errors := [];
    }

    /** The program's update, in its own order: m3 is computed from the old m2. */
    method UpdateWith(value: real)
      requires Valid()
      modifies this
      ensures Valid() && errors == old(errors) + [value]
      ensures Moments(count, mean, m2, m3) == Update(old(Moments(count, mean, m2, m3)), value)
    {
      hide Holds;
      SpreadGrows(value - mean, count, if count == U64_MAX then U64_MAX else count + 1);
      ghost var before := Moments(count, mean, m2, m3);
      var previousCount := count as real;
      count := if count == U64_MAX then U64_MAX else count + 1;
      var n := count as real;
      var delta := value - mean;
      var deltaN := delta / n;
      var term1 := delta * deltaN * previousCount;
      mean := mean + deltaN;
      m3 := m3 + (term1 * deltaN * (n - 2.0) - 3.0 * deltaN * m2);
      m2 := m2 + term1;
      assert Moments(count, mean, m2, m3) == Update(before, value);
      if |errors| < U64_MAX {
        UpdateHolds(before, errors, value);
      }
      errors := errors + [value];
    }

    /** The moments as reported: exactly the batch statistics of every error observed. */
    method ReportMoments() returns (d: Distribution)
      requires Valid()
      ensures |errors| <= U64_MAX ==> d == BatchDistribution(root, errors)
    {
      hide Mean, Dev2, Dev3;
      if count < 2 {
        return Distribution(mean, 0.0, 0.0);
      }
      d := Distribution(mean, m2 / (count - 1) as real, SkewOf(root, count, m2, m3));
    }

    /** Takes in one more error and reports on all of them; trading stays enabled at a reliability of 0.35. */
    method Observe(expectedMarkout: real, realizedMarkout: real)
      returns (edgeError: real, d: Distribution, reliability: real, tradingEnabled: bool)
      requires Valid()
      modifies this
      ensures Valid() && errors == old(errors) + [expectedMarkout - realizedMarkout]
      ensures edgeError == expectedMarkout - realizedMarkout
      ensures |errors| <= U64_MAX ==> d == BatchDistribution(root, errors)
      ensures reliability == ErrorReliability(d) && (tradingEnabled <==> reliability >= 0.35)
    {
      edgeError := expectedMarkout - realizedMarkout;
      UpdateWith(edgeError);
      d := ReportMoments();
      reliability := ErrorReliability(d);
      tradingEnabled := reliability >= 0.35;
    }
  }

  lemma SpreadGrows(delta: real, previous: nat, count: nat)
    requires count > 0
    ensures delta * (delta / count as real) * previous as real >= 0.0
  {
    var d := delta / count as real;
    assert delta == d * count as real;
    SquareNonNegative(d);
    ProductSign(d * d, count as real);
    ProductSign(d * d * count as real, previous as real);
    assert delta * d == d * d * count as real;
  }

  function UpdateAll(errors: seq<real>): Moments {
    if errors == [] then Moments(0, 0.0, 0.0, 0.0)
    else Update(UpdateAll(errors[..|errors|-1]), errors[|errors|-1])
  }

  /**
   After any stream of errors the one-pass state is the batch count, mean, and sums of squared and cubed
   deviations.
   */
  lemma {:induction false} StreamHoldsBatch(errors: seq<real>)
    requires |errors| <= U64_MAX
    ensures Holds(UpdateAll(errors), errors)
  {
    if errors != [] {
      var past := errors[..|errors|-1];
      StreamHoldsBatch(past);
      UpdateHolds(UpdateAll(past), past, errors[|errors|-1]);
      assert past + [errors[|errors|-1]] == errors;
    }
  }
}

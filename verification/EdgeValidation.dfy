/**
 The edge-validation engine: rolling windows over the latest samples, a negative-capture streak,
 a per-regime memory, and the report that decides whether and how large to trade.
 */
module EdgeValidation {
  import opened Numeric
  import opened Domain
  import opened KolmogorovSmirnov
  import opened OnlineMoments

  const NOISE_FLOOR: real := 0.0001
  const MIN_SAMPLES: nat := 24
  const LN_2: real := 0.6931471805599453

  datatype EdgeState = Valid | Uncertain | Invalid
  datatype EdgeRegime = Stable | Decaying | Unstable
  datatype Bucket = WideSpread | HighVol | Trending | Ordinary
  datatype FailureReason = QueueTooDeep | Outbid | LatencyTooHigh | CompetitionSpike | LiquidityPull | NoFillTimeout

  datatype MarketRegime = MarketRegime(volatility: real, spread: real, trendStrength: real)

  datatype Sample = Sample(
    expectedMarkout: real, realizedMarkout: real, pnl: real, actualSlippageBps: real, durationMs: nat,
    executionAlpha: real, fillRatio: real, edgeComponent: real, executionLoss: real,
    feesRebatesComponent: real, adverseSelectionLoss: real, competition: CompetitionState, regime: MarketRegime)

  // ----- what one sample contributes to each window -----

  datatype Metric =
    | ExpectedEdge | RealizedMarkout | RealizedPnl | AdjustedReturn | EdgeError | CaptureRatio | ExecutionAlpha
    | FillRate | Slippage | OutbidFlag | EdgeComponent | ExecutionLoss | FeesRebates | AdverseSelection

  function FilterNoise(v: real): real {
    if AbsR(v) <= NOISE_FLOOR then 0.0 else v
  }

  function Capture(s: Sample): real {
    var expected := FilterNoise(s.expectedMarkout);
    if AbsR(expected) > NOISE_FLOOR then Clamp(FilterNoise(s.pnl) / expected, -5.0, 5.0) else 0.0
  }

  function Value(m: Metric, s: Sample): real {
    match m
    case ExpectedEdge => FilterNoise(s.expectedMarkout)
    case RealizedMarkout => FilterNoise(s.realizedMarkout)
    case RealizedPnl => FilterNoise(s.pnl)
    case AdjustedReturn => FilterNoise(s.pnl) - AbsR(s.actualSlippageBps) * 0.20 - s.durationMs as real * 0.0005
    case EdgeError => FilterNoise(s.expectedMarkout) - FilterNoise(s.realizedMarkout)
    case CaptureRatio => Capture(s)
    case ExecutionAlpha => FilterNoise(s.executionAlpha)
    case FillRate => Clamp(s.fillRatio, 0.0, 1.0)
    case Slippage => MaxR(s.actualSlippageBps, 0.0)
    case OutbidFlag => if s.competition == Normal then 0.0 else 1.0
    case EdgeComponent => s.edgeComponent
    case ExecutionLoss => MaxR(s.executionLoss, 0.0)
    case FeesRebates => s.feesRebatesComponent
    case AdverseSelection => MaxR(s.adverseSelectionLoss, 0.0)
  }

  /** The values of the last `capacity` samples of the whole history, oldest first. */
  function Window(m: Metric, history: seq<Sample>, capacity: nat): seq<real> {
    var n := if |history| < capacity then |history| else capacity;
    seq(n, i requires 0 <= i < n => Value(m, history[|history| - n + i]))
  }

  function CompetitionWindow(history: seq<Sample>, capacity: nat): seq<CompetitionState> {
    var n := if |history| < capacity then |history| else capacity;
    seq(n, i requires 0 <= i < n => history[|history| - n + i].competition)
  }

  function PushCapped<T>(queue: seq<T>, value: T, capacity: nat): seq<T>
    requires capacity > 0
  {
    (if |queue| == capacity then queue[1..] else queue) + [value]
  }

  lemma PushKeepsWindow(m: Metric, history: seq<Sample>, s: Sample, capacity: nat)
    requires capacity > 0
    ensures PushCapped(Window(m, history, capacity), Value(m, s), capacity) == Window(m, history + [s], capacity)
  {
    hide Value;
  }

  lemma PushKeepsCompetition(history: seq<Sample>, s: Sample, capacity: nat)
    requires capacity > 0
    ensures PushCapped(CompetitionWindow(history, capacity), s.competition, capacity)
            == CompetitionWindow(history + [s], capacity)
  {
  }

  // ----- the negative-capture streak -----

  function NextStreak(streak: nat, capture: real): nat {
    if capture < -0.05 then if streak == U64_MAX then U64_MAX else streak + 1 else SatSub(streak, 1)
  }

  function Streak(history: seq<Sample>): nat {
    if history == [] then 0 else NextStreak(Streak(history[..|history|-1]), Capture(history[|history|-1]))
  }

  lemma StreakStep(history: seq<Sample>, s: Sample)
    ensures Streak(history + [s]) == NextStreak(Streak(history), Capture(s))
  {
    assert (history + [s])[..|history|] == history;
  }

  /** Over the samples from index k on: how many more capture below -0.05 than do not. */
  function Excess(history: seq<Sample>, k: nat): int
    requires k <= |history|
  {
    if k == |history| then 0
    else Excess(history[..|history|-1], k) + if Capture(history[|history|-1]) < -0.05 then 1 else -1
  }

  /** The counter is the largest excess of any suffix of the whole history, the empty one included. */
  lemma {:induction false} StreakIsMaxSuffix(history: seq<Sample>)
    requires |history| <= U64_MAX
    ensures forall k :: 0 <= k <= |history| ==> Excess(history, k) <= Streak(history)
    ensures exists k :: 0 <= k <= |history| && Excess(history, k) == Streak(history)
    ensures Streak(history) <= |history|
  {
    hide Capture;
    var n := |history|;
    assert Excess(history, n) == 0;
    if n > 0 {
      var past := history[..n-1];
      StreakIsMaxSuffix(past);
      var k :| 0 <= k < n && Excess(past, k) == Streak(past);
      var step := if Capture(history[n-1]) < -0.05 then 1 else -1;
      assert forall j :: 0 <= j < n ==> Excess(history, j) == Excess(past, j) + step;
      assert Excess(history, k) == Streak(past) + step;
    }
  }

  // ----- statistics over a window -----

  datatype Summary = Summary(mean: real, variance: real, skew: real)

  function Variance(xs: seq<real>): real {
    if |xs| > 1 then Dev2(xs, Mean(xs)) / (|xs| as real - 1.0) else 0.0
  }

  function Cubed(v: real): real {
    v * v * v
  }

  function Skew(root: Root, xs: seq<real>): real {
    var variance := Variance(xs);
    if xs == [] || variance <= EPSILON then 0.0
    else CubePositive(root(variance)); Dev3(xs, Mean(xs)) / |xs| as real / Cubed(root(variance))
  }

  lemma CubePositive(v: real)
    ensures v > 0.0 ==> Cubed(v) > 0.0
  {
    if v > 0.0 {
      assert v * v > 0.0;
    }
  }

  function SharpeLike(root: Root, xs: seq<real>): real {
    if Variance(xs) <= EPSILON then 0.0 else Mean(xs) / root(Variance(xs))
  }

  function TStatistic(root: Root, xs: seq<real>): real {
    if |xs| < 2 then 0.0
    else if Variance(xs) <= EPSILON then
      if Mean(xs) > 0.0 then 10.0 else if Mean(xs) < 0.0 then -10.0 else 0.0
    else
      RatioPositive(root(Variance(xs)), root(|xs| as real));
      Mean(xs) / (root(Variance(xs)) / root(|xs| as real))
  }

  lemma RatioPositive(a: real, b: real)
    ensures a > 0.0 && b > 0.0 ==> a / b > 0.0
  {
  }

  function Margin(root: Root, xs: seq<real>): real {
    if xs == [] then 0.0 else 1.96 * root(Variance(xs)) / root(|xs| as real)
  }

  function HalfLife(expected: seq<real>, realized: seq<real>): real {
    if expected == [] || realized == [] then 0.0
    else
      var ratio := if AbsR(Mean(expected)) > NOISE_FLOOR then AbsR(Mean(realized) / Mean(expected)) else 0.0;
      if ratio <= EPSILON then 0.0
      else Clamp(LN_2 / MaxR(1.0 - Clamp(ratio, 0.0, 0.999), 0.001), 1.0, |expected| as real * 2.0)
  }

  /** Whether the coefficient of variation is below 1; it is infinite when the mean is within the noise floor. */
  function StableSignal(root: Root, xs: seq<real>): bool {
    AbsR(Mean(xs)) > NOISE_FLOOR && root(Variance(xs)) / AbsR(Mean(xs)) < 1.0
  }

  function CompetitionScore(root: Root, edges: seq<real>, fills: seq<real>, slippages: seq<real>,
                            outbids: seq<real>): real {
    Clamp(
      0.25 * Clamp(MaxR(Mean(edges), 0.0) / 4.0, 0.0, 1.0)
      + 0.30 * Clamp(1.0 - Mean(fills), 0.0, 1.0)
      + 0.25 * Clamp(Mean(outbids), 0.0, 1.0)
      + 0.20 * Clamp(Mean(slippages) / (if StableSignal(root, edges) then 12.0 else 20.0), 0.0, 1.0), 0.0, 1.0)
  }

  /** The weighted figures before failures are counted against them. */
  function RawReliability(
    errorMean: real, errorVariance: real, errorSkew: real, sharpe: real, capture: real, competition: real
  ): real {
    0.40 * (1.0 - Clamp(AbsR(errorMean) / 10.0, 0.0, 1.0))
    + 0.18 * (1.0 - Clamp(errorVariance / 25.0, 0.0, 1.0))
    + 0.07 * (1.0 - Clamp(AbsR(errorSkew) / 4.0, 0.0, 1.0))
    + 0.20 * Clamp((sharpe + 1.0) / 3.0, 0.0, 1.0)
    + 0.10 * Clamp((capture + 0.5) / 1.5, 0.0, 1.0)
    - 0.15 * Clamp(competition, 0.0, 1.0)
  }

  function Reliability(
    errorMean: real, errorVariance: real, errorSkew: real, sharpe: real, capture: real, competition: real,
    failureEma: real
  ): real {
    Clamp(Times(RawReliability(errorMean, errorVariance, errorSkew, sharpe, capture, competition),
                1.0 - Clamp(failureEma, 0.0, 0.95) * 0.35), 0.0, 1.0)
  }

  /** The capture mean with its execution-alpha bonus, capped at 0.15 either way. */
  function CaptureWithAlpha(capture: real, alpha: real): real {
    capture + (if alpha < 0.0 then -1.0 else 1.0) * MinR(AbsR(alpha), 1.0) * 0.15
  }

  function ExecutionQuality(fillRate: real, slippageBps: real, competition: real): real {
    Clamp(0.50 * Clamp(fillRate, 0.0, 1.0) + 0.30 * (1.0 - Clamp(AbsR(slippageBps) / 15.0, 0.0, 1.0))
          + 0.20 * (1.0 - Clamp(competition, 0.0, 1.0)), 0.0, 1.0)
  }

  // ----- classification -----

  function ClassifyCompetition(score: real, fillMean: real, streak: nat): CompetitionState {
    if score >= 0.75 || fillMean < 0.35 || streak >= 8 then Saturated
    else if score >= 0.45 || fillMean < 0.60 then Competitive
    else Normal
  }

  function ClassifyRegime(reliability: real, halfLife: real, ks: real, capture: real): EdgeRegime {
    if reliability < 0.35 || ks > 0.70 || capture < 0.0 then Unstable
    else if halfLife < 16.0 || reliability < 0.60 || ks > 0.45 then Decaying
    else Stable
  }

  function ClassifyState(
    count: nat, t: real, ks: real, errorMean: real, low: real, capture: real, streak: nat, reliability: real
  ): EdgeState {
    if count < MIN_SAMPLES then Uncertain
    else if streak >= 6 || capture < -0.10 || (low < 0.0 && t < 0.0)
            || (ks > 0.72 && capture < 0.05 && reliability < 0.50 && AbsR(errorMean) > 0.25)
            || reliability < 0.28 then Invalid
    else if t > 1.30 && low > 0.0 && (ks < 0.45 || (capture > 0.75 && AbsR(errorMean) < 0.25 && reliability > 0.75))
            && capture > 0.15 && reliability > 0.55 then Valid
    else Uncertain
  }

  function BucketOf(regime: MarketRegime): Bucket {
    if regime.spread > 10.0 then WideSpread
    else if regime.volatility > 2.5 then HighVol
    else if regime.trendStrength > 1.5 then Trending
    else Ordinary
  }

  // ----- regime memory and size -----

  datatype Memory = Memory(reliability: real, pnl: real, quality: real, capture: real, count: nat)

  const NO_MEMORY: Memory := Memory(0.0, 0.0, 0.0, 0.0, 0)

  function Ewma(current: real, value: real, alpha: real): real {
    current * (1.0 - alpha) + value * alpha
  }

  function Updated(m: Memory, reliability: real, pnl: real, quality: real, capture: real): Memory {
    var count := if m.count == U64_MAX then U64_MAX else m.count + 1;
    if m.count == 0 then Memory(reliability, pnl, quality, capture, count)
    else Memory(Ewma(m.reliability, reliability, 0.08), Ewma(m.pnl, pnl, 0.08), Ewma(m.quality, quality, 0.08),
                Ewma(m.capture, capture, 0.08), count)
  }

  function Recall(memories: map<Bucket, Memory>, b: Bucket): Memory {
    if b in memories then memories[b] else NO_MEMORY
  }

  function StateFactor(state: EdgeState): real {
    match state case Valid => 1.0 case Uncertain => 0.65 case Invalid => 0.0
  }

  function RegimeFactor(regime: EdgeRegime): real {
    match regime case Stable => 1.0 case Decaying => 0.75 case Unstable => 0.40
  }

  function CompetitionFactor(competition: CompetitionState): real {
    match competition case Normal => 1.0 case Competitive => 0.65 case Saturated => 0.0
  }

  function DynamicSize(reliability: real, state: EdgeState, regime: EdgeRegime, drawdown: real): real {
    var graded := Times(Times(Clamp(reliability, 0.0, 1.0), StateFactor(state)), RegimeFactor(regime));
    Clamp(Times(graded, Clamp(1.0 - drawdown * 1.35, 0.0, 1.0)), 0.0, 1.0)
  }

  function MemoryFactor(m: Memory): real {
    if m.count >= 8
    then Clamp(0.65 + m.reliability * 0.20 + m.quality * 0.10 + MaxR(m.capture, 0.0) * 0.05, 0.35, 1.10)
    else 0.85
  }

  function SizeMultiplier(
    reliability: real, state: EdgeState, regime: EdgeRegime, competition: CompetitionState, drawdown: real,
    memory: Memory
  ): real {
    var contested := Times(DynamicSize(reliability, state, regime, drawdown), CompetitionFactor(competition));
    Clamp(Times(contested, MemoryFactor(memory)), 0.0, 1.25)
  }

  // ----- the report -----

  datatype Snapshot = Snapshot(
    edgeState: EdgeState, edgeRegime: EdgeRegime, competitionState: CompetitionState, tStatistic: real,
    ksStatistic: real,
    reliability: real, sharpeLike: real, halfLife: real, errorMean: real, errorVariance: real, errorSkew: real,
    captureMean: real, captureVariance: real, negativeCaptureStreak: nat, alphaMean: real, alphaVariance: real,
    low: real, high: real, competitionScore: real, edgeComponentMean: real, executionLossMean: real,
    feesRebatesMean: real, adverseSelectionMean: real, regimeReliability: real, regimePnlMean: real,
    regimeExecutionQuality: real, sampleCount: nat, sizeMultiplier: real, tradingEnabled: bool)
  {
    /** The same report with the fields that depend on regime memory blanked. */
    function WithoutMemory(): Snapshot {
      this.(regimeReliability := 0.0, regimePnlMean := 0.0, regimeExecutionQuality := 0.0, sizeMultiplier := 0.0)
    }
  }

  function ScoreOf(root: Root, h: seq<Sample>, capacity: nat): real {
    CompetitionScore(root, Window(ExpectedEdge, h, capacity), Window(FillRate, h, capacity),
                     Window(Slippage, h, capacity), Window(OutbidFlag, h, capacity))
  }

  function ReliabilityOf(root: Root, h: seq<Sample>, capacity: nat, failureEma: real): real {
    var errors := Window(EdgeError, h, capacity);
    Reliability(
      Mean(errors), Variance(errors), Skew(root, errors), SharpeLike(root, Window(AdjustedReturn, h, capacity)),
      CaptureWithAlpha(Mean(Window(CaptureRatio, h, capacity)), Mean(Window(ExecutionAlpha, h, capacity))),
      ScoreOf(root, h, capacity), failureEma)
  }

  /** The batch definition of the report: everything recomputed from the whole sample history. */
  function Report(
    root: Root, h: seq<Sample>, capacity: nat, failureEma: real, memory: Memory, drawdown: real, ks: real
  ): Snapshot {
    var edges, markouts, pnls := Window(ExpectedEdge, h, capacity), Window(RealizedMarkout, h, capacity),
        Window(RealizedPnl, h, capacity);
    var errors, captures, alphas := Window(EdgeError, h, capacity), Window(CaptureRatio, h, capacity),
        Window(ExecutionAlpha, h, capacity);
    var score := ScoreOf(root, h, capacity);
    var reliability := ReliabilityOf(root, h, capacity, failureEma);
    var competition := ClassifyCompetition(score, Mean(Window(FillRate, h, capacity)), Streak(h));
    var t, margin := TStatistic(root, pnls), Margin(root, pnls);
    var regime := ClassifyRegime(reliability, HalfLife(edges, markouts), ks, Mean(captures));
    var state := ClassifyState(|pnls|, t, ks, Mean(errors), Mean(pnls) - margin, Mean(captures), Streak(h),
                               reliability);
    Snapshot(
      state, regime, competition, t, ks, reliability, SharpeLike(root, Window(AdjustedReturn, h, capacity)),
      HalfLife(edges, markouts), Mean(errors), Variance(errors), Skew(root, errors), Mean(captures), Variance(captures),
      Streak(h), Mean(alphas), Variance(alphas), Mean(pnls) - margin, Mean(pnls) + margin, score,
      Mean(Window(EdgeComponent, h, capacity)), Mean(Window(ExecutionLoss, h, capacity)),
      Mean(Window(FeesRebates, h, capacity)), Mean(Window(AdverseSelection, h, capacity)),
      memory.reliability, memory.pnl, memory.quality, |pnls|,
      SizeMultiplier(reliability, state, regime, competition, drawdown, memory),
      state != Invalid && competition != Saturated)
  }

  /** The exact two-sample statistic of the two windows, 0 when either is empty. */
  ghost predicate KsOf(expected: seq<real>, realized: seq<real>, ks: real) {
    if expected == [] || realized == [] then ks == 0.0 else IsSupremum(expected, realized, ks)
  }

  ghost predicate IsReport(
    root: Root, h: seq<Sample>, capacity: nat, failureEma: real, memory: Memory, drawdown: real, s: Snapshot)
  {
    && KsOf(Window(ExpectedEdge, h, capacity), Window(RealizedMarkout, h, capacity), s.ksStatistic)
    && s == Report(root, h, capacity, failureEma, memory, drawdown, s.ksStatistic)
  }

  /** One history and one memory have one report. */
  lemma ReportsAgree(
    root: Root, h: seq<Sample>, capacity: nat, failureEma: real, m1: Memory, m2: Memory, drawdown: real, s1: Snapshot,
    s2: Snapshot)
    requires IsReport(root, h, capacity, failureEma, m1, drawdown, s1)
    requires IsReport(root, h, capacity, failureEma, m2, drawdown, s2)
    ensures s1.WithoutMemory() == s2.WithoutMemory()
    ensures m1 == m2 ==> s1 == s2
  {
    hide IsSupremum, Window, Streak, ScoreOf, ReliabilityOf, SizeMultiplier, ClassifyState, ClassifyRegime,
         ClassifyCompetition;
    var e, r := Window(ExpectedEdge, h, capacity), Window(RealizedMarkout, h, capacity);
    if e != [] && r != [] {
      SupremumUnique(e, r, s1.ksStatistic, s2.ksStatistic);
    }
  }

  /** The size is zero exactly when trading is disabled, reliability is zero, or the drawdown is at least 1/1.35. */
  lemma SizeZeroIff(
    root: Root, h: seq<Sample>, capacity: nat, failureEma: real, memory: Memory, drawdown: real, s: Snapshot)
    requires IsReport(root, h, capacity, failureEma, memory, drawdown, s)
    ensures 0.0 <= s.sizeMultiplier <= 1.10 && 0.0 <= s.reliability <= 1.0
    ensures s.sizeMultiplier == 0.0 <==> !s.tradingEnabled || s.reliability == 0.0 || drawdown * 1.35 >= 1.0
  {
    hide KsOf, Window, Streak, ScoreOf, ReliabilityOf, SizeMultiplier, ClassifyState, ClassifyRegime,
         ClassifyCompetition;
    ReliabilityUnit(root, h, capacity, failureEma);
    SizeFacts(s.reliability, s.edgeState, s.edgeRegime, s.competitionState, drawdown, memory);
  }

  lemma ReliabilityUnit(root: Root, h: seq<Sample>, capacity: nat, failureEma: real)
    ensures 0.0 <= ReliabilityOf(root, h, capacity, failureEma) <= 1.0
  {
    hide ScoreOf, Window;
    assert forall v :: 0.0 <= Clamp(v, 0.0, 1.0) <= 1.0;
  }

  lemma SizeFacts(
    reliability: real, state: EdgeState, regime: EdgeRegime, competition: CompetitionState, drawdown: real,
    memory: Memory)
    requires 0.0 <= reliability <= 1.0
    ensures var size := SizeMultiplier(reliability, state, regime, competition, drawdown, memory);
            && 0.0 <= size <= 1.10
            && (size == 0.0 <==> state == Invalid || competition == Saturated || reliability == 0.0
                                 || drawdown * 1.35 >= 1.0)
  {
    hide MemoryFactor, DynamicSize, CompetitionFactor, Times;
    var dynamic := DynamicSize(reliability, state, regime, drawdown);
    DynamicFacts(reliability, state, regime, drawdown);
    CompetitionFactorFacts(competition);
    MemoryFactorRange(memory);
    UnitProduct(dynamic, CompetitionFactor(competition));
    ScaledProduct(Times(dynamic, CompetitionFactor(competition)), MemoryFactor(memory));
  }

  lemma DynamicFacts(reliability: real, state: EdgeState, regime: EdgeRegime, drawdown: real)
    requires 0.0 <= reliability <= 1.0
    ensures 0.0 <= DynamicSize(reliability, state, regime, drawdown) <= 1.0
    ensures DynamicSize(reliability, state, regime, drawdown) == 0.0
            <==> state == Invalid || reliability == 0.0 || drawdown * 1.35 >= 1.0
  {
    hide StateFactor, RegimeFactor, Times;
    FactorFacts(state, regime);
    UnitProduct(reliability, StateFactor(state));
    UnitProduct(Times(reliability, StateFactor(state)), RegimeFactor(regime));
    UnitProduct(Times(Times(reliability, StateFactor(state)), RegimeFactor(regime)),
                Clamp(1.0 - drawdown * 1.35, 0.0, 1.0));
  }

  lemma FactorFacts(state: EdgeState, regime: EdgeRegime)
    ensures 0.0 <= StateFactor(state) <= 1.0 && (StateFactor(state) == 0.0 <==> state == Invalid)
    ensures 0.40 <= RegimeFactor(regime) <= 1.0
  {
  }

  lemma CompetitionFactorFacts(competition: CompetitionState)
    ensures 0.0 <= CompetitionFactor(competition) <= 1.0
            && (CompetitionFactor(competition) == 0.0 <==> competition == Saturated)
  {
  }

  lemma MemoryFactorRange(m: Memory)
    ensures 0.35 <= MemoryFactor(m) <= 1.10
  {
  }

  lemma UnitProduct(a: real, b: real)
    requires 0.0 <= a <= 1.0 && 0.0 <= b <= 1.0
    ensures 0.0 <= Times(a, b) <= 1.0 && (Times(a, b) == 0.0 <==> a == 0.0 || b == 0.0)
  {
    ProductSign(a, b);
    ProductSign(a, 1.0 - b);
  }

  lemma ScaledProduct(a: real, b: real)
    requires 0.0 <= a <= 1.0 && 0.35 <= b <= 1.10
    ensures 0.0 <= Times(a, b) <= 1.10 && (Times(a, b) == 0.0 <==> a == 0.0)
  {
    ProductSign(a, b);
    ProductSign(a, 1.10 - b);
  }

  /** A run of bad captures anywhere at the end of the history switches trading off, whatever else the figures say. */
  lemma BadSuffixDisables(
    root: Root, h: seq<Sample>, capacity: nat, failureEma: real, memory: Memory, drawdown: real, s: Snapshot, k: nat)
    requires IsReport(root, h, capacity, failureEma, memory, drawdown, s) && k <= |h| <= U64_MAX
    ensures Excess(h, k) >= 8 ==> s.competitionState == Saturated && !s.tradingEnabled && s.sizeMultiplier == 0.0
    ensures Excess(h, k) >= 6 && |h| >= MIN_SAMPLES && capacity >= MIN_SAMPLES ==>
              s.edgeState == Invalid && !s.tradingEnabled && s.sizeMultiplier == 0.0
  {
    hide KsOf, Excess, Streak, ScoreOf, ReliabilityOf, SizeMultiplier, ClassifyRegime, IsReport;
    StreakIsMaxSuffix(h);
    SizeZeroIff(root, h, capacity, failureEma, memory, drawdown, s);
    ReportStreak(root, h, capacity, failureEma, memory, drawdown, s);
  }

  lemma ReportStreak(
    root: Root, h: seq<Sample>, capacity: nat, failureEma: real, memory: Memory, drawdown: real, s: Snapshot)
    requires IsReport(root, h, capacity, failureEma, memory, drawdown, s)
    ensures Streak(h) >= 8 ==> s.competitionState == Saturated
    ensures Streak(h) >= 6 && |h| >= MIN_SAMPLES && capacity >= MIN_SAMPLES ==> s.edgeState == Invalid
    ensures s.tradingEnabled <==> s.edgeState != Invalid && s.competitionState != Saturated
  {
    hide KsOf, Streak, ScoreOf, ReliabilityOf, SizeMultiplier, ClassifyRegime;
  }

  /** Each later sample undoes at most one: `more` samples cannot lift a streak of 8 + |more| below 8. */
  lemma {:induction false} StreakLasts(h: seq<Sample>, more: seq<Sample>)
    requires |h + more| <= U64_MAX
    ensures Streak(h) <= Streak(h + more) + |more|
  {
    hide Capture;
    if more == [] {
      assert h + more == h;
    } else {
      StreakLasts(h, more[..|more|-1]);
      assert (h + more)[..|h + more|-1] == h + more[..|more|-1];
    }
  }

  // ----- runs -----

  datatype Event = Observed(sample: Sample) | Failed(reason: FailureReason)

  datatype Engine = Engine(history: seq<Sample>, failureEma: real, memories: map<Bucket, Memory>)

  function Severity(reason: FailureReason): real {
    match reason
    case QueueTooDeep => 0.35
    case Outbid => 0.55
    case LatencyTooHigh => 0.65
    case CompetitionSpike => 0.80
    case LiquidityPull => 0.70
    case NoFillTimeout => 0.75
  }

  function Remembered(root: Root, capacity: nat, e: Engine, s: Sample): Memory {
    var h := e.history + [s];
    Updated(Recall(e.memories, BucketOf(s.regime)), ReliabilityOf(root, h, capacity, e.failureEma), FilterNoise(s.pnl),
            ExecutionQuality(s.fillRatio, s.actualSlippageBps, ScoreOf(root, h, capacity)), Capture(s))
  }

  function Step(root: Root, capacity: nat, e: Engine, event: Event): Engine {
    match event
    case Failed(reason) => e.(failureEma := Ewma(e.failureEma, Severity(reason), 0.18))
    case Observed(s) =>
      Engine(e.history + [s], e.failureEma, e.memories[BucketOf(s.regime) := Remembered(root, capacity, e, s)])
  }

  function Run(root: Root, capacity: nat, events: seq<Event>): Engine {
    if events == [] then Engine([], 0.0, map[])
    else Step(root, capacity, Run(root, capacity, events[..|events|-1]), events[|events|-1])
  }

  function BucketCount(history: seq<Sample>, b: Bucket): nat {
    if history == [] then 0
    else BucketCount(history[..|history|-1], b) + if BucketOf(history[|history|-1].regime) == b then 1 else 0
  }

  /** A memory's figures stay in range, so its factor is never cut off from below. */
  ghost predicate InRange(m: Memory) {
    0.0 <= m.reliability <= 1.0 && 0.0 <= m.quality <= 1.0 && -5.0 <= m.capture <= 5.0
  }

  ghost predicate Sound(e: Engine) {
    && 0.0 <= e.failureEma <= 0.80
    && (forall b <- e.memories :: e.memories[b].count == BucketCount(e.history, b) > 0 && InRange(e.memories[b]))
    && (forall b: Bucket :: BucketCount(e.history, b) > 0 ==> b in e.memories)
  }

  lemma EwmaBetween(current: real, value: real, lo: real, hi: real)
    requires lo <= current <= hi && lo <= value <= hi
    ensures lo <= Ewma(current, value, 0.08) <= hi && lo <= Ewma(current, value, 0.18) <= hi
  {
  }

  lemma RememberedInRange(root: Root, capacity: nat, e: Engine, s: Sample)
    requires InRange(Recall(e.memories, BucketOf(s.regime)))
    ensures InRange(Remembered(root, capacity, e, s))
  {
    hide ReliabilityOf, ScoreOf, Recall, Ewma;
    var m, h := Recall(e.memories, BucketOf(s.regime)), e.history + [s];
    ReliabilityUnit(root, h, capacity, e.failureEma);
    EwmaBetween(m.reliability, ReliabilityOf(root, h, capacity, e.failureEma), 0.0, 1.0);
    EwmaBetween(m.quality, ExecutionQuality(s.fillRatio, s.actualSlippageBps, ScoreOf(root, h, capacity)), 0.0, 1.0);
    EwmaBetween(m.capture, Capture(s), -5.0, 5.0);
  }

  lemma BucketCountStep(history: seq<Sample>, s: Sample, b: Bucket)
    ensures BucketCount(history + [s], b) == BucketCount(history, b) + if BucketOf(s.regime) == b then 1 else 0
  {
    assert (history + [s])[..|history|] == history;
  }

  lemma {:induction false} BucketCountBound(history: seq<Sample>, b: Bucket)
    ensures BucketCount(history, b) <= |history|
  {
    if history != [] { BucketCountBound(history[..|history|-1], b); }
  }

  lemma StepSound(root: Root, capacity: nat, e: Engine, event: Event)
    requires Sound(e) && |e.history| < U64_MAX
    ensures Sound(Step(root, capacity, e, event))
  {
    hide Sound, Remembered, Ewma;
    match event {
      case Failed(reason) => FailureSound(root, capacity, e, reason);
      case Observed(s) => ObservedSound(e, s, Remembered(root, capacity, e, s)) by {
        RecalledSound(e, BucketOf(s.regime));
        RememberedInRange(root, capacity, e, s);
        RememberedCount(root, capacity, e, s);
      }
    }
  }

  lemma FailureSound(root: Root, capacity: nat, e: Engine, reason: FailureReason)
    requires Sound(e)
    ensures Sound(Step(root, capacity, e, Failed(reason)))
  {
    hide InRange, Ewma, BucketCount;
    EwmaBetween(e.failureEma, Severity(reason), 0.0, 0.80);
  }

  lemma RecalledSound(e: Engine, b: Bucket)
    requires Sound(e)
    ensures Recall(e.memories, b).count == BucketCount(e.history, b) <= |e.history| && InRange(Recall(e.memories, b))
  {
    hide BucketCount;
    BucketCountBound(e.history, b);
  }

  lemma ObservedSound(e: Engine, s: Sample, m: Memory)
    requires Sound(e) && InRange(m) && m.count == BucketCount(e.history, BucketOf(s.regime)) + 1
    ensures Sound(Engine(e.history + [s], e.failureEma, e.memories[BucketOf(s.regime) := m]))
  {
    hide InRange, BucketCount, BucketOf;
    forall c: Bucket
      ensures BucketCount(e.history + [s], c) == BucketCount(e.history, c) + if BucketOf(s.regime) == c then 1 else 0
    {
      BucketCountStep(e.history, s, c);
    }
  }

  lemma RememberedCount(root: Root, capacity: nat, e: Engine, s: Sample)
    requires Recall(e.memories, BucketOf(s.regime)).count < U64_MAX
    ensures Remembered(root, capacity, e, s).count == Recall(e.memories, BucketOf(s.regime)).count + 1
  {
  }

  lemma {:induction false} RunSound(root: Root, capacity: nat, events: seq<Event>)
    requires |events| <= U64_MAX
    ensures Sound(Run(root, capacity, events)) && |Run(root, capacity, events).history| <= |events|
  {
    if events != [] {
      RunSound(root, capacity, events[..|events|-1]);
      StepSound(root, capacity, Run(root, capacity, events[..|events|-1]), events[|events|-1]);
    }
  }

  /** A memory that no other outnumbers; a map's iteration order decides between equals. */
  ghost predicate Dominant(memories: map<Bucket, Memory>, b: Bucket) {
    b in memories && forall c <- memories :: memories[c].count <= memories[b].count
  }

  lemma {:induction false} DominantExists(memories: map<Bucket, Memory>)
    requires memories != map[]
    ensures exists b :: Dominant(memories, b)
  {
    var b :| b in memories;
    var others := memories - {b};
    assert forall c <- memories :: c == b || c in others;
    if others != map[] {
      DominantExists(others);
      var c :| Dominant(others, c);
      assert Dominant(memories, if memories[c].count <= memories[b].count then b else c);
    } else {
      assert Dominant(memories, b);
    }
  }

  /**
   A snapshot taken right after an observation, at the same drawdown, reports the same figures; the
   fields read from regime memory agree too when the observed bucket outnumbers every other.
   */
  lemma SnapshotAfterObserve(
    root: Root, capacity: nat, events: seq<Event>, s: Sample, drawdown: real, observed: Snapshot, b: Bucket,
    taken: Snapshot)
    requires |events| < U64_MAX
    requires var e := Run(root, capacity, events + [Observed(s)]);
             && IsReport(root, e.history, capacity, e.failureEma, Recall(e.memories, BucketOf(s.regime)), drawdown,
                         observed)
             && Dominant(e.memories, b)
             && IsReport(root, e.history, capacity, e.failureEma, Recall(e.memories, b), drawdown, taken)
    ensures observed.WithoutMemory() == taken.WithoutMemory()
    ensures var h := Run(root, capacity, events + [Observed(s)]).history;
            (forall c: Bucket :: c != BucketOf(s.regime) ==> BucketCount(h, c) < BucketCount(h, BucketOf(s.regime)))
            ==> observed == taken
  {
    hide Run, IsReport, BucketCount;
    var e := Run(root, capacity, events + [Observed(s)]);
    RunSound(root, capacity, events + [Observed(s)]);
    ReportsAgree(root, e.history, capacity, e.failureEma, Recall(e.memories, BucketOf(s.regime)),
                 Recall(e.memories, b), drawdown, observed, taken);
  }

  /** In particular when every sample so far fell into one bucket. */
  lemma {:induction false} OneBucket(history: seq<Sample>, b: Bucket)
    requires history != [] && forall k :: 0 <= k < |history| ==> BucketOf(history[k].regime) == b
    ensures forall c: Bucket :: c != b ==> BucketCount(history, c) < BucketCount(history, b)
    ensures BucketCount(history, b) == |history| && forall c: Bucket :: c != b ==> BucketCount(history, c) == 0
  {
    if |history| > 1 {
      OneBucket(history[..|history|-1], b);
    }
  }

  // ----- the engine as it runs -----

  class EdgeValidationEngine {
    const root: Root
    const capacity: nat
    var expectedEdges: seq<real>
    var realizedMarkouts: seq<real>
    var realizedPnls: seq<real>
    var adjustedReturns: seq<real>
    var edgeErrors: seq<real>
    var captureRatios: seq<real>
    var executionAlphas: seq<real>
    var fillRates: seq<real>
    var slippages: seq<real>
    var outbidFlags: seq<real>
    var edgeComponents: seq<real>
    var executionLosses: seq<real>
    var feesRebates: seq<real>
    var adverseSelectionLosses: seq<real>
    var competitionStates: seq<CompetitionState>
    var negativeCaptureStreak: nat
    var regimeMemory: map<Bucket, Memory>
    var failureEma: real
    ghost var history: seq<Sample>

    /** Every queue holds exactly the last `capacity` samples, and the counter is the streak of them all. */
    ghost predicate Valid()
      reads this
    {
      && capacity >= 32
      && expectedEdges == Window(ExpectedEdge, history, capacity)
      && realizedMarkouts == Window(RealizedMarkout, history, capacity)
      && realizedPnls == Window(RealizedPnl, history, capacity)
      && adjustedReturns == Window(AdjustedReturn, history, capacity)
      && edgeErrors == Window(EdgeError, history, capacity)
      && captureRatios == Window(CaptureRatio, history, capacity)
      && executionAlphas == Window(ExecutionAlpha, history, capacity)
      && fillRates == Window(FillRate, history, capacity)
      && slippages == Window(Slippage, history, capacity)
      && outbidFlags == Window(OutbidFlag, history, capacity)
      && edgeComponents == Window(EdgeComponent, history, capacity)
      && executionLosses == Window(ExecutionLoss, history, capacity)
      && feesRebates == Window(FeesRebates, history, capacity)
      && adverseSelectionLosses == Window(AdverseSelection, history, capacity)
      && competitionStates == CompetitionWindow(history, capacity)
      && negativeCaptureStreak == Streak(history)
    }

    ghost function State(): Engine
      reads this
    {
      Engine(history, failureEma, regimeMemory)
    }

    constructor (root: Root, window: nat)
      ensures Valid() && this.root == root && capacity == (if window < 32 then 32 else window)
      ensures State() == Run(root, capacity, [])
    {
      this.root := root;
      capacity := if window < 32 then 32 else window;
      expectedEdges, realizedMarkouts, realizedPnls, adjustedReturns := [], [], [], [];
      edgeErrors, captureRatios, executionAlphas, fillRates := [], [], [], [];
      slippages, outbidFlags, edgeComponents, executionLosses := [], [], [], [];
      feesRebates, adverseSelectionLosses, competitionStates := [], [], [];
      negativeCaptureStreak, regimeMemory, failureEma := 0, map[], 0.0;
      history := [];
    }

    method ObserveFailure(reason: FailureReason)
      requires Valid()
      modifies this`failureEma
      ensures Valid() && State() == Step(root, capacity, old(State()), Failed(reason))
    {
      failureEma := Ewma(failureEma, Severity(reason), 0.18);
    }

    method PushReturns(s: Sample)
      requires capacity > 0
      modifies this`expectedEdges, this`realizedMarkouts, this`realizedPnls, this`adjustedReturns, this`edgeErrors,
               this`captureRatios, this`executionAlphas
      ensures expectedEdges == PushCapped(old(expectedEdges), Value(ExpectedEdge, s), capacity)
      ensures realizedMarkouts == PushCapped(old(realizedMarkouts), Value(RealizedMarkout, s), capacity)
      ensures realizedPnls == PushCapped(old(realizedPnls), Value(RealizedPnl, s), capacity)
      ensures adjustedReturns == PushCapped(old(adjustedReturns), Value(AdjustedReturn, s), capacity)
      ensures edgeErrors == PushCapped(old(edgeErrors), Value(EdgeError, s), capacity)
      ensures captureRatios == PushCapped(old(captureRatios), Value(CaptureRatio, s), capacity)
      ensures executionAlphas == PushCapped(old(executionAlphas), Value(ExecutionAlpha, s), capacity)
    {
      hide Value, PushCapped;
      expectedEdges := PushCapped(expectedEdges, Value(ExpectedEdge, s), capacity);
      realizedMarkouts := PushCapped(realizedMarkouts, Value(RealizedMarkout, s), capacity);
      realizedPnls := PushCapped(realizedPnls, Value(RealizedPnl, s), capacity);
      adjustedReturns := PushCapped(adjustedReturns, Value(AdjustedReturn, s), capacity);
      edgeErrors := PushCapped(edgeErrors, Value(EdgeError, s), capacity);
      captureRatios := PushCapped(captureRatios, Value(CaptureRatio, s), capacity);
      executionAlphas := PushCapped(executionAlphas, Value(ExecutionAlpha, s), capacity);
    }

    method PushQuality(s: Sample)
      requires capacity > 0
      modifies this`fillRates, this`slippages, this`outbidFlags, this`edgeComponents, this`executionLosses,
               this`feesRebates, this`adverseSelectionLosses
      ensures fillRates == PushCapped(old(fillRates), Value(FillRate, s), capacity)
      ensures slippages == PushCapped(old(slippages), Value(Slippage, s), capacity)
      ensures outbidFlags == PushCapped(old(outbidFlags), Value(OutbidFlag, s), capacity)
      ensures edgeComponents == PushCapped(old(edgeComponents), Value(EdgeComponent, s), capacity)
      ensures executionLosses == PushCapped(old(executionLosses), Value(ExecutionLoss, s), capacity)
      ensures feesRebates == PushCapped(old(feesRebates), Value(FeesRebates, s), capacity)
      ensures adverseSelectionLosses == PushCapped(old(adverseSelectionLosses), Value(AdverseSelection, s), capacity)
    {
      hide Value, PushCapped;
      fillRates := PushCapped(fillRates, Value(FillRate, s), capacity);
      slippages := PushCapped(slippages, Value(Slippage, s), capacity);
      outbidFlags := PushCapped(outbidFlags, Value(OutbidFlag, s), capacity);
      edgeComponents := PushCapped(edgeComponents, Value(EdgeComponent, s), capacity);
      executionLosses := PushCapped(executionLosses, Value(ExecutionLoss, s), capacity);
      feesRebates := PushCapped(feesRebates, Value(FeesRebates, s), capacity);
      adverseSelectionLosses := PushCapped(adverseSelectionLosses, Value(AdverseSelection, s), capacity);
    }

    /** The window and streak updates of one observation. */
    method Record(s: Sample)
      requires Valid()
      modifies this
      ensures Valid() && history == old(history) + [s]
      ensures regimeMemory == old(regimeMemory) && failureEma == old(failureEma)
    {
      hide Value, Window, CompetitionWindow, Capture, PushCapped, NextStreak, Streak;
      PushReturns(s);
      PushQuality(s);
      competitionStates := PushCapped(competitionStates, s.competition, capacity);
      negativeCaptureStreak := NextStreak(negativeCaptureStreak, Capture(s));
      PushKeepsWindow(ExpectedEdge, history, s, capacity);
      PushKeepsWindow(RealizedMarkout, history, s, capacity);
      PushKeepsWindow(RealizedPnl, history, s, capacity);
      PushKeepsWindow(AdjustedReturn, history, s, capacity);
      PushKeepsWindow(EdgeError, history, s, capacity);
      PushKeepsWindow(CaptureRatio, history, s, capacity);
      PushKeepsWindow(ExecutionAlpha, history, s, capacity);
      PushKeepsWindow(FillRate, history, s, capacity);
      PushKeepsWindow(Slippage, history, s, capacity);
      PushKeepsWindow(OutbidFlag, history, s, capacity);
      PushKeepsWindow(EdgeComponent, history, s, capacity);
      PushKeepsWindow(ExecutionLoss, history, s, capacity);
      PushKeepsWindow(FeesRebates, history, s, capacity);
      PushKeepsWindow(AdverseSelection, history, s, capacity);
      PushKeepsCompetition(history, s, capacity);
      StreakStep(history, s);
      history := history + [s];
    }

    /** `rolling_moments`: sums of powers of the deviations from the mean, in one pass over the window. */
    method RollingMoments(values: seq<real>) returns (r: Summary)
      ensures r == Summary(Mean(values), Variance(values), Skew(root, values))
    {
      hide Mean, Dev2, Dev3, Variance, Skew;
      if values == [] {
        SummaryIs(root, values, 0.0, 0.0, 0.0);
        return Summary(0.0, 0.0, 0.0);
      }
      var mean := Mean(values);
      var m2, m3 := 0.0, 0.0;
      DevEmpty(mean);
      for i := 0 to |values|
        invariant m2 == Dev2(values[..i], mean) && m3 == Dev3(values[..i], mean)
      {
        var delta := values[i] - mean;
        DevStep(values[..i+1], mean, delta);
        assert values[..i+1][..i] == values[..i];
        m2 := m2 + delta * delta;
        m3 := m3 + delta * delta * delta;
      }
      assert values[..|values|] == values;
      var variance := if |values| > 1 then m2 / (|values| as real - 1.0) else 0.0;
      CubePositive(root(variance));
      var skew := if variance <= EPSILON then 0.0 else m3 / |values| as real / Cubed(root(variance));
      SummaryIs(root, values, variance, m2, m3);
      r := Summary(mean, variance, skew);
    }

    /** One executed sample: windows and streak first, then the regime memory, then the report that reads all three. */
    method Observe(s: Sample, drawdown: real) returns (r: Snapshot)
      requires Valid()
      modifies this
      ensures Valid() && State() == Step(root, capacity, old(State()), Observed(s))
      ensures IsReport(root, history, capacity, failureEma, Recall(regimeMemory, BucketOf(s.regime)), drawdown, r)
    {
      hide Window, CompetitionWindow, Streak, Mean, Variance, Skew, SharpeLike, CaptureWithAlpha, CompetitionScore,
           Reliability,
           TStatistic, Margin, HalfLife, ClassifyCompetition, ClassifyRegime, ClassifyState, SizeMultiplier, Updated,
           FilterNoise, Capture, ExecutionQuality, BucketOf, IsSupremum, Dominant;
      ghost var before := State();
      Record(s);
      var errors := RollingMoments(edgeErrors);
      var captures := RollingMoments(captureRatios);
      var alphas := RollingMoments(executionAlphas);
      var pnls := RollingMoments(realizedPnls);
      var ks := GroupedKs(expectedEdges, realizedMarkouts);
      var score := CompetitionScore(root, expectedEdges, fillRates, slippages, outbidFlags);
      var reliability := Reliability(
        errors.mean, errors.variance, errors.skew, SharpeLike(root, adjustedReturns),
        CaptureWithAlpha(captures.mean, alphas.mean), score, failureEma);
      var b := BucketOf(s.regime);
      var quality := ExecutionQuality(s.fillRatio, s.actualSlippageBps, score);
      var memory := Updated(Recall(regimeMemory, b), reliability, FilterNoise(s.pnl), quality, Capture(s));
      regimeMemory := regimeMemory[b := memory];
      var t, margin := TStatistic(root, realizedPnls), Margin(root, realizedPnls);
      var halfLife := HalfLife(expectedEdges, realizedMarkouts);
      var competition := ClassifyCompetition(score, Mean(fillRates), negativeCaptureStreak);
      var regime := ClassifyRegime(reliability, halfLife, ks, captures.mean);
      var state := ClassifyState(
        |realizedPnls|, t, ks, errors.mean, pnls.mean - margin, captures.mean, negativeCaptureStreak, reliability);
      r := Snapshot(
        state, regime, competition, t, ks, reliability, SharpeLike(root, adjustedReturns), halfLife,
        errors.mean, errors.variance, errors.skew, captures.mean, captures.variance, negativeCaptureStreak,
        alphas.mean, alphas.variance, pnls.mean - margin, pnls.mean + margin, score, Mean(edgeComponents),
        Mean(executionLosses), Mean(feesRebates), Mean(adverseSelectionLosses), memory.reliability, memory.pnl,
        memory.quality, |realizedPnls|,
        SizeMultiplier(reliability, state, regime, competition, drawdown, memory),
        state != Invalid && competition != Saturated);
    }

    /** The report recomputed on demand; its memory is any that no other outnumbers. */
    method TakeSnapshot(drawdown: real) returns (r: Snapshot, ghost chosen: Memory)
      requires Valid()
      ensures IsReport(root, history, capacity, failureEma, chosen, drawdown, r)
      ensures if regimeMemory == map[] then chosen == NO_MEMORY
              else exists b :: Dominant(regimeMemory, b) && chosen == regimeMemory[b]
    {
      hide Window, CompetitionWindow, Streak, Mean, Variance, Skew, SharpeLike, CaptureWithAlpha, CompetitionScore,
           Reliability,
           TStatistic, Margin, HalfLife, ClassifyCompetition, ClassifyRegime, ClassifyState, SizeMultiplier, Updated,
           FilterNoise, Capture, ExecutionQuality, BucketOf, IsSupremum, Dominant;
      var errors := RollingMoments(edgeErrors);
      var captures := RollingMoments(captureRatios);
      var alphas := RollingMoments(executionAlphas);
      var pnls := RollingMoments(realizedPnls);
      var ks := GroupedKs(expectedEdges, realizedMarkouts);
      var score := CompetitionScore(root, expectedEdges, fillRates, slippages, outbidFlags);
      var reliability := Reliability(
        errors.mean, errors.variance, errors.skew, SharpeLike(root, adjustedReturns),
        CaptureWithAlpha(captures.mean, alphas.mean), score, failureEma);
      var t, margin := TStatistic(root, realizedPnls), Margin(root, realizedPnls);
      var halfLife := HalfLife(expectedEdges, realizedMarkouts);
      var competition := ClassifyCompetition(score, Mean(fillRates), negativeCaptureStreak);
      var regime := ClassifyRegime(reliability, halfLife, ks, captures.mean);
      var memory := MostSampled();
      chosen := memory;
      var state := ClassifyState(
        |realizedPnls|, t, ks, errors.mean, pnls.mean - margin, captures.mean, negativeCaptureStreak, reliability);
      r := Snapshot(
        state, regime, competition, t, ks, reliability, SharpeLike(root, adjustedReturns), halfLife,
        errors.mean, errors.variance, errors.skew, captures.mean, captures.variance, negativeCaptureStreak,
        alphas.mean, alphas.variance, pnls.mean - margin, pnls.mean + margin, score, Mean(edgeComponents),
        Mean(executionLosses), Mean(feesRebates), Mean(adverseSelectionLosses), memory.reliability, memory.pnl,
        memory.quality, |realizedPnls|,
        SizeMultiplier(reliability, state, regime, competition, drawdown, memory),
        state != Invalid && competition != Saturated);
    }

    method MostSampled() returns (memory: Memory)
      ensures if regimeMemory == map[] then memory == NO_MEMORY
              else exists b :: Dominant(regimeMemory, b) && memory == regimeMemory[b]
    {
      if regimeMemory == map[] {
        return NO_MEMORY;
      }
      DominantExists(regimeMemory);
      var b :| b in regimeMemory && forall c <- regimeMemory :: regimeMemory[c].count <= regimeMemory[b].count;
      assert Dominant(regimeMemory, b);
      memory := regimeMemory[b];
    }
  }

  lemma DevEmpty(c: real)
    ensures Dev2([], c) == Dev3([], c) == 0.0
  {
  }

  lemma SummaryIs(root: Root, xs: seq<real>, variance: real, m2: real, m3: real)
    requires xs != [] ==> m2 == Dev2(xs, Mean(xs)) && m3 == Dev3(xs, Mean(xs))
    requires variance == if |xs| > 1 then m2 / (|xs| as real - 1.0) else 0.0
    ensures Variance(xs) == variance
    ensures xs == [] ==> Mean(xs) == Skew(root, xs) == 0.0
    ensures xs != [] && variance <= EPSILON ==> Skew(root, xs) == 0.0
    ensures xs != [] && variance > EPSILON ==>
              (CubePositive(root(variance)); Skew(root, xs) == m3 / |xs| as real / Cubed(root(variance)))
  {
    hide Dev2, Dev3;
  }
}

/**
 The risk circuit: mempool pressure, the intelligence snapshot, the service's gates, and the
 sequential gateway loop they close.  The feedback snapshot is an arbitrary input throughout, so
 nothing here depends on how it is computed; so are elapsed times, gross exposure and the
 expected-value figures.
 */
module RiskCircuit {
  import opened Numeric

  function Ema(prev: real, value: real, alpha: real): real {
    if prev == 0.0 then value else prev * (1.0 - alpha) + value * alpha
  }

  function Clamp01(v: real): real {
    if v < 0.0 then 0.0 else if v > 1.0 then 1.0 else v
  }

  ghost predicate Unit(v: real) {
    0.0 <= v <= 1.0
  }

  /** An average that starts at zero and is fed values in [0, 1] stays in [0, 1]. */
  lemma EmaUnit(prev: real, value: real, alpha: real)
    requires Unit(prev) && Unit(value) && Unit(alpha)
    ensures Unit(Ema(prev, value, alpha))
  {
    if prev != 0.0 {
      Mix(prev, value, 1.0 - alpha, alpha);
    }
  }

  lemma Mix(x: real, y: real, k: real, a: real)
    requires Unit(x) && Unit(y) && 0.0 <= k && 0.0 <= a && k + a == 1.0
    ensures Unit(x * k + y * a)
  {
    ShareOf(x, k);
    ShareOf(y, a);
    SumUnit(x * k, y * a, k, a);
  }

  lemma SumUnit(p: real, q: real, k: real, a: real)
    requires 0.0 <= p <= k && 0.0 <= q <= a && k + a == 1.0
    ensures Unit(p + q)
  {
  }

  lemma ShareOf(a: real, b: real)
    requires Unit(a) && 0.0 <= b
    ensures 0.0 <= a * b <= b
  {
    assert (1.0 - a) * b >= 0.0;
  }

  // ----- mempool pressure -----

  datatype Mempool = Mempool(
    burst: real, cluster: real, fail: real, outbid: real, competition: real, latencyPenalty: real,
    lastSymbolHash: nat, initialized: bool)

  const CALM: Mempool := Mempool(0.0, 0.0, 0.0, 0.0, 0.0, 0.0, 0, false)

  /** The weighted sum before its clamp. */
  function RawScore(m: Mempool): real {
    0.34 * m.burst + 0.20 * m.cluster + 0.20 * m.fail + 0.14 * m.outbid + 0.12 * m.latencyPenalty
  }

  function Score(m: Mempool): real {
    Clamp01(RawScore(m))
  }

  function MempoolMarket(m: Mempool, hash: nat, volume: real, velocity: real): Mempool {
    var cluster := if m.initialized && hash == m.lastSymbolHash then 1.0 else 0.0;
    var burst := Clamp01(AbsR(velocity) / 80.0 + volume / 25.0);
    var clusterEma := Ema(m.cluster, cluster, 0.04);
    Mempool(Ema(m.burst, burst, 0.08), clusterEma, m.fail, m.outbid,
            Ema(m.competition, Clamp01(0.60 * burst + 0.40 * clusterEma), 0.06), m.latencyPenalty, hash, true)
  }

  function MempoolFailure(m: Mempool): Mempool {
    m.(fail := Ema(m.fail, 1.0, 0.12), outbid := Ema(m.outbid, 1.0, 0.10), competition := Ema(m.competition, 1.0, 0.08))
  }

  function MempoolSuccess(m: Mempool): Mempool {
    m.(fail := Ema(m.fail, 0.0, 0.04), outbid := Ema(m.outbid, 0.0, 0.03),
       latencyPenalty := Ema(m.latencyPenalty, 0.0, 0.03))
  }

  function MempoolLatency(m: Mempool, penalty: real): Mempool {
    m.(latencyPenalty := Ema(m.latencyPenalty, Clamp01(penalty), 0.08))
  }

  ghost predicate MempoolOk(m: Mempool) {
    Unit(m.burst) && Unit(m.cluster) && Unit(m.fail) && Unit(m.outbid) && Unit(m.competition) && Unit(m.latencyPenalty)
  }

  /** Every observation keeps the averages in [0, 1], so the clamp on the score never binds. */
  lemma MempoolStaysUnit(m: Mempool, hash: nat, volume: real, velocity: real, penalty: real)
    requires MempoolOk(m)
    ensures MempoolOk(MempoolMarket(m, hash, volume, velocity))
    ensures MempoolOk(MempoolFailure(m)) && MempoolOk(MempoolSuccess(m)) && MempoolOk(MempoolLatency(m, penalty))
    ensures Score(m) == RawScore(m)
  {
    hide Ema, Clamp01, AbsR;
    ClampUnit(AbsR(velocity) / 80.0 + volume / 25.0);
    ClampUnit(penalty);
    var cluster := if m.initialized && hash == m.lastSymbolHash then 1.0 else 0.0;
    var burst := Clamp01(AbsR(velocity) / 80.0 + volume / 25.0);
    EmaUnit(m.burst, burst, 0.08);
    EmaUnit(m.cluster, cluster, 0.04);
    ClampUnit(0.60 * burst + 0.40 * Ema(m.cluster, cluster, 0.04));
    EmaUnit(m.competition, Clamp01(0.60 * burst + 0.40 * Ema(m.cluster, cluster, 0.04)), 0.06);
    EmaUnit(m.fail, 1.0, 0.12);
    EmaUnit(m.outbid, 1.0, 0.10);
    EmaUnit(m.competition, 1.0, 0.08);
    EmaUnit(m.fail, 0.0, 0.04);
    EmaUnit(m.outbid, 0.0, 0.03);
    EmaUnit(m.latencyPenalty, 0.0, 0.03);
    EmaUnit(m.latencyPenalty, Clamp01(penalty), 0.08);
    ClampUnit(RawScore(m));
  }

  lemma ClampUnit(v: real)
    ensures Unit(Clamp01(v)) && (Unit(v) ==> Clamp01(v) == v)
  {
  }

  // ----- the intelligence snapshot -----

  datatype Circuit = Closed | Degraded | Open

  datatype Regime = Safe | DegradedRegime | Hostile | Contaminated

  datatype Feedback = Feedback(
    degradation: real, adverseSelection: real, slippageVariance: real, partialFillLoss: real,
    failureRate: real, expectedMarkout: real, regime: Regime)

  const NEUTRAL: Feedback := Feedback(0.0, 0.0, 0.0, 0.0, 0.0, 0.0, Safe)

  datatype Snapshot = Snapshot(
    exposure: real, mempool: real, fragility: real, stress: real, multiplier: real, latencyPenalty: real,
    inclusion: real, circuit: Circuit, feedback: Feedback)

  datatype Config = Config(
    maxExposure: real, latencyRejectMs: nat, maxPosition: real, maxDailyLoss: real)

  datatype Intel = Intel(
    volEma: real, latencyEma: real, rejectEma: real, failEma: real, inclusionEma: real, mempool: Mempool,
    snapshot: Snapshot)

  const FRESH: Intel :=
    Intel(0.0, 0.0, 0.0, 0.0, 0.50, CALM, Snapshot(0.0, 0.0, 0.0, 0.0, 1.0, 0.0, 0.50, Closed, NEUTRAL))

  function Fragility(cfg: Config, e: Intel, f: Feedback): real {
    Clamp01(0.30 * Clamp01(e.latencyEma / (cfg.latencyRejectMs + 1) as real)
            + 0.25 * e.failEma + 0.15 * e.rejectEma + 0.30 * f.failureRate)
  }

  function MarkoutStress(f: Feedback): real {
    Clamp01(0.35 * f.degradation + 0.30 * f.adverseSelection + 0.20 * Clamp01(f.slippageVariance / 36.0)
            + 0.15 * f.partialFillLoss)
  }

  function RawStress(exposure: real, mempool: real, fragility: real, vol: real, markout: real): real {
    0.20 * exposure + 0.20 * mempool + 0.25 * fragility + 0.15 * vol + 0.20 * markout
  }

  function CircuitOf(stress: real, failEma: real, vol: real, mempool: real, regime: Regime): Circuit {
    if stress > 0.90 || failEma > 0.75 || regime == Hostile then Open
    else if stress > 0.55 || (vol > 0.45 && mempool > 0.45) || regime == DegradedRegime then Degraded
    else Closed
  }

  function MultiplierOf(stress: real, circuit: Circuit): real {
    var m := Clamp01(1.0 - stress * 0.65);
    match circuit
    case Open => 0.0
    case Degraded => MinR(m, 0.60)
    case Closed => m
  }

  /** `recompute`: exposure comes from the marks when there are any, else from the last snapshot. */
  function Recompute(cfg: Config, e: Intel, gross: Option<real>, mempool: real, f: Feedback): Intel
    requires cfg.maxExposure > 0.0
  {
    var exposure := if gross.Some? then Clamp01(gross.value / cfg.maxExposure) else e.snapshot.exposure;
    var fragility := Fragility(cfg, e, f);
    var vol := Clamp01(e.volEma / 8.0);
    var stress := Clamp01(RawStress(exposure, mempool, fragility, vol, MarkoutStress(f)));
    var circuit := CircuitOf(stress, e.failEma, vol, mempool, f.regime);
    e.(snapshot := Snapshot(exposure, mempool, fragility, stress, MultiplierOf(stress, circuit),
    Clamp01(e.mempool.latencyPenalty), Clamp01(e.inclusionEma), circuit, f))
  }

  /** A market event, its time in seconds. */
  datatype Quote = Quote(symbol: string, price: real, bestBid: real, bestAsk: real, volume: real, time: real)

  /** The price a market event carries, the mid when it has none of its own. */
  function QuotePrice(q: Quote): real {
    if q.price <= 0.0 then (q.bestBid + q.bestAsk) * 0.5 else q.price
  }

  /** The relative price change per second since the last event, if there was one and time has passed. */
  function Velocity(lastPrice: real, lastTime: Option<real>, price: real, now: real): Option<real> {
    if lastPrice > 0.0 && lastTime.Some? && now - lastTime.value > 0.0
    then Some((price - lastPrice) / lastPrice / (now - lastTime.value)) else None
  }

  function ObserveMarket(cfg: Config, e: Intel, hash: nat, volume: real, velocity: Option<real>, gross: real,
                         f: Feedback): Intel
    requires cfg.maxExposure > 0.0
  {
    var v := if velocity.Some? then velocity.value else 0.0;
    var vol := if velocity.Some? then Ema(e.volEma, AbsR(v) * 1000.0, 0.05) else e.volEma;
    var m := MempoolMarket(e.mempool, hash, volume, v);
    Recompute(cfg, e.(volEma := vol, mempool := m), Some(gross), Score(m), f)
  }

  function ObserveExecution(cfg: Config, e: Intel, latencyMs: real, penalty: real, rejected: bool, f: Feedback): Intel
    requires cfg.maxExposure > 0.0
  {
    var slowed := e.(latencyEma := Ema(e.latencyEma, latencyMs, 0.08), mempool := MempoolLatency(e.mempool, penalty));
    if rejected then
      var m := MempoolFailure(slowed.mempool);
      var hit := slowed.(
                 rejectEma := Ema(e.rejectEma, 1.0, 0.10), failEma := Ema(e.failEma, 1.0, 0.10),
                 inclusionEma := Ema(e.inclusionEma, 0.0, 0.06), mempool := m);
      Recompute(cfg, hit, None, Score(m), f)
    else
      var m := MempoolSuccess(slowed.mempool);
      var hit := slowed.(
                 inclusionEma := Ema(e.inclusionEma, 1.0, 0.04), rejectEma := Ema(e.rejectEma, 0.0, 0.04),
                 failEma := Ema(e.failEma, 0.0, 0.04), mempool := m);
      Recompute(cfg, hit, None, Score(m), f)
  }

  function ObserveFeedback(cfg: Config, e: Intel, f: Feedback): Intel
    requires cfg.maxExposure > 0.0
  {
    Recompute(cfg, e, None, e.snapshot.mempool, f)
  }

  /** What every stored snapshot satisfies. */
  ghost predicate SnapshotOk(s: Snapshot) {
    && Unit(s.exposure) && Unit(s.mempool) && Unit(s.fragility) && Unit(s.stress) && Unit(s.multiplier)
    && s.multiplier == MultiplierOf(s.stress, s.circuit)
    && (s.stress > 0.90 ==> s.circuit == Open)
  }

  ghost predicate IntelOk(e: Intel) {
    SnapshotOk(e.snapshot) && MempoolOk(e.mempool) && Unit(e.failEma)
    && (e.failEma > 0.75 ==> e.snapshot.circuit == Open)
  }

  lemma MultiplierFacts(stress: real, circuit: Circuit)
    requires Unit(stress)
    ensures Unit(MultiplierOf(stress, circuit))
    ensures circuit == Open ==> MultiplierOf(stress, circuit) == 0.0
    ensures circuit == Degraded ==> MultiplierOf(stress, circuit) <= 0.60
    ensures circuit != Open && stress <= 0.85 ==> MultiplierOf(stress, circuit) >= 0.4475
  {
  }

  lemma RecomputeOk(cfg: Config, e: Intel, gross: Option<real>, mempool: real, f: Feedback)
    requires cfg.maxExposure > 0.0
    requires Unit(e.snapshot.exposure) && Unit(mempool) && MempoolOk(e.mempool) && Unit(e.failEma)
    ensures IntelOk(Recompute(cfg, e, gross, mempool, f))
    ensures Recompute(cfg, e, gross, mempool, f) == e.(snapshot := Recompute(cfg, e, gross, mempool, f).snapshot)
    ensures var s := Recompute(cfg, e, gross, mempool, f).snapshot;
            s.stress == RawStress(s.exposure, s.mempool, s.fragility, Clamp01(e.volEma / 8.0), MarkoutStress(f))
  {
    hide Clamp01, MempoolOk, MultiplierOf;
    if gross.Some? {
      ClampUnit(gross.value / cfg.maxExposure);
    }
    FragilityUnit(cfg, e, f);
    var s := Recompute(cfg, e, gross, mempool, f).snapshot;
    var vol := Clamp01(e.volEma / 8.0);
    ClampUnit(e.volEma / 8.0);
    ClampUnit(RawStress(s.exposure, mempool, s.fragility, vol, MarkoutStress(f)));
    MultiplierFacts(s.stress, s.circuit);
  }

  lemma FragilityUnit(cfg: Config, e: Intel, f: Feedback)
    ensures Unit(Fragility(cfg, e, f)) && Unit(MarkoutStress(f))
  {
    hide Clamp01;
    ClampUnit(0.30 * Clamp01(e.latencyEma / (cfg.latencyRejectMs + 1) as real) + 0.25 * e.failEma + 0.15 * e.rejectEma
              + 0.30 * f.failureRate);
    ClampUnit(0.35 * f.degradation + 0.30 * f.adverseSelection + 0.20 * Clamp01(f.slippageVariance / 36.0)
              + 0.15 * f.partialFillLoss);
  }

  lemma ObserveMarketOk(cfg: Config, e: Intel, hash: nat, volume: real, velocity: Option<real>, gross: real,
                        f: Feedback)
    requires cfg.maxExposure > 0.0 && IntelOk(e)
    ensures IntelOk(ObserveMarket(cfg, e, hash, volume, velocity, gross, f))
    ensures ObserveMarket(cfg, e, hash, volume, velocity, gross, f).failEma == e.failEma
  {
    hide Recompute, MempoolMarket, Ema, MempoolOk, SnapshotOk, RawScore, Clamp01, AbsR;
    var v := if velocity.Some? then velocity.value else 0.0;
    var vol := if velocity.Some? then Ema(e.volEma, AbsR(v) * 1000.0, 0.05) else e.volEma;
    var m := MempoolMarket(e.mempool, hash, volume, v);
    MempoolStaysUnit(e.mempool, hash, volume, v, 0.0);
    ClampUnit(RawScore(m));
    SnapshotUnit(e.snapshot);
    RecomputeOk(cfg, e.(volEma := vol, mempool := m), Some(gross), Score(m), f);
  }

  lemma SnapshotUnit(s: Snapshot)
    requires SnapshotOk(s)
    ensures Unit(s.exposure) && Unit(s.mempool) && Unit(s.stress)
  {
  }

  lemma ObserveExecutionOk(cfg: Config, e: Intel, latencyMs: real, penalty: real, rejected: bool, f: Feedback)
    requires cfg.maxExposure > 0.0 && IntelOk(e)
    ensures var t := ObserveExecution(cfg, e, latencyMs, penalty, rejected, f);
            IntelOk(t) && t.failEma == if rejected then Ema(e.failEma, 1.0, 0.10) else Ema(e.failEma, 0.0, 0.04)
  {
    hide Recompute, MempoolFailure, MempoolSuccess, MempoolLatency, Ema, MempoolOk, SnapshotOk, RawScore, Clamp01;
    var m0 := MempoolLatency(e.mempool, penalty);
    MempoolStaysUnit(e.mempool, 0, 0.0, 0.0, penalty);
    MempoolStaysUnit(m0, 0, 0.0, 0.0, 0.0);
    EmaUnit(e.failEma, 1.0, 0.10);
    EmaUnit(e.failEma, 0.0, 0.04);
    SnapshotUnit(e.snapshot);
    var slowed := e.(latencyEma := Ema(e.latencyEma, latencyMs, 0.08), mempool := m0);
    if rejected {
      var m := MempoolFailure(m0);
      ClampUnit(RawScore(m));
      RecomputeOk(cfg, slowed.(
                  rejectEma := Ema(e.rejectEma, 1.0, 0.10), failEma := Ema(e.failEma, 1.0, 0.10),
                  inclusionEma := Ema(e.inclusionEma, 0.0, 0.06), mempool := m), None, Score(m), f);
    } else {
      var m := MempoolSuccess(m0);
      ClampUnit(RawScore(m));
      RecomputeOk(cfg, slowed.(
                  inclusionEma := Ema(e.inclusionEma, 1.0, 0.04), rejectEma := Ema(e.rejectEma, 0.0, 0.04),
                  failEma := Ema(e.failEma, 0.0, 0.04), mempool := m), None, Score(m), f);
    }
  }

  // ----- decisions -----

  datatype Reason =
    | KillSwitch | BreakerForced | NotExecute | StaleSignal | BadSize | DailyLoss | MissingPrice
    | InsufficientBalance | PositionLimit | DynamicPositionLimit
    | SystemStress | MarkoutBelowThreshold | HostileRegime | ContaminatedRegime | MultiplierZero | Granted

  datatype Decision = Decision(allowed: bool, multiplier: real, reason: Reason)

  /** The expected-value figures of one evaluation. */
  datatype Values = Values(ev: real, adjustedEv: real, timeDecay: real)

  datatype Request = Request(
    size: real, price: Option<real>, execute: bool, inTime: bool, reduceOnly: bool, expectedMarkout: real)

  function Threshold(s: Snapshot): real {
    0.001 + 0.20 * s.mempool + 0.18 * s.latencyPenalty + 0.20 * Clamp01(s.feedback.slippageVariance / 36.0)
    + 0.22 * s.feedback.degradation + 0.20 * s.feedback.adverseSelection
  }

  function Capped(m: real, when: bool, cap: real): real {
    if when then MinR(m, cap) else m
  }

  /** The successive caps on the snapshot's multiplier. */
  function CappedMultiplier(s: Snapshot, v: Values, reduceOnly: bool): real {
    var a := Capped(s.multiplier, s.feedback.regime == DegradedRegime, 0.55);
    var b := Capped(a, v.adjustedEv < v.ev * 0.15, 0.55);
    var c := Capped(b, v.timeDecay < 0.55, 0.45);
    var d := Capped(c, s.circuit == Degraded, 0.50);
    var e := Capped(d, s.mempool > 0.65, 0.65);
    var f := Capped(e, s.fragility > 0.55, 0.55);
    Capped(f, s.exposure > 0.70 && !reduceOnly, 0.50)
  }

  function Evaluate(s: Snapshot, req: Request, v: Values): Decision {
    var markout := if req.expectedMarkout == 0.0 then s.feedback.expectedMarkout else req.expectedMarkout;
    if s.circuit == Open || s.stress > 0.85 then Decision(false, 0.0, SystemStress)
    else if !req.reduceOnly && markout <= Threshold(s) then Decision(false, 0.0, MarkoutBelowThreshold)
    else if s.feedback.regime == Hostile && !req.reduceOnly then Decision(false, 0.0, HostileRegime)
    else if s.feedback.regime == Contaminated && !req.reduceOnly then Decision(false, 0.0, ContaminatedRegime)
    else
      var m := CappedMultiplier(s, v, req.reduceOnly);
      if m <= 0.05 && !req.reduceOnly then Decision(false, 0.0, MultiplierZero) else Decision(true, m, Granted)
  }

  datatype Gates = Gates(
    kill: bool, forcedBreaker: bool, dailyPnl: real, lastMark: real, availableBalance: real, leverage: real)

  /** The price the limits are checked at. */
  function CheckedPrice(g: Gates, req: Request): real {
    if req.price.Some? then req.price.value else g.lastMark
  }

  function PositionCap(cfg: Config, s: Snapshot): real {
    if s.stress > 0.55 then cfg.maxPosition * 0.65 else cfg.maxPosition
  }

  /** `Service.Evaluate`: the gates in their order, then the intelligence. */
  function Gate(cfg: Config, g: Gates, s: Snapshot, req: Request, v: Values): Decision {
    var price := CheckedPrice(g, req);
    var notional := req.size * price;
    var leverage := if g.leverage <= 0.0 then 1.0 else g.leverage;
    if g.kill then Decision(false, 0.0, KillSwitch)
    else if g.forcedBreaker then Decision(false, 0.0, BreakerForced)
    else if !req.execute then Decision(false, 0.0, NotExecute)
    else if !req.inTime then Decision(false, 0.0, StaleSignal)
    else if req.size <= 0.0 then Decision(false, 0.0, BadSize)
    else if g.dailyPnl <= -cfg.maxDailyLoss then Decision(false, 0.0, DailyLoss)
    else if price <= 0.0 then Decision(false, 0.0, MissingPrice)
    else if g.availableBalance > 0.0 && !req.reduceOnly && notional > g.availableBalance * leverage then
      Decision(false, 0.0, InsufficientBalance)
    else if !req.reduceOnly && notional > cfg.maxPosition then Decision(false, 0.0, PositionLimit)
    else if !req.reduceOnly && notional > PositionCap(cfg, s) then Decision(false, 0.0, DynamicPositionLimit)
    else Evaluate(s, req, v)
  }

  /** The size the gateway goes on with. */
  function SentSize(req: Request, d: Decision): real {
    if 0.0 < d.multiplier < 1.0 && !req.reduceOnly then req.size * d.multiplier else req.size
  }

  lemma CappedFacts(s: Snapshot, v: Values, reduceOnly: bool)
    requires SnapshotOk(s) && s.circuit != Open && s.stress <= 0.85
    ensures 0.4475 <= CappedMultiplier(s, v, reduceOnly) <= 1.0
  {
    hide MultiplierOf;
    MultiplierFacts(s.stress, s.circuit);
  }

  /**
   For every stored snapshot: the gate never answers "multiplier zero"; an open circuit lets nothing
   through; an allowed request gets a multiplier in [0.4475, 1]; and an allowed request that is not
   reduce-only is sent with between 0.4475 and 1 times its size, within the position limit, and within
   the tightened limit under stress, at the price the limit was checked at.
   */
  lemma AllowedIsBounded(cfg: Config, g: Gates, s: Snapshot, req: Request, v: Values)
    requires SnapshotOk(s)
    ensures var d := Gate(cfg, g, s, req, v);
            && d.reason != MultiplierZero
            && (s.circuit == Open ==> !d.allowed)
            && (d.allowed ==> 0.4475 <= d.multiplier <= 1.0 && !g.kill && !g.forcedBreaker && req.execute && req.inTime)
            && (d.allowed && !req.reduceOnly ==>
                  && 0.4475 * req.size <= SentSize(req, d) <= req.size
                  && SentSize(req, d) * CheckedPrice(g, req) <= PositionCap(cfg, s)
                  && SentSize(req, d) * CheckedPrice(g, req) <= cfg.maxPosition)
  {
    hide Evaluate, SnapshotOk, PositionCap, CheckedPrice, SentSize;
    var d := Gate(cfg, g, s, req, v);
    EvaluateFacts(s, req, v);
    if d.allowed && !req.reduceOnly {
      SentBound(req, d, CheckedPrice(g, req), PositionCap(cfg, s));
      SentBound(req, d, CheckedPrice(g, req), cfg.maxPosition);
    }
  }

  lemma EvaluateFacts(s: Snapshot, req: Request, v: Values)
    requires SnapshotOk(s)
    ensures var d := Evaluate(s, req, v);
            && d.reason != MultiplierZero
            && (s.circuit == Open ==> !d.allowed)
            && (d.allowed ==> 0.4475 <= d.multiplier <= 1.0)
  {
    hide CappedMultiplier, MultiplierOf, Threshold;
    if s.circuit != Open && s.stress <= 0.85 {
      CappedFacts(s, v, req.reduceOnly);
    }
  }

  lemma SentBound(req: Request, d: Decision, price: real, cap: real)
    requires req.size > 0.0 && price > 0.0 && 0.4475 <= d.multiplier <= 1.0 && !req.reduceOnly
    requires req.size * price <= cap
    ensures 0.4475 * req.size <= SentSize(req, d) <= req.size
    ensures SentSize(req, d) * price <= cap
  {
    var sent := SentSize(req, d);
    assert sent == req.size * d.multiplier;
    assert 0.4475 * req.size <= sent <= req.size;
    assert (req.size - sent) * price >= 0.0;
  }

  // ----- the closed loop, one call after another -----

  datatype Outcome =
    | AlreadyReserved
    | SendFails(latencyMs: real, penalty: real, feedback: Feedback)
    | SendSucceeds(latencyMs: real, penalty: real, feedback: Feedback, fills: seq<Feedback>)

  datatype Event =
    | Submit(gates: Gates, req: Request, values: Values, outcome: Outcome)
    | Market(hash: nat, volume: real, velocity: Option<real>, gross: real, feedback: Feedback)
    | Executed(feedback: Feedback)

  /** Ghost history beside the engine: how often SendOrder was called, and whether a call returned an error. */
  datatype Loop = Loop(intel: Intel, sends: nat, failed: bool)

  function Fills(cfg: Config, e: Intel, fills: seq<Feedback>): Intel
    requires cfg.maxExposure > 0.0
  {
    if fills == [] then e else ObserveFeedback(cfg, Fills(cfg, e, fills[..|fills|-1]), fills[|fills|-1])
  }

  function LoopStep(cfg: Config, l: Loop, ev: Event): Loop
    requires cfg.maxExposure > 0.0
  {
    match ev
    case Market(hash, volume, velocity, gross, f) =>
      l.(intel := ObserveMarket(cfg, l.intel, hash, volume, velocity, gross, f))
    case Executed(f) => l.(intel := ObserveFeedback(cfg, l.intel, f))
    case Submit(gates, req, values, outcome) =>
      if !Gate(cfg, gates, l.intel.snapshot, req, values).allowed then l
      else
        match outcome {
          case AlreadyReserved => l
          case SendFails(latency, penalty, f) =>
            Loop(ObserveExecution(cfg, l.intel, latency, penalty, true, f), l.sends + 1, true)
          case SendSucceeds(latency, penalty, f, fills) =>
            Loop(Fills(cfg, ObserveExecution(cfg, l.intel, latency, penalty, false, f), fills), l.sends + 1, l.failed)
        }
  }

  function RunLoop(cfg: Config, events: seq<Event>): Loop
    requires cfg.maxExposure > 0.0
  {
    if events == [] then Loop(FRESH, 0, false)
    else LoopStep(cfg, RunLoop(cfg, events[..|events|-1]), events[|events|-1])
  }

  /** The latch: failEma is 1 once a send has failed and 0 before. */
  ghost predicate LoopOk(l: Loop) {
    IntelOk(l.intel) && l.intel.failEma == if l.failed then 1.0 else 0.0
  }

  lemma ObserveFeedbackOk(cfg: Config, e: Intel, f: Feedback)
    requires cfg.maxExposure > 0.0 && IntelOk(e)
    ensures IntelOk(ObserveFeedback(cfg, e, f)) && ObserveFeedback(cfg, e, f).failEma == e.failEma
  {
    hide Recompute, MempoolOk, SnapshotOk;
    SnapshotUnit(e.snapshot);
    RecomputeOk(cfg, e, None, e.snapshot.mempool, f);
  }

  lemma {:induction false} FillsOk(cfg: Config, e: Intel, fills: seq<Feedback>)
    requires cfg.maxExposure > 0.0 && IntelOk(e)
    ensures IntelOk(Fills(cfg, e, fills)) && Fills(cfg, e, fills).failEma == e.failEma
  {
    hide IntelOk, ObserveFeedback;
    if fills != [] {
      FillsOk(cfg, e, fills[..|fills|-1]);
      ObserveFeedbackOk(cfg, Fills(cfg, e, fills[..|fills|-1]), fills[|fills|-1]);
    }
  }

  /** One event keeps the latch, and after a failure sends nothing. */
  lemma LoopStepOk(cfg: Config, l: Loop, ev: Event)
    requires cfg.maxExposure > 0.0 && LoopOk(l)
    ensures var t := LoopStep(cfg, l, ev);
            LoopOk(t) && (l.failed ==> t.failed && t.sends == l.sends && t.intel.snapshot.circuit == Open)
  {
    hide ObserveMarket, ObserveExecution, ObserveFeedback, Fills, Gate, MempoolOk, SnapshotOk;
    match ev
    case Market(hash, volume, velocity, gross, f) => ObserveMarketOk(cfg, l.intel, hash, volume, velocity, gross, f);
    case Executed(f) => ObserveFeedbackOk(cfg, l.intel, f);
    case Submit(gates, req, values, outcome) =>
      AllowedIsBounded(cfg, gates, l.intel.snapshot, req, values);
      match outcome {
        case AlreadyReserved =>
        case SendFails(latency, penalty, f) => ObserveExecutionOk(cfg, l.intel, latency, penalty, true, f);
        case SendSucceeds(latency, penalty, f, fills) =>
          ObserveExecutionOk(cfg, l.intel, latency, penalty, false, f);
          FillsOk(cfg, ObserveExecution(cfg, l.intel, latency, penalty, false, f), fills);
      }
  }

  lemma FreshOk()
    ensures LoopOk(Loop(FRESH, 0, false))
  {
  }

  lemma {:induction false} RunLoopOk(cfg: Config, events: seq<Event>)
    requires cfg.maxExposure > 0.0
    ensures LoopOk(RunLoop(cfg, events))
  {
    hide LoopStep, LoopOk;
    if events == [] {
      FreshOk();
    } else {
      RunLoopOk(cfg, events[..|events|-1]);
      LoopStepOk(cfg, RunLoop(cfg, events[..|events|-1]), events[|events|-1]);
    }
  }

  /**
   In every sequential run the failure average is 0 or 1, and once one SendOrder has returned an
   error the circuit is OPEN ever after and SendOrder is never called again.
   */
  lemma {:induction false} FailureLatches(cfg: Config, events: seq<Event>, later: seq<Event>)
    requires cfg.maxExposure > 0.0
    ensures var l := RunLoop(cfg, events); l.intel.failEma == 0.0 || l.intel.failEma == 1.0
    ensures var l, t := RunLoop(cfg, events), RunLoop(cfg, events + later);
            l.failed ==> t.failed && t.sends == l.sends && t.intel.snapshot.circuit == Open
  {
    hide LoopStep, MempoolOk, SnapshotOk;
    RunLoopOk(cfg, events);
    if later == [] {
      assert events + later == events;
    } else {
      var n := |later| - 1;
      FailureLatches(cfg, events, later[..n]);
      assert (events + later)[..|events| + n] == events + later[..n];
      RunLoopOk(cfg, events + later[..n]);
      LoopStepOk(cfg, RunLoop(cfg, events + later[..n]), later[n]);
    }
  }
}

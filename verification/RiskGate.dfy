/** What passes the risk gate, in plain figures, and what that means over runs of the service. */
module RiskGate {
  import opened Numeric
  import R = RiskCircuit
  import F = Feedback

  /** The markout a request expects: its own, or the feedback's average when it names none. */
  function Expected(s: R.Snapshot, req: R.Request): real {
    if req.expectedMarkout == 0.0 then s.feedback.expectedMarkout else req.expectedMarkout
  }

  function PriceOf(g: R.Gates, req: R.Request): real {
    if req.price.Some? then req.price.value else g.lastMark
  }

  /** What is asked of every order that may add to a position. */
  predicate MayAdd(cfg: R.Config, g: R.Gates, s: R.Snapshot, req: R.Request) {
    var notional := req.size * PriceOf(g, req);
    && (g.availableBalance > 0.0 ==> notional <= g.availableBalance * if g.leverage > 0.0 then g.leverage else 1.0)
    && notional <= cfg.maxPosition && (s.stress > 0.55 ==> notional <= cfg.maxPosition * 0.65)
    && Expected(s, req) > R.Threshold(s)
    && s.feedback.regime != R.Hostile && s.feedback.regime != R.Contaminated
  }

  /**
   For every stored snapshot, exactly what is allowed: nothing with a switch thrown, undecided, stale, of no size, at
   no price, beyond the daily loss, with the circuit open or the stress above 0.85; and, unless it only reduces,
   nothing beyond balance or limit, expecting no more than the threshold, or in a hostile or contaminated regime.
   */
  lemma AllowedIff(cfg: R.Config, g: R.Gates, s: R.Snapshot, req: R.Request, v: R.Values)
    requires R.SnapshotOk(s)
    ensures R.Gate(cfg, g, s, req, v).allowed <==>
              && !g.kill && !g.forcedBreaker && req.execute && req.inTime && req.size > 0.0 && PriceOf(g, req) > 0.0
              && g.dailyPnl > -cfg.maxDailyLoss && s.circuit != R.Open && s.stress <= 0.85
              && (req.reduceOnly || MayAdd(cfg, g, s, req))
  {
    hide R.Threshold, R.CappedMultiplier, R.SnapshotOk;
    if s.circuit != R.Open && s.stress <= 0.85 {
      R.CappedFacts(s, v, req.reduceOnly);
    }
  }

  /** The threshold is 0.001 without penalties and rises with each of them. */
  lemma ThresholdMeans(s: R.Snapshot, more: real)
    requires more > 0.0
    ensures R.Threshold(R.FRESH.snapshot) == 0.001
    ensures R.Threshold(s.(mempool := s.mempool + more)) > R.Threshold(s)
    ensures R.Threshold(s.(latencyPenalty := s.latencyPenalty + more)) > R.Threshold(s)
    ensures var f := s.feedback;
            && R.Threshold(s.(feedback := f.(degradation := f.degradation + more))) > R.Threshold(s)
            && R.Threshold(s.(feedback := f.(adverseSelection := f.adverseSelection + more))) > R.Threshold(s)
            && R.Threshold(s.(feedback := f.(slippageVariance := f.slippageVariance + more))) >= R.Threshold(s)
            && (0.0 <= f.slippageVariance && f.slippageVariance + more <= 36.0 ==>
                  R.Threshold(s.(feedback := f.(slippageVariance := f.slippageVariance + more))) > R.Threshold(s))
  {
  }

  /** What each penalty adds to the threshold. */
  lemma ThresholdShares(s: R.Snapshot, more: real)
    ensures R.Threshold(s.(mempool := s.mempool + more)) == R.Threshold(s) + 0.20 * more
    ensures R.Threshold(s.(latencyPenalty := s.latencyPenalty + more)) == R.Threshold(s) + 0.18 * more
    ensures var f := s.feedback;
            && R.Threshold(s.(feedback := f.(degradation := f.degradation + more))) == R.Threshold(s) + 0.22 * more
            && R.Threshold(s.(feedback := f.(adverseSelection := f.adverseSelection + more)))
               == R.Threshold(s) + 0.20 * more
            && R.Threshold(s.(feedback := f.(slippageVariance := 36.0)))
               == R.Threshold(s.(feedback := f.(slippageVariance := 0.0))) + 0.20
  {
  }

  /** The caps that apply, each with the figure that calls for it. */
  predicate CapApplies(s: R.Snapshot, v: R.Values, reduceOnly: bool, cap: real) {
    || (cap == 0.55 && s.feedback.regime == R.DegradedRegime)
    || (cap == 0.55 && v.adjustedEv < v.ev * 0.15)
    || (cap == 0.45 && v.timeDecay < 0.55)
    || (cap == 0.50 && s.circuit == R.Degraded)
    || (cap == 0.65 && s.mempool > 0.65)
    || (cap == 0.55 && s.fragility > 0.55)
    || (cap == 0.50 && s.exposure > 0.70 && !reduceOnly)
  }

  /** The multiplier an allowed request gets is the least of the snapshot's own and of every cap that applies. */
  lemma MultiplierIsLeast(cfg: R.Config, g: R.Gates, s: R.Snapshot, req: R.Request, v: R.Values)
    ensures var d := R.Gate(cfg, g, s, req, v);
            d.allowed ==>
              && d.multiplier <= s.multiplier
              && (forall cap :: CapApplies(s, v, req.reduceOnly, cap) ==> d.multiplier <= cap)
              && (d.multiplier == s.multiplier || CapApplies(s, v, req.reduceOnly, d.multiplier))
  {
    hide R.Threshold, R.PositionCap;
  }

  // ----- the circuit's figures -----

  datatype Parts = Parts(exposure: real, mempool: real, fragility: real, vol: real, markout: real)

  function Stress(p: Parts): real {
    R.RawStress(p.exposure, p.mempool, p.fragility, p.vol, p.markout)
  }

  /** Stress is 0 with every component at 0 and 1 with all at 1. */
  lemma StressEnds()
    ensures Stress(Parts(0.0, 0.0, 0.0, 0.0, 0.0)) == 0.0 && Stress(Parts(1.0, 1.0, 1.0, 1.0, 1.0)) == 1.0
  {
  }

  /** It rises with each of them. */
  lemma StressRises(p: Parts, q: Parts)
    requires p.exposure <= q.exposure && p.mempool <= q.mempool && p.fragility <= q.fragility
    requires p.vol <= q.vol && p.markout <= q.markout && p != q
    ensures Stress(p) < Stress(q)
  {
  }

  /** What each component adds to it. */
  lemma StressShares(p: Parts, more: real)
    ensures Stress(p.(exposure := p.exposure + more)) == Stress(p) + 0.20 * more
    ensures Stress(p.(mempool := p.mempool + more)) == Stress(p) + 0.20 * more
    ensures Stress(p.(fragility := p.fragility + more)) == Stress(p) + 0.25 * more
    ensures Stress(p.(vol := p.vol + more)) == Stress(p) + 0.15 * more
    ensures Stress(p.(markout := p.markout + more)) == Stress(p) + 0.20 * more
  {
  }

  /** What each average adds to the mempool score, which is 1 when all are. */
  lemma ScoreShares(m: R.Mempool, more: real)
    ensures R.RawScore(R.CALM) == 0.0 && R.RawScore(R.Mempool(1.0, 1.0, 1.0, 1.0, m.competition, 1.0, 0, true)) == 1.0
    ensures R.RawScore(m.(burst := m.burst + more)) == R.RawScore(m) + 0.34 * more
    ensures R.RawScore(m.(cluster := m.cluster + more)) == R.RawScore(m) + 0.20 * more
    ensures R.RawScore(m.(fail := m.fail + more)) == R.RawScore(m) + 0.20 * more
    ensures R.RawScore(m.(outbid := m.outbid + more)) == R.RawScore(m) + 0.14 * more
  {
  }

  /** What full failures, rejections and a full failure rate cost in fragility, and a full latency. */
  lemma FragilityShares(cfg: R.Config, e: R.Intel, f: R.Feedback)
    requires R.Unit(e.failEma) && R.Unit(e.rejectEma) && R.Unit(f.failureRate)
    ensures R.Fragility(cfg, e.(failEma := 1.0), f) - R.Fragility(cfg, e.(failEma := 0.0), f) == 0.25
    ensures R.Fragility(cfg, e.(rejectEma := 1.0), f) - R.Fragility(cfg, e.(rejectEma := 0.0), f) == 0.15
    ensures R.Fragility(cfg, e, f.(failureRate := 1.0)) - R.Fragility(cfg, e, f.(failureRate := 0.0)) == 0.30
    ensures R.Fragility(cfg, e.(latencyEma := (cfg.latencyRejectMs + 1) as real), f)
            - R.Fragility(cfg, e.(latencyEma := 0.0), f) == 0.30
  {
    hide R.Clamp01;
    var n := (cfg.latencyRejectMs + 1) as real;
    assert n / n == 1.0 && 0.0 / n == 0.0;
    ClampsUnit();
  }

  /** What each part costs in markout stress. */
  lemma MarkoutShares(f: R.Feedback)
    requires R.Unit(f.degradation) && R.Unit(f.adverseSelection) && R.Unit(f.partialFillLoss)
    ensures R.MarkoutStress(f.(degradation := 1.0)) - R.MarkoutStress(f.(degradation := 0.0)) == 0.35
    ensures R.MarkoutStress(f.(adverseSelection := 1.0)) - R.MarkoutStress(f.(adverseSelection := 0.0)) == 0.30
    ensures R.MarkoutStress(f.(slippageVariance := 36.0)) - R.MarkoutStress(f.(slippageVariance := 0.0)) == 0.20
    ensures R.MarkoutStress(f.(partialFillLoss := 1.0)) - R.MarkoutStress(f.(partialFillLoss := 0.0)) == 0.15
  {
    hide R.Clamp01;
    ClampsUnit();
  }

  lemma ClampsUnit()
    ensures forall v :: 0.0 <= R.Clamp01(v) <= 1.0 && (0.0 <= v <= 1.0 ==> R.Clamp01(v) == v)
  {
  }

  /**
   Fragility does not fall as latency, failures, rejections or the failure rate rise; nor markout stress with
   its parts.
   */
  lemma FragilityRises(cfg: R.Config, e: R.Intel, f: R.Feedback, more: real)
    requires more >= 0.0
    ensures R.Fragility(cfg, e.(latencyEma := e.latencyEma + more), f) >= R.Fragility(cfg, e, f)
    ensures R.Fragility(cfg, e.(failEma := e.failEma + more), f) >= R.Fragility(cfg, e, f)
    ensures R.Fragility(cfg, e.(rejectEma := e.rejectEma + more), f) >= R.Fragility(cfg, e, f)
    ensures R.Fragility(cfg, e, f.(failureRate := f.failureRate + more)) >= R.Fragility(cfg, e, f)
    ensures R.MarkoutStress(f.(degradation := f.degradation + more)) >= R.MarkoutStress(f)
    ensures R.MarkoutStress(f.(adverseSelection := f.adverseSelection + more)) >= R.MarkoutStress(f)
    ensures R.MarkoutStress(f.(slippageVariance := f.slippageVariance + more)) >= R.MarkoutStress(f)
    ensures R.MarkoutStress(f.(partialFillLoss := f.partialFillLoss + more)) >= R.MarkoutStress(f)
  {
    hide R.Clamp01;
    var n := (cfg.latencyRejectMs + 1) as real;
    Shares(e.latencyEma, more, n);
    ClampRises(e.latencyEma / n, (e.latencyEma + more) / n);
    Shares(f.slippageVariance, more, 36.0);
    ClampRises(f.slippageVariance / 36.0, (f.slippageVariance + more) / 36.0);
    ClampsRise();
  }

  lemma Shares(a: real, more: real, n: real)
    requires more >= 0.0 && n > 0.0
    ensures a / n <= (a + more) / n
  {
    assert (a + more) / n - a / n == more / n;
  }

  lemma ClampRises(a: real, b: real)
    requires a <= b
    ensures R.Clamp01(a) <= R.Clamp01(b)
  {
  }

  lemma ClampsRise()
    ensures forall a, b :: a <= b ==> R.Clamp01(a) <= R.Clamp01(b)
  {
  }

  /**
   A failed send raises the mempool's failure and outbid pressures, a good one lowers them, and neither
   touches bursts.
   */
  lemma PressureMoves(m: R.Mempool)
    requires R.MempoolOk(m)
    ensures var bad, good := R.MempoolFailure(m), R.MempoolSuccess(m);
            && bad.fail >= m.fail >= good.fail && bad.outbid >= m.outbid >= good.outbid
            && bad.competition >= m.competition
            && good.latencyPenalty <= m.latencyPenalty == bad.latencyPenalty
            && bad.burst == good.burst == m.burst && bad.cluster == good.cluster == m.cluster
            && R.RawScore(bad) >= R.RawScore(m) >= R.RawScore(good)
  {
    hide R.Ema;
    EmaTowards(m.fail, 1.0, 0.12);
    EmaTowards(m.outbid, 1.0, 0.10);
    EmaTowards(m.competition, 1.0, 0.08);
    EmaTowards(m.fail, 0.0, 0.04);
    EmaTowards(m.outbid, 0.0, 0.03);
    EmaTowards(m.latencyPenalty, 0.0, 0.03);
  }

  /** By how much each send result and each latency moves the averages. */
  lemma PressureShares(m: R.Mempool, penalty: real)
    ensures var bad, good, slow := R.MempoolFailure(m), R.MempoolSuccess(m), R.MempoolLatency(m, penalty);
            && Moved(m.fail, bad.fail, 1.0, 0.12) && Moved(m.outbid, bad.outbid, 1.0, 0.10)
            && Moved(m.competition, bad.competition, 1.0, 0.08)
            && Moved(m.fail, good.fail, 0.0, 0.04) && Moved(m.outbid, good.outbid, 0.0, 0.03)
            && Moved(m.latencyPenalty, good.latencyPenalty, 0.0, 0.03)
            && (0.0 <= penalty <= 1.0 ==> Moved(m.latencyPenalty, slow.latencyPenalty, penalty, 0.08))
            && slow == m.(latencyPenalty := slow.latencyPenalty)
  {
    hide R.Ema, Moved;
    EmaMoves(m.fail, 1.0, 0.12);
    EmaMoves(m.outbid, 1.0, 0.10);
    EmaMoves(m.competition, 1.0, 0.08);
    EmaMoves(m.fail, 0.0, 0.04);
    EmaMoves(m.outbid, 0.0, 0.03);
    EmaMoves(m.latencyPenalty, 0.0, 0.03);
    EmaMoves(m.latencyPenalty, R.Clamp01(penalty), 0.08);
  }

  /** An average never moves away from the value it takes in. */
  lemma EmaTowards(prev: real, value: real, alpha: real)
    requires 0.0 <= alpha <= 1.0
    ensures prev <= value ==> prev <= R.Ema(prev, value, alpha) <= value
    ensures value <= prev ==> value <= R.Ema(prev, value, alpha) <= prev
  {
    assert prev * (1.0 - alpha) + value * alpha == prev + (value - prev) * alpha;
    if prev <= value {
      ProductSign(value - prev, alpha);
      ProductSign(value - prev, 1.0 - alpha);
    } else {
      ProductSign(prev - value, alpha);
      ProductSign(prev - value, 1.0 - alpha);
    }
  }

  /** An event without a price of its own is priced midway between its quotes. */
  lemma QuotePriceMeans(q: R.Quote)
    ensures q.price > 0.0 ==> R.QuotePrice(q) == q.price
    ensures q.price <= 0.0 ==> R.QuotePrice(q) - q.bestBid == q.bestAsk - R.QuotePrice(q)
  {
  }

  /**
   The velocity times the time passed, in units of the last price, is the change of price; there is none
   without either.
   */
  lemma VelocityMeans(lastPrice: real, lastTime: Option<real>, price: real, now: real)
    ensures var v := R.Velocity(lastPrice, lastTime, price, now);
            && (v.Some? <==> lastPrice > 0.0 && lastTime.Some? && now > lastTime.value)
            && (v.Some? ==> Times(Times(v.value, now - lastTime.value), lastPrice) == price - lastPrice)
  {
    var v := R.Velocity(lastPrice, lastTime, price, now);
    if v.Some? {
      Undivide((price - lastPrice) / lastPrice, now - lastTime.value);
      Undivide(price - lastPrice, lastPrice);
    }
  }

  /** Two market events of one symbol in a row raise the cluster pressure, a change of symbol lowers it. */
  lemma MarketPressure(m: R.Mempool, hash: nat, volume: real, velocity: real)
    requires R.MempoolOk(m)
    ensures var t := R.MempoolMarket(m, hash, volume, velocity);
            && (m.initialized && hash == m.lastSymbolHash ==> t.cluster >= m.cluster)
            && (!(m.initialized && hash == m.lastSymbolHash) ==> t.cluster <= m.cluster)
            && (AbsR(velocity) / 80.0 + volume / 25.0 >= 1.0 ==> t.burst >= m.burst)
            && (AbsR(velocity) / 80.0 + volume / 25.0 <= 0.0 ==> t.burst <= m.burst)
            && t.fail == m.fail && t.outbid == m.outbid && t.latencyPenalty == m.latencyPenalty
            && t.initialized && t.lastSymbolHash == hash
  {
    hide R.Ema, AbsR;
    EmaTowards(m.cluster, 1.0, 0.04);
    EmaTowards(m.cluster, 0.0, 0.04);
    EmaTowards(m.burst, R.Clamp01(AbsR(velocity) / 80.0 + volume / 25.0), 0.08);
  }

  /** By how much an event moves them: the burst by its size, the cluster by its symbol, the competition by both. */
  lemma MarketShares(m: R.Mempool, hash: nat, volume: real, velocity: real)
    requires 0.0 <= AbsR(velocity) / 80.0 + volume / 25.0 <= 1.0 && R.Unit(m.cluster)
    ensures var t, size := R.MempoolMarket(m, hash, volume, velocity), AbsR(velocity) / 80.0 + volume / 25.0;
            && Moved(m.burst, t.burst, size, 0.08)
            && Moved(m.cluster, t.cluster, if m.initialized && hash == m.lastSymbolHash then 1.0 else 0.0, 0.04)
            && Moved(m.competition, t.competition, 0.60 * size + 0.40 * t.cluster, 0.06)
  {
    hide R.Ema, AbsR, Moved;
    var size := AbsR(velocity) / 80.0 + volume / 25.0;
    var cluster := if m.initialized && hash == m.lastSymbolHash then 1.0 else 0.0;
    EmaMoves(m.burst, size, 0.08);
    EmaMoves(m.cluster, cluster, 0.04);
    R.EmaUnit(m.cluster, cluster, 0.04);
    EmaMoves(m.competition, 0.60 * size + 0.40 * R.Ema(m.cluster, cluster, 0.04), 0.06);
  }

  // ----- over runs -----

  /** The snapshot's penalties are penalties. */
  ghost predicate Penalizes(s: R.Snapshot) {
    R.Unit(s.latencyPenalty) && s.feedback.degradation >= 0.0 && s.feedback.adverseSelection >= 0.0
  }

  ghost predicate FeedbackOk(f: R.Feedback) {
    f.degradation >= 0.0 && f.adverseSelection >= 0.0
  }

  lemma RecomputePenalizes()
    ensures forall cfg: R.Config, e, gross, mempool, f ::
              cfg.maxExposure > 0.0 && FeedbackOk(f) ==> Penalizes(R.Recompute(cfg, e, gross, mempool, f).snapshot)
  {
    hide R.RawStress, R.Fragility, R.MarkoutStress, R.CircuitOf, R.MultiplierOf;
  }

  /** Above a threshold of at least 0.001 nothing passes that expects a loss. */
  lemma AllowedExpectsGain(cfg: R.Config, g: R.Gates, s: R.Snapshot, req: R.Request, v: R.Values)
    requires R.SnapshotOk(s) && Penalizes(s)
    ensures R.Threshold(s) >= 0.001
    ensures R.Gate(cfg, g, s, req, v).allowed && !req.reduceOnly ==> Expected(s, req) > 0.001
  {
    hide R.Gate;
    AllowedIff(cfg, g, s, req, v);
  }

  ghost predicate EventOk(ev: R.Event) {
    match ev
    case Submit(_, _, _, outcome) =>
      && (outcome.SendFails? ==> FeedbackOk(outcome.feedback))
      && (outcome.SendSucceeds? ==> FeedbackOk(outcome.feedback) && forall f :: f in outcome.fills ==> FeedbackOk(f))
    case Market(_, _, _, _, f) => FeedbackOk(f)
    case Executed(f) => FeedbackOk(f)
  }

  lemma {:induction false} FillsPenalize(cfg: R.Config, e: R.Intel, fills: seq<R.Feedback>)
    requires cfg.maxExposure > 0.0 && Penalizes(e.snapshot) && forall f :: f in fills ==> FeedbackOk(f)
    ensures Penalizes(R.Fills(cfg, e, fills).snapshot)
  {
    hide R.Recompute, Penalizes, FeedbackOk;
    if fills != [] {
      assert fills[|fills|-1] in fills;
      FillsPenalize(cfg, e, fills[..|fills|-1]);
      RecomputePenalizes();
    }
  }

  lemma StepPenalizes(cfg: R.Config, l: R.Loop, ev: R.Event)
    requires cfg.maxExposure > 0.0 && Penalizes(l.intel.snapshot) && EventOk(ev)
    ensures Penalizes(R.LoopStep(cfg, l, ev).intel.snapshot)
  {
    hide R.Recompute, Penalizes, FeedbackOk, R.Gate, R.Ema, R.MempoolMarket, R.MempoolFailure, R.MempoolSuccess,
         R.MempoolLatency, R.Score, R.Fills;
    RecomputePenalizes();
    match ev {
      case Submit(gates, req, values, outcome) =>
        if outcome.SendSucceeds? {
          var sent := R.ObserveExecution(cfg, l.intel, outcome.latencyMs, outcome.penalty, false, outcome.feedback);
          FillsPenalize(cfg, sent, outcome.fills);
        }
      case _ =>
    }
  }

  lemma {:induction false} RunPenalizes(cfg: R.Config, events: seq<R.Event>)
    requires cfg.maxExposure > 0.0 && forall n :: 0 <= n < |events| ==> EventOk(events[n])
    ensures Penalizes(R.RunLoop(cfg, events).intel.snapshot)
  {
    hide R.LoopStep, EventOk;
    if events != [] {
      RunPenalizes(cfg, events[..|events|-1]);
      StepPenalizes(cfg, R.RunLoop(cfg, events[..|events|-1]), events[|events|-1]);
    }
  }

  /** In no run of the loop does a request pass that expects no gain, unless it only reduces. */
  lemma LoopExpectsGain(cfg: R.Config, events: seq<R.Event>, g: R.Gates, req: R.Request, v: R.Values)
    requires cfg.maxExposure > 0.0 && forall n :: 0 <= n < |events| ==> EventOk(events[n])
    ensures var s := R.RunLoop(cfg, events).intel.snapshot;
            R.Gate(cfg, g, s, req, v).allowed && !req.reduceOnly ==> Expected(s, req) > 0.001
  {
    hide R.RunLoop, R.Gate, R.SnapshotOk, Penalizes, EventOk, R.Threshold;
    R.RunLoopOk(cfg, events);
    RunPenalizes(cfg, events);
    AllowedExpectsGain(cfg, g, R.RunLoop(cfg, events).intel.snapshot, req, v);
  }

  // ----- with the real feedback engine -----

  ghost predicate AdverseOk(calls: seq<F.Call>) {
    forall k :: 0 <= k < |calls| ==> forall x :: x in F.EventsOf(calls[k]) ==> x.adverse >= 0.0
  }

  lemma AfterExecution(s: F.State, x: F.Execution)
    requires s.averages.adverse >= 0.0 && x.adverse >= 0.0
    ensures F.OnExecution(s, x).averages.adverse >= 0.0
  {
    hide R.Ema;
    EmaTowards(s.averages.adverse, x.adverse, 0.08);
  }

  lemma SeenOk(s: F.State)
    requires s.averages.adverse >= 0.0
    ensures FeedbackOk(F.Seen(s))
  {
    hide F.Drop;
  }

  lemma {:induction false} SeenAllOk(s: F.State, fills: seq<F.Execution>)
    requires s.averages.adverse >= 0.0 && forall x :: x in fills ==> x.adverse >= 0.0
    ensures F.After(s, fills).averages.adverse >= 0.0
    ensures forall f :: f in F.SeenAll(s, fills) ==> FeedbackOk(f)
  {
    hide F.OnExecution, F.Seen, FeedbackOk;
    if fills != [] {
      var rest, last := fills[..|fills|-1], fills[|fills|-1];
      assert last in fills;
      SeenAllOk(s, rest);
      AfterExecution(F.After(s, rest), last);
      SeenOk(F.After(s, fills));
    }
  }

  lemma ServeAdverse(cfg: R.Config, s: F.Service, call: F.Call)
    requires cfg.maxExposure > 0.0 && s.feedback.averages.adverse >= 0.0
    requires forall x :: x in F.EventsOf(call) ==> x.adverse >= 0.0
    ensures F.Serve(cfg, s, call).feedback.averages.adverse >= 0.0 && EventOk(F.Refined(s, call))
  {
    hide R.Gate, R.ObserveExecution, R.ObserveMarket, R.ObserveFeedback, F.OnExecution, F.Seen, FeedbackOk, F.TakeAll,
         F.SeenAll, F.After;
    SeenOk(s.feedback);
    match call {
      case Executed(x) =>
        assert x in F.EventsOf(call);
        AfterExecution(s.feedback, x);
        SeenOk(F.OnExecution(s.feedback, x));
      case Failed(c) => SeenOk(F.OnFailure(s.feedback, c));
      case Submit(gates, req, values, outcome) =>
        if outcome.SendSucceeds? {
          var sent := s.(intel := R.ObserveExecution(cfg, s.intel, outcome.latencyMs, outcome.penalty, false,
                                                     F.Seen(s.feedback)),
          sends := s.sends + 1);
          SeenAllOk(s.feedback, outcome.fills);
          F.TakeAllRefines(cfg, sent, outcome.fills);
        }
      case _ =>
    }
  }

  lemma {:induction false} RefinedOk(cfg: R.Config, calls: seq<F.Call>)
    requires cfg.maxExposure > 0.0 && AdverseOk(calls)
    ensures F.RunService(cfg, calls).feedback.averages.adverse >= 0.0
    ensures |F.RefinedRun(cfg, calls)| == |calls|
    ensures forall n :: 0 <= n < |calls| ==> EventOk(F.RefinedRun(cfg, calls)[n])
  {
    hide F.Serve, F.Refined, EventOk;
    if calls != [] {
      var past := calls[..|calls|-1];
      assert AdverseOk(past) by {
        forall k | 0 <= k < |past| ensures forall x :: x in F.EventsOf(past[k]) ==> x.adverse >= 0.0 {
          assert past[k] == calls[k];
        }
      }
      RefinedOk(cfg, past);
      ServeAdverse(cfg, F.RunService(cfg, past), calls[|calls|-1]);
    }
  }

  /** So it is for the service, as long as no execution event reports a negative adverse selection. */
  lemma ServiceExpectsGain(cfg: R.Config, calls: seq<F.Call>, g: R.Gates, req: R.Request, v: R.Values)
    requires cfg.maxExposure > 0.0 && AdverseOk(calls)
    ensures var s := F.RunService(cfg, calls).intel.snapshot;
            R.Gate(cfg, g, s, req, v).allowed && !req.reduceOnly ==> Expected(s, req) > 0.001
  {
    hide F.RunService, F.RefinedRun, R.RunLoop, R.Gate, EventOk;
    RefinedOk(cfg, calls);
    F.ServiceRefinesCircuit(cfg, calls);
    LoopExpectsGain(cfg, F.RefinedRun(cfg, calls), g, req, v);
  }

  /** One that does lowers the threshold below zero: after it an order that expects a loss passes. */
  lemma NegativeAdverseAdmitsLoss(cfg: R.Config, x: F.Execution, req: R.Request, v: R.Values)
    requires cfg.maxExposure > 0.0 && cfg.maxPosition >= 1.0 && cfg.maxDailyLoss > 0.0
    requires x == F.Execution(false, 0.0, 0.0, 0.0, 0.0, 0.0, -1.0, 0.0, 0.0, false, 1.0)
    requires req == R.Request(0.5, Some(1.0), true, true, false, -0.1)
    ensures R.Gate(cfg, R.Gates(false, false, 0.0, 0.0, 0.0, 1.0), F.RunService(cfg, [F.Executed(x)]).intel.snapshot,
                   req, v).allowed
  {
    hide R.Recompute, R.Threshold, R.Gate, F.RunService, F.Seen, F.OnExecution, R.SnapshotOk, R.FRESH;
    var f := F.Seen(F.OnExecution(F.FRESH, x));
    NegativeSeen(x);
    FirstExecution(cfg, x);
    FreshAfter(cfg, f);
    AllowedIff(cfg, R.Gates(false, false, 0.0, 0.0, 0.0, 1.0), F.RunService(cfg, [F.Executed(x)]).intel.snapshot, req,
               v);
  }

  lemma FirstExecution(cfg: R.Config, x: F.Execution)
    requires cfg.maxExposure > 0.0
    ensures var s := F.RunService(cfg, [F.Executed(x)]).intel.snapshot;
            s == R.Recompute(cfg, R.FRESH, None, 0.0, F.Seen(F.OnExecution(F.FRESH, x))).snapshot && R.SnapshotOk(s)
  {
    hide R.Recompute, F.Seen, F.OnExecution, R.SnapshotOk, R.RunLoop;
    assert [F.Executed(x)][..0] == [];
    F.ServiceRefinesCircuit(cfg, [F.Executed(x)]);
    R.RunLoopOk(cfg, F.RefinedRun(cfg, [F.Executed(x)]));
  }

  lemma NegativeSeen(x: F.Execution)
    requires x == F.Execution(false, 0.0, 0.0, 0.0, 0.0, 0.0, -1.0, 0.0, 0.0, false, 1.0)
    ensures F.Seen(F.OnExecution(F.FRESH, x)) == R.Feedback(0.0, -1.0, 0.0, 0.0, 0.0, 0.0, R.Safe)
  {
  }

  lemma FreshAfter(cfg: R.Config, f: R.Feedback)
    requires cfg.maxExposure > 0.0 && f == R.Feedback(0.0, -1.0, 0.0, 0.0, 0.0, 0.0, R.Safe)
    ensures var s := R.Recompute(cfg, R.FRESH, None, 0.0, f).snapshot;
            s.circuit == R.Closed && s.stress == 0.0 && s.feedback == f && R.Threshold(s) < -0.1
  {
  }

  // ----- how denials are booked -----

  /** A denial raises the failure rate only if it was for system stress, and every denial raises exactly one counter. */
  lemma DenialBooked(s: F.State, reason: R.Reason)
    ensures var t := F.OnFailure(s, F.CategoryOf(reason));
            && (reason != R.SystemStress ==> t.averages == s.averages)
            && (reason == R.SystemStress ==> t.counts == s.counts.(executionFails := F.Up(s.counts.executionFails)))
            && (reason == R.StaleSignal || reason == R.MissingPrice ==>
                  t.counts == s.counts.(staleSkips := F.Up(s.counts.staleSkips)))
            && (reason !in {R.SystemStress, R.StaleSignal, R.MissingPrice} ==>
                  t.counts == s.counts.(riskRejects := F.Up(s.counts.riskRejects)))
  {
    hide R.Ema;
  }

  // ----- what an execution event is booked as -----

  /** The average moves by this share of the way to the value, and takes it whole from zero. */
  predicate Moved(prev: real, next: real, value: real, share: real) {
    if prev == 0.0 then next == value else next - prev == Times(share, value - prev)
  }

  lemma EmaMoves(prev: real, value: real, share: real)
    ensures Moved(prev, R.Ema(prev, value, share), value, share)
  {
    assert prev * (1.0 - share) + value * share - prev == share * (value - prev);
  }

  /** A simulated event counts as contamination and nothing else; a real one never does. */
  lemma SimulatedOnlyContaminates(s: F.State, x: F.Execution)
    ensures var t := F.OnExecution(s, x);
            && (x.simulated ==> t == s.(counts := s.counts.(contaminated := F.Up(s.counts.contaminated))))
            && (!x.simulated ==> t.counts.contaminated == s.counts.contaminated
                                 && t.counts.realEvents == F.Up(s.counts.realEvents))
  {
    hide F.Averaged, F.Up, F.PartialLoss;
  }

  /**
   A real event is a partial-fill loss exactly when less than 70% but something was filled and the markout at half a
   second is negative, and an outbid exactly when flagged as one; no other counter but that of real events moves.
   */
  lemma RealEventCounts(s: F.State, x: F.Execution)
    requires !x.simulated
    ensures F.OnExecution(s, x).counts == s.counts.(
            realEvents := F.Up(s.counts.realEvents),
            outbidFails := if x.outbid then F.Up(s.counts.outbidFails) else s.counts.outbidFails,
            partialFillLosses := if x.partialFillRatio > 0.0 && x.partialFillRatio < 0.70 && x.pnl500 < 0.0
            then F.Up(s.counts.partialFillLosses) else s.counts.partialFillLosses)
  {
    hide F.Averaged, F.Up;
  }

  /** Every average of a real event moves towards that event's own figure, the variance towards the squared surprise. */
  lemma RealEventMoves(s: F.State, x: F.Execution)
    requires !x.simulated
    ensures var a, b := s.averages, F.OnExecution(s, x).averages;
            && Moved(a.markout100, b.markout100, x.pnl100, 0.06) && Moved(a.markout500, b.markout500, x.pnl500, 0.06)
            && Moved(a.markout1s, b.markout1s, x.pnl1s, 0.06) && Moved(a.markout5s, b.markout5s, x.pnl5s, 0.06)
            && Moved(a.adverse, b.adverse, x.adverse, 0.08) && Moved(a.slippage, b.slippage, x.slippage, 0.08)
            && Moved(a.slippageVariance, b.slippageVariance, F.Square(x.slippage - a.slippage), 0.06)
            && Moved(a.failureRate, b.failureRate, 0.0, 0.04)
            && Moved(a.realizedPnl, b.realizedPnl, if x.realizedPnl == 0.0 then x.pnl500 else x.realizedPnl, 0.06)
    ensures var a, b := s.averages, F.OnExecution(s, x).averages;
            && (!x.outbid ==> Moved(a.outbidRate, b.outbidRate, 0.0, 0.04))
            && (x.expectedMarkout != 0.0 ==> Moved(a.expectedMarkout, b.expectedMarkout, x.expectedMarkout, 0.05))
            && (x.expectedMarkout == 0.0 ==> b.expectedMarkout == a.expectedMarkout)
  {
    hide R.Ema, Moved, F.Square, F.PartialLoss;
    var a := s.averages;
    EmaMoves(a.markout100, x.pnl100, 0.06);
    EmaMoves(a.markout500, x.pnl500, 0.06);
    EmaMoves(a.markout1s, x.pnl1s, 0.06);
    EmaMoves(a.markout5s, x.pnl5s, 0.06);
    EmaMoves(a.adverse, x.adverse, 0.08);
    EmaMoves(a.slippage, x.slippage, 0.08);
    EmaMoves(a.slippageVariance, F.Square(x.slippage - a.slippage), 0.06);
    EmaMoves(a.failureRate, 0.0, 0.04);
    EmaMoves(a.outbidRate, 0.0, 0.04);
    EmaMoves(a.realizedPnl, if x.realizedPnl == 0.0 then x.pnl500 else x.realizedPnl, 0.06);
    EmaMoves(a.expectedMarkout, x.expectedMarkout, 0.05);
  }

  // ----- the feedback's regime and degradation -----

  /** Exactly when each regime holds, in the engine's own averages. */
  lemma RegimeIff(s: F.State)
    ensures var a, r := s.averages, F.RegimeOf(s);
            && (r == R.Contaminated <==> s.counts.realEvents == 0 && s.counts.contaminated > 0)
            && (r == R.Hostile <==>
                  && !(s.counts.realEvents == 0 && s.counts.contaminated > 0)
                  && (a.adverse > 0.72 || a.slippageVariance > 36.0
                      || (a.markout500 < 0.0 && a.markout1s < 0.0 && a.markout5s < 0.0)))
            && (r == R.DegradedRegime ==>
                  F.Degradation(a) > 0.45 || a.failureRate > 0.35 || a.outbidRate > 0.30 || a.partialLossRate > 0.25)
            && (r == R.Safe ==>
                  && a.adverse <= 0.72 && a.slippageVariance <= 36.0 && F.Degradation(a) <= 0.45
                  && a.failureRate <= 0.35
                  && a.outbidRate <= 0.30 && a.partialLossRate <= 0.25)
  {
    hide F.Degradation;
  }

  /** The drop of a positive markout is the share it has lost, none if it has not fallen, and at most all of it. */
  lemma DropMeans(early: real, late: real)
    ensures 0.0 <= F.Drop(early, late) <= 1.0 && (F.Drop(early, late) == 0.0 <== early <= late)
    ensures early > 0.000000001 && 0.0 <= late < early ==> early * (1.0 - F.Drop(early, late)) == late
    ensures early > 0.000000001 && late <= 0.0 ==> F.Drop(early, late) == 1.0
  {
    if early > 0.000000001 && late < early {
      Undivide(early - late, early);
      if late <= 0.0 {
        Shares(early, -late, early);
        Undivide(early, early);
      } else {
        Shares(early - late, late, early);
        ProductSign(early - late, 1.0);
      }
    }
  }

  /** Degradation is 0 for markouts that never fall and are not negative, and does not fall as a later one drops. */
  lemma DegradationMeans(a: F.Averages)
    ensures a.markout100 <= a.markout500 <= a.markout1s <= a.markout5s && a.markout1s >= 0.0 ==> F.Degradation(a) == 0.0
    ensures a.markout500 < 0.0 && a.markout1s < 0.0 ==> F.Degradation(a) >= 0.25
  {
    hide F.Drop;
    DropMeans(a.markout100, a.markout500);
    DropMeans(a.markout500, a.markout1s);
    DropMeans(a.markout1s, a.markout5s);
  }
}

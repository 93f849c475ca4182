/**
 The feedback engine behind the risk circuit, and the risk service with that engine in the loop:
 every run of the service is a run of the circuit for the feedback the engine really produces.
 */
module Feedback {
  import opened Numeric
  import R = RiskCircuit

  const WRAP: nat := 0x1_0000_0000_0000_0000

  datatype Category = RiskReject | ExecutionFail | OutbidFail | StaleSkip | MarketCancel | PartialFillLoss

  /** What an execution event brings; `outbid` is whether its competition flag mentions an outbid. */
  datatype Execution = Execution(
    simulated: bool, realizedPnl: real, pnl100: real, pnl500: real, pnl1s: real, pnl5s: real, adverse: real,
    slippage: real, expectedMarkout: real, outbid: bool, partialFillRatio: real)

  datatype Counts = Counts(
    realEvents: nat, contaminated: nat, riskRejects: nat, executionFails: nat, outbidFails: nat, staleSkips: nat,
    marketCancels: nat, partialFillLosses: nat)

  datatype Averages = Averages(
    realizedPnl: real, markout100: real, markout500: real, markout1s: real, markout5s: real, adverse: real,
    slippage: real, slippageVariance: real, failureRate: real, outbidRate: real, partialLossRate: real,
    expectedMarkout: real)

  datatype State = State(counts: Counts, averages: Averages)

  const FRESH: State := State(
    Counts(0, 0, 0, 0, 0, 0, 0, 0), Averages(0.0, 0.0, 0.0, 0.0, 0.0, 0.0, 0.0, 0.0, 0.0, 0.0, 0.0, 0.0))

  function Up(n: nat): nat {
    (n + 1) % WRAP
  }

  function OnFailure(s: State, category: Category): State {
    var c, a := s.counts, s.averages;
    match category
    case RiskReject => s.(counts := c.(riskRejects := Up(c.riskRejects)))
    case ExecutionFail =>
      State(c.(executionFails := Up(c.executionFails)), a.(failureRate := R.Ema(a.failureRate, 1.0, 0.08)))
    case OutbidFail => State(c.(outbidFails := Up(c.outbidFails)), a.(outbidRate := R.Ema(a.outbidRate, 1.0, 0.10)))
    case StaleSkip => s.(counts := c.(staleSkips := Up(c.staleSkips)))
    case MarketCancel =>
      State(c.(marketCancels := Up(c.marketCancels)), a.(failureRate := R.Ema(a.failureRate, 0.65, 0.08)))
    case PartialFillLoss =>
      State(c.(partialFillLosses := Up(c.partialFillLosses)),
            a.(partialLossRate := R.Ema(a.partialLossRate, 1.0, 0.10)))
  }

  predicate PartialLoss(x: Execution) {
    0.0 < x.partialFillRatio < 0.70 && x.pnl500 < 0.0
  }

  function Square(v: real): (r: real)
    ensures r >= 0.0
  {
    v * v
  }

  function Averaged(a: Averages, x: Execution): Averages {
    var outbid, partial := R.Ema(a.outbidRate, 0.0, 0.04), R.Ema(a.partialLossRate, 0.0, 0.04);
    Averages(
      R.Ema(a.realizedPnl, if x.realizedPnl == 0.0 then x.pnl500 else x.realizedPnl, 0.06),
      R.Ema(a.markout100, x.pnl100, 0.06), R.Ema(a.markout500, x.pnl500, 0.06), R.Ema(a.markout1s, x.pnl1s, 0.06),
      R.Ema(a.markout5s, x.pnl5s, 0.06), R.Ema(a.adverse, x.adverse, 0.08), R.Ema(a.slippage, x.slippage, 0.08),
      R.Ema(a.slippageVariance, Square(x.slippage - a.slippage), 0.06), R.Ema(a.failureRate, 0.0, 0.04),
      if x.outbid then R.Ema(outbid, 1.0, 0.10) else outbid,
      if PartialLoss(x) then R.Ema(partial, 1.0, 0.10) else partial,
      if x.expectedMarkout != 0.0 then R.Ema(a.expectedMarkout, x.expectedMarkout, 0.05) else a.expectedMarkout)
  }

  function OnExecution(s: State, x: Execution): State {
    var c := s.counts;
    if x.simulated then s.(counts := c.(contaminated := Up(c.contaminated)))
    else
      State(
        c.(realEvents := Up(c.realEvents), outbidFails := if x.outbid then Up(c.outbidFails) else c.outbidFails,
        partialFillLosses := if PartialLoss(x) then Up(c.partialFillLosses) else c.partialFillLosses),
        Averaged(s.averages, x))
  }

  // ----- the snapshot -----

  function AbsNonZero(v: real): (r: real)
    ensures r > 0.0
  {
    if AbsR(v) <= 0.000000001 then 1.0 else AbsR(v)
  }

  /** The share of its earlier value that a markout has lost by a later horizon. */
  function Drop(early: real, late: real): real {
    if early > late then R.Clamp01((early - late) / AbsNonZero(early)) else 0.0
  }

  function Degradation(a: Averages): real {
    R.Clamp01(
      Drop(a.markout100, a.markout500) * 0.35 + Drop(a.markout500, a.markout1s) * 0.30
      + Drop(a.markout1s, a.markout5s) * 0.25 + (if a.markout500 < 0.0 && a.markout1s < 0.0 then 0.25 else 0.0))
  }

  function RegimeOf(s: State): R.Regime {
    var a := s.averages;
    if s.counts.realEvents == 0 && s.counts.contaminated > 0 then R.Contaminated
    else if a.adverse > 0.72 || a.slippageVariance > 36.0
         || (a.markout500 < 0.0 && a.markout1s < 0.0 && a.markout5s < 0.0)
    then R.Hostile
    else if Degradation(a) > 0.45 || a.failureRate > 0.35 || a.outbidRate > 0.30 || a.partialLossRate > 0.25
    then R.DegradedRegime
    else R.Safe
  }

  /** The part of the snapshot the circuit reads. */
  function Seen(s: State): R.Feedback {
    var a := s.averages;
    R.Feedback(Degradation(a), a.adverse, a.slippageVariance, a.partialLossRate, a.failureRate, a.expectedMarkout,
               RegimeOf(s))
  }

  /** The whole snapshot: counters and averages as they are, with the derived degradation and regime. */
  datatype Snapshot = Snapshot(state: State, seen: R.Feedback)

  function SnapshotOf(s: State): Snapshot {
    Snapshot(s, Seen(s))
  }

  // ----- runs of the engine alone -----

  datatype Input = Failure(category: Category) | Event(execution: Execution)

  function Step(s: State, i: Input): State {
    match i case Failure(c) => OnFailure(s, c) case Event(x) => OnExecution(s, x)
  }

  function Run(inputs: seq<Input>): State {
    if inputs == [] then FRESH else Step(Run(inputs[..|inputs|-1]), inputs[|inputs|-1])
  }

  predicate IsReal(i: Input) { i.Event? && !i.execution.simulated }
  predicate IsSimulated(i: Input) { i.Event? && i.execution.simulated }
  predicate IsOutbid(i: Input) { if i.Failure? then i.category == OutbidFail else IsReal(i) && i.execution.outbid }
  predicate IsPartialLoss(i: Input) {
    if i.Failure? then i.category == PartialFillLoss else IsReal(i) && PartialLoss(i.execution)
  }

  function CountOf(inputs: seq<Input>, p: Input -> bool): (n: nat)
    ensures n <= |inputs|
  {
    if inputs == [] then 0 else CountOf(inputs[..|inputs|-1], p) + if p(inputs[|inputs|-1]) then 1 else 0
  }

  /** What every run keeps: exact counters, and rates that are rates. */
  ghost predicate Sound(s: State, inputs: seq<Input>) {
    && s.counts.realEvents == CountOf(inputs, IsReal)
    && s.counts.contaminated == CountOf(inputs, IsSimulated)
    && s.counts.outbidFails == CountOf(inputs, IsOutbid)
    && s.counts.partialFillLosses == CountOf(inputs, IsPartialLoss)
    && s.counts.riskRejects == CountOf(inputs, (i: Input) => i == Failure(RiskReject))
    && s.counts.executionFails == CountOf(inputs, (i: Input) => i == Failure(ExecutionFail))
    && s.counts.staleSkips == CountOf(inputs, (i: Input) => i == Failure(StaleSkip))
    && s.counts.marketCancels == CountOf(inputs, (i: Input) => i == Failure(MarketCancel))
  }

  ghost predicate RatesOk(a: Averages) {
    R.Unit(a.failureRate) && R.Unit(a.outbidRate) && R.Unit(a.partialLossRate) && a.slippageVariance >= 0.0
  }

  /** Every counter is the exact number of inputs of its kind. */
  lemma {:induction false} CountersExact(inputs: seq<Input>)
    requires |inputs| < WRAP
    ensures Sound(Run(inputs), inputs)
  {
    hide Averaged, R.Ema, PartialLoss;
    if inputs != [] {
      CountersExact(inputs[..|inputs|-1]);
      assert forall n: nat :: n + 1 < WRAP ==> Up(n) == n + 1;
    }
  }

  lemma EmaNonNegative(prev: real, value: real)
    requires prev >= 0.0 && value >= 0.0
    ensures R.Ema(prev, value, 0.06) >= 0.0
  {
  }

  lemma AveragedRates(a: Averages, x: Execution)
    requires RatesOk(a)
    ensures RatesOk(Averaged(a, x))
  {
    hide R.Ema, PartialLoss, Square;
    R.EmaUnit(a.failureRate, 0.0, 0.04);
    R.EmaUnit(a.outbidRate, 0.0, 0.04);
    R.EmaUnit(a.partialLossRate, 0.0, 0.04);
    R.EmaUnit(R.Ema(a.outbidRate, 0.0, 0.04), 1.0, 0.10);
    R.EmaUnit(R.Ema(a.partialLossRate, 0.0, 0.04), 1.0, 0.10);
    EmaNonNegative(a.slippageVariance, Square(x.slippage - a.slippage));
  }

  lemma StepRates(s: State, i: Input)
    requires RatesOk(s.averages)
    ensures RatesOk(Step(s, i).averages)
  {
    hide R.Ema, Averaged;
    R.EmaUnit(s.averages.failureRate, 1.0, 0.08);
    R.EmaUnit(s.averages.failureRate, 0.65, 0.08);
    R.EmaUnit(s.averages.outbidRate, 1.0, 0.10);
    R.EmaUnit(s.averages.partialLossRate, 1.0, 0.10);
    if i.Event? {
      AveragedRates(s.averages, i.execution);
    }
  }

  /** The rates and the degradation stay in [0, 1] over every run, whatever the events report. */
  lemma {:induction false} RunRates(inputs: seq<Input>)
    ensures RatesOk(Run(inputs).averages) && R.Unit(Degradation(Run(inputs).averages))
  {
    hide Step, Drop;
    R.ClampUnit(0.0);
    if inputs != [] {
      RunRates(inputs[..|inputs|-1]);
      StepRates(Run(inputs[..|inputs|-1]), inputs[|inputs|-1]);
    }
  }

  lemma {:induction false} CountZero(inputs: seq<Input>, p: Input -> bool)
    ensures CountOf(inputs, p) == 0 <==> forall k :: 0 <= k < |inputs| ==> !p(inputs[k])
  {
    if inputs != [] {
      CountZero(inputs[..|inputs|-1], p);
      assert forall k :: 0 <= k < |inputs| - 1 ==> inputs[..|inputs|-1][k] == inputs[k];
    }
  }

  /**
   The regime is CONTAMINATED exactly when simulated events and no real one have been seen: one real event
   ends it for good.
   */
  lemma ContaminatedIff(inputs: seq<Input>)
    requires |inputs| < WRAP
    ensures RegimeOf(Run(inputs)) == R.Contaminated <==>
              (exists k :: 0 <= k < |inputs| && IsSimulated(inputs[k]))
              && (forall k :: 0 <= k < |inputs| ==> !IsReal(inputs[k]))
  {
    hide Run, Degradation;
    CountersExact(inputs);
    CountZero(inputs, IsReal);
    CountZero(inputs, IsSimulated);
  }

  // ----- the service with the engine in the loop -----

  datatype Outcome =
    | AlreadyReserved
    | SendFails(latencyMs: real, penalty: real)
    | SendSucceeds(latencyMs: real, penalty: real, fills: seq<Execution>)

  datatype Call =
    | Submit(gates: R.Gates, req: R.Request, values: R.Values, outcome: Outcome)
    | Market(hash: nat, volume: real, velocity: Option<real>, gross: real)
    | Executed(execution: Execution)
    | Failed(category: Category)

  datatype Service = Service(intel: R.Intel, feedback: State, sends: nat, failed: bool)

  /** How a denial is booked; a denial for system stress is booked as an execution failure. */
  function CategoryOf(reason: R.Reason): Category {
    match reason
    case StaleSignal | MissingPrice => StaleSkip
    case SystemStress => ExecutionFail
    case _ => RiskReject
  }

  function Take(cfg: R.Config, s: Service, x: Execution): Service
    requires cfg.maxExposure > 0.0
  {
    var f := OnExecution(s.feedback, x);
    s.(feedback := f, intel := R.ObserveFeedback(cfg, s.intel, Seen(f)))
  }

  function TakeAll(cfg: R.Config, s: Service, fills: seq<Execution>): Service
    requires cfg.maxExposure > 0.0
  {
    if fills == [] then s else Take(cfg, TakeAll(cfg, s, fills[..|fills|-1]), fills[|fills|-1])
  }

  function Sent(cfg: R.Config, s: Service, outcome: Outcome): Service
    requires cfg.maxExposure > 0.0
  {
    match outcome
    case AlreadyReserved => s
    case SendFails(latency, penalty) =>
      Service(R.ObserveExecution(cfg, s.intel, latency, penalty, true, Seen(s.feedback)),
              OnFailure(s.feedback, ExecutionFail), s.sends + 1, true)
    case SendSucceeds(latency, penalty, fills) =>
      TakeAll(cfg, s.(intel := R.ObserveExecution(cfg, s.intel, latency, penalty, false, Seen(s.feedback)),
                      sends := s.sends + 1), fills)
  }

  function Serve(cfg: R.Config, s: Service, call: Call): Service
    requires cfg.maxExposure > 0.0
  {
    match call
    case Market(hash, volume, velocity, gross) =>
      s.(intel := R.ObserveMarket(cfg, s.intel, hash, volume, velocity, gross, Seen(s.feedback)))
    case Executed(x) => Take(cfg, s, x)
    case Failed(c) =>
      var f := OnFailure(s.feedback, c);
      s.(feedback := f, intel := R.ObserveFeedback(cfg, s.intel, Seen(f)))
    case Submit(gates, req, values, outcome) =>
      var d := R.Gate(cfg, gates, s.intel.snapshot, req, values);
      if d.allowed then Sent(cfg, s, outcome) else s.(feedback := OnFailure(s.feedback, CategoryOf(d.reason)))
  }

  function RunService(cfg: R.Config, calls: seq<Call>): Service
    requires cfg.maxExposure > 0.0
  {
    if calls == [] then Service(R.FRESH, FRESH, 0, false)
    else Serve(cfg, RunService(cfg, calls[..|calls|-1]), calls[|calls|-1])
  }

  // ----- refinement of the circuit -----

  function LoopOf(s: Service): R.Loop {
    R.Loop(s.intel, s.sends, s.failed)
  }

  /** The feedback after each fill of a batch. */
  function SeenAll(f: State, fills: seq<Execution>): seq<R.Feedback> {
    if fills == [] then []
    else SeenAll(f, fills[..|fills|-1]) + [Seen(After(f, fills))]
  }

  function After(f: State, fills: seq<Execution>): State {
    if fills == [] then f else OnExecution(After(f, fills[..|fills|-1]), fills[|fills|-1])
  }

  /** The circuit's event for a call: the same call with the engine's own feedback filled in. */
  function Refined(s: Service, call: Call): R.Event {
    match call
    case Market(hash, volume, velocity, gross) => R.Market(hash, volume, velocity, gross, Seen(s.feedback))
    case Executed(x) => R.Executed(Seen(OnExecution(s.feedback, x)))
    case Failed(c) => R.Executed(Seen(OnFailure(s.feedback, c)))
    case Submit(gates, req, values, outcome) =>
      R.Submit(gates, req, values,
               match outcome
               case AlreadyReserved => R.AlreadyReserved
               case SendFails(latency, penalty) => R.SendFails(latency, penalty, Seen(s.feedback))
               case SendSucceeds(latency, penalty, fills) =>
                 R.SendSucceeds(latency, penalty, Seen(s.feedback), SeenAll(s.feedback, fills)))
  }

  function RefinedRun(cfg: R.Config, calls: seq<Call>): seq<R.Event>
    requires cfg.maxExposure > 0.0
  {
    if calls == [] then []
    else
      var past := calls[..|calls|-1];
      RefinedRun(cfg, past) + [Refined(RunService(cfg, past), calls[|calls|-1])]
  }

  lemma {:induction false} TakeAllRefines(cfg: R.Config, s: Service, fills: seq<Execution>)
    requires cfg.maxExposure > 0.0
    ensures TakeAll(cfg, s, fills).intel == R.Fills(cfg, s.intel, SeenAll(s.feedback, fills))
    ensures TakeAll(cfg, s, fills).feedback == After(s.feedback, fills)
    ensures TakeAll(cfg, s, fills).sends == s.sends && TakeAll(cfg, s, fills).failed == s.failed
  {
    hide OnExecution, Seen, R.ObserveFeedback;
    if fills != [] {
      var rest := fills[..|fills|-1];
      TakeAllRefines(cfg, s, rest);
      assert SeenAll(s.feedback, fills)[..|SeenAll(s.feedback, rest)|] == SeenAll(s.feedback, rest);
    }
  }

  lemma ServeRefines(cfg: R.Config, s: Service, call: Call)
    requires cfg.maxExposure > 0.0
    ensures LoopOf(Serve(cfg, s, call)) == R.LoopStep(cfg, LoopOf(s), Refined(s, call))
  {
    hide OnExecution, OnFailure, Seen, R.ObserveFeedback, R.ObserveExecution, R.ObserveMarket, R.Gate, R.Fills,
         TakeAll, SeenAll;
    if call.Submit? && call.outcome.SendSucceeds? {
      var o := call.outcome;
      TakeAllRefines(
        cfg, s.(intel := R.ObserveExecution(cfg, s.intel, o.latencyMs, o.penalty, false, Seen(s.feedback)),
                sends := s.sends + 1), o.fills);
    }
  }

  /** Every run of the service is a run of the circuit, so the circuit's bounds and its latch hold of the service. */
  lemma {:induction false} ServiceRefinesCircuit(cfg: R.Config, calls: seq<Call>)
    requires cfg.maxExposure > 0.0
    ensures LoopOf(RunService(cfg, calls)) == R.RunLoop(cfg, RefinedRun(cfg, calls))
    ensures |RefinedRun(cfg, calls)| == |calls|
  {
    hide Serve, Refined, R.LoopStep;
    if calls != [] {
      var past := calls[..|calls|-1];
      ServiceRefinesCircuit(cfg, past);
      ServeRefines(cfg, RunService(cfg, past), calls[|calls|-1]);
      assert RefinedRun(cfg, calls)[..|past|] == RefinedRun(cfg, past);
    }
  }

  lemma {:induction false} RefinedAppends(cfg: R.Config, calls: seq<Call>, later: seq<Call>)
    requires cfg.maxExposure > 0.0
    ensures |RefinedRun(cfg, calls)| <= |RefinedRun(cfg, calls + later)|
    ensures RefinedRun(cfg, calls + later)[..|RefinedRun(cfg, calls)|] == RefinedRun(cfg, calls)
  {
    hide Refined, RunService;
    if later == [] {
      assert calls + later == calls;
    } else {
      RefinedAppends(cfg, calls, later[..|later|-1]);
      assert (calls + later)[..|calls + later|-1] == calls + later[..|later|-1];
    }
  }

  /** With the real feedback engine too: after one failed send the circuit stays open and nothing is ever sent again. */
  lemma ServiceLatches(cfg: R.Config, calls: seq<Call>, later: seq<Call>)
    requires cfg.maxExposure > 0.0 && RunService(cfg, calls).failed
    ensures var s, t := RunService(cfg, calls), RunService(cfg, calls + later);
            t.failed && t.sends == s.sends && t.intel.snapshot.circuit == R.Open
  {
    hide RunService, RefinedRun, R.RunLoop;
    ServiceRefinesCircuit(cfg, calls);
    ServiceRefinesCircuit(cfg, calls + later);
    RefinedAppends(cfg, calls, later);
    var a, b := RefinedRun(cfg, calls), RefinedRun(cfg, calls + later);
    assert b == a + b[|a|..];
    R.FailureLatches(cfg, a, b[|a|..]);
  }

  // ----- contamination -----

  function EventsOf(call: Call): seq<Execution> {
    match call
    case Executed(x) => [x]
    case Submit(_, _, _, outcome) => if outcome.SendSucceeds? then outcome.fills else []
    case _ => []
  }

  /** No real execution event reaches the service in this run. */
  ghost predicate OnlySimulated(calls: seq<Call>) {
    forall k :: 0 <= k < |calls| ==> forall x :: x in EventsOf(calls[k]) ==> x.simulated
  }

  /** Contamination once counted is what the circuit's snapshot shows. */
  ghost predicate Shown(s: Service, budget: nat) {
    && s.feedback.counts.realEvents == 0 && s.feedback.counts.contaminated <= budget
    && (s.feedback.counts.contaminated > 0 ==> s.intel.snapshot.feedback.regime == R.Contaminated)
  }

  lemma ShownRegime(cfg: R.Config, s: Service, budget: nat, hash: nat, volume: real, velocity: Option<real>,
                    gross: real,
                    latency: real, penalty: real, rejected: bool)
    requires cfg.maxExposure > 0.0 && Shown(s, budget)
    ensures var f := Seen(s.feedback);
            s.feedback.counts.contaminated > 0 ==>
              && R.ObserveMarket(cfg, s.intel, hash, volume, velocity, gross, f).snapshot.feedback.regime
                 == R.Contaminated
              && R.ObserveExecution(cfg, s.intel, latency, penalty, rejected, f).snapshot.feedback.regime
                 == R.Contaminated
              && R.ObserveFeedback(cfg, s.intel, f).snapshot.feedback.regime == R.Contaminated
  {
    hide R.Ema, R.Fragility, R.MarkoutStress, R.RawStress, R.Score, R.MempoolMarket, R.MempoolFailure,
         R.MempoolSuccess, R.MempoolLatency, Degradation;
  }

  lemma FailureCounts(s: State, c: Category)
    ensures OnFailure(s, c).counts.realEvents == s.counts.realEvents && OnFailure(s, c).counts.contaminated
            == s.counts.contaminated
  {
  }

  lemma TakeShown(cfg: R.Config, s: Service, x: Execution, budget: nat)
    requires cfg.maxExposure > 0.0 && Shown(s, budget) && x.simulated && budget + 1 < WRAP
    ensures Shown(Take(cfg, s, x), budget + 1) && Take(cfg, s, x).feedback.counts.contaminated > 0
  {
    hide R.Fragility, R.MarkoutStress, R.RawStress, Degradation, Averaged;
  }

  lemma {:induction false} TakeAllShown(cfg: R.Config, s: Service, fills: seq<Execution>, budget: nat)
    requires cfg.maxExposure > 0.0 && Shown(s, budget) && (forall x :: x in fills ==> x.simulated)
             && budget + |fills| < WRAP
    ensures Shown(TakeAll(cfg, s, fills), budget + |fills|)
    ensures fills != [] ==> TakeAll(cfg, s, fills).feedback.counts.contaminated > 0
    ensures s.feedback.counts.contaminated > 0 ==> TakeAll(cfg, s, fills).feedback.counts.contaminated > 0
  {
    hide Take, Shown;
    if fills != [] {
      var rest, last := fills[..|fills|-1], fills[|fills|-1];
      assert last in fills;
      TakeAllShown(cfg, s, rest, budget);
      TakeShown(cfg, TakeAll(cfg, s, rest), last, budget + |rest|);
    }
  }

  function EventCount(calls: seq<Call>): nat {
    if calls == [] then 0 else EventCount(calls[..|calls|-1]) + |EventsOf(calls[|calls|-1])|
  }

  lemma ServeShown(cfg: R.Config, s: Service, call: Call, budget: nat)
    requires cfg.maxExposure > 0.0 && Shown(s, budget) && budget + |EventsOf(call)| < WRAP
    requires forall x :: x in EventsOf(call) ==> x.simulated
    ensures var t := Serve(cfg, s, call);
            && Shown(t, budget + |EventsOf(call)|)
            && (s.feedback.counts.contaminated > 0 ==> t.feedback.counts.contaminated > 0)
            && (call.Executed? ==> t.feedback.counts.contaminated > 0)
  {
    hide OnExecution, OnFailure, Seen, R.ObserveFeedback, R.ObserveExecution, R.ObserveMarket, R.Gate, TakeAll, Take;
    match call {
      case Market(hash, volume, velocity, gross) =>
        ShownRegime(cfg, s, budget, hash, volume, velocity, gross, 0.0, 0.0, false);
      case Executed(x) =>
        assert x in EventsOf(call);
        TakeShown(cfg, s, x, budget);
      case Failed(c) =>
        FailureCounts(s.feedback, c);
        var t := s.(feedback := OnFailure(s.feedback, c));
        ShownRegime(cfg, t, budget, 0, 0.0, None, 0.0, 0.0, 0.0, false);
      case Submit(gates, req, values, outcome) =>
        var d := R.Gate(cfg, gates, s.intel.snapshot, req, values);
        FailureCounts(s.feedback, CategoryOf(d.reason));
        FailureCounts(s.feedback, ExecutionFail);
        if d.allowed {
          SentShown(cfg, s, outcome, budget);
        }
    }
  }

  lemma SentShown(cfg: R.Config, s: Service, outcome: Outcome, budget: nat)
    requires cfg.maxExposure > 0.0 && Shown(s, budget)
    requires outcome.SendSucceeds? ==> budget + |outcome.fills| < WRAP && forall x :: x in outcome.fills ==> x.simulated
    ensures var t := Sent(cfg, s, outcome);
            && Shown(t, budget + if outcome.SendSucceeds? then |outcome.fills| else 0)
            && (s.feedback.counts.contaminated > 0 ==> t.feedback.counts.contaminated > 0)
  {
    hide OnExecution, OnFailure, Seen, R.ObserveFeedback, R.ObserveExecution, R.ObserveMarket, TakeAll;
    match outcome {
      case AlreadyReserved =>
      case SendFails(latency, penalty) =>
        ShownRegime(cfg, s, budget, 0, 0.0, None, 0.0, latency, penalty, true);
        FailureCounts(s.feedback, ExecutionFail);
      case SendSucceeds(latency, penalty, fills) =>
        ShownRegime(cfg, s, budget, 0, 0.0, None, 0.0, latency, penalty, false);
        TakeAllShown(
          cfg, s.(intel := R.ObserveExecution(cfg, s.intel, latency, penalty, false, Seen(s.feedback)),
                  sends := s.sends + 1), fills, budget);
    }
  }

  lemma {:induction false} RunShown(cfg: R.Config, calls: seq<Call>)
    requires cfg.maxExposure > 0.0 && OnlySimulated(calls) && EventCount(calls) < WRAP
    ensures Shown(RunService(cfg, calls), EventCount(calls))
    ensures (exists k :: 0 <= k < |calls| && calls[k].Executed?) ==>
              RunService(cfg, calls).feedback.counts.contaminated > 0
  {
    hide Serve;
    if calls != [] {
      var past := calls[..|calls|-1];
      assert OnlySimulated(past) by {
        forall k | 0 <= k < |past| ensures forall x :: x in EventsOf(past[k]) ==> x.simulated {
          assert past[k] == calls[k];
        }
      }
      RunShown(cfg, past);
      ServeShown(cfg, RunService(cfg, past), calls[|calls|-1], EventCount(past));
      if k :| 0 <= k < |calls| && calls[k].Executed? {
        if k < |past| { assert past[k].Executed?; }
      }
    }
  }

  /**
   Once a simulated event has been taken in and as long as no real one has, only reduce-only requests pass the
   gate.
   */
  lemma ContaminationBlocks(cfg: R.Config, calls: seq<Call>, g: R.Gates, req: R.Request, v: R.Values)
    requires cfg.maxExposure > 0.0 && OnlySimulated(calls) && EventCount(calls) < WRAP
    requires exists k :: 0 <= k < |calls| && calls[k].Executed?
    ensures R.Gate(cfg, g, RunService(cfg, calls).intel.snapshot, req, v).allowed ==> req.reduceOnly
  {
    hide RunService, R.Threshold, R.CappedMultiplier;
    RunShown(cfg, calls);
  }

  // ----- the engine as it runs -----

  class FeedbackEngine {
    var counts: Counts
    var averages: Averages
    var snapshot: Snapshot

    /** The stored snapshot is never stale. */
    ghost predicate Valid()
      reads this
    {
      snapshot == SnapshotOf(View())
    }

    function View(): State
      reads this
    {
      State(counts, averages)
    }

    constructor ()
      ensures Valid() && View() == FRESH
    {
      counts, averages := FRESH.counts, FRESH.averages;
      snapshot := Snapshot(FRESH, R.NEUTRAL);
    }

    method ObserveFailure(category: Category)
      requires Valid()
      modifies this
      ensures Valid() && View() == OnFailure(old(View()), category)
    {
      hide R.Ema;
      match category {
        case RiskReject => counts := counts.(riskRejects := Up(counts.riskRejects));
        case ExecutionFail =>
          counts := counts.(executionFails := Up(counts.executionFails));
          averages := averages.(failureRate := R.Ema(averages.failureRate, 1.0, 0.08));
        case OutbidFail =>
          counts := counts.(outbidFails := Up(counts.outbidFails));
          averages := averages.(outbidRate := R.Ema(averages.outbidRate, 1.0, 0.10));
        case StaleSkip => counts := counts.(staleSkips := Up(counts.staleSkips));
        case MarketCancel =>
          counts := counts.(marketCancels := Up(counts.marketCancels));
          averages := averages.(failureRate := R.Ema(averages.failureRate, 0.65, 0.08));
        case PartialFillLoss =>
          counts := counts.(partialFillLosses := Up(counts.partialFillLosses));
          averages := averages.(partialLossRate := R.Ema(averages.partialLossRate, 1.0, 0.10));
      }
      Recompute();
    }

    /** A simulated event only counts as contamination; a real one moves every average, each from its old value. */
    method ObserveExecutionEvent(x: Execution)
      requires Valid()
      modifies this
      ensures Valid() && View() == OnExecution(old(View()), x)
    {
      hide R.Ema;
      if x.simulated {
        counts := counts.(contaminated := Up(counts.contaminated));
        Recompute();
        return;
      }
      counts := counts.(realEvents := Up(counts.realEvents));
      Average(x);
      if x.outbid {
        counts := counts.(outbidFails := Up(counts.outbidFails));
        averages := averages.(outbidRate := R.Ema(averages.outbidRate, 1.0, 0.10));
      }
      if PartialLoss(x) {
        counts := counts.(partialFillLosses := Up(counts.partialFillLosses));
        averages := averages.(partialLossRate := R.Ema(averages.partialLossRate, 1.0, 0.10));
      }
      Recompute();
    }

    /** The averages every real event moves; the slippage variance is taken about the average before the event. */
    method Average(x: Execution)
      modifies this`averages
      ensures averages == Averaged(old(averages), x.(outbid := false, partialFillRatio := 0.0))
    {
      hide R.Ema, Square;
      averages := averages.(realizedPnl := R.Ema(averages.realizedPnl,
                                                 if x.realizedPnl == 0.0 then x.pnl500 else x.realizedPnl, 0.06));
      averages := averages.(markout100 := R.Ema(averages.markout100, x.pnl100, 0.06),
                            markout500 := R.Ema(averages.markout500, x.pnl500, 0.06),
      markout1s := R.Ema(averages.markout1s, x.pnl1s, 0.06), markout5s := R.Ema(averages.markout5s, x.pnl5s, 0.06));
      averages := averages.(adverse := R.Ema(averages.adverse, x.adverse, 0.08));
      var delta := x.slippage - averages.slippage;
      averages := averages.(slippage := R.Ema(averages.slippage, x.slippage, 0.08));
      averages := averages.(slippageVariance := R.Ema(averages.slippageVariance, Square(delta), 0.06));
      averages := averages.(failureRate := R.Ema(averages.failureRate, 0.0, 0.04),
                            outbidRate := R.Ema(averages.outbidRate, 0.0, 0.04),
      partialLossRate := R.Ema(averages.partialLossRate, 0.0, 0.04));
      if x.expectedMarkout != 0.0 {
        averages := averages.(expectedMarkout := R.Ema(averages.expectedMarkout, x.expectedMarkout, 0.05));
      }
    }

    method Recompute()
      modifies this`snapshot
      ensures Valid()
    {
      hide Drop;
      var a := averages;
      var degradation := 0.0;
      if a.markout100 > a.markout500 {
        degradation := degradation + Drop(a.markout100, a.markout500) * 0.35;
      }
      if a.markout500 > a.markout1s {
        degradation := degradation + Drop(a.markout500, a.markout1s) * 0.30;
      }
      if a.markout1s > a.markout5s {
        degradation := degradation + Drop(a.markout1s, a.markout5s) * 0.25;
      }
      if a.markout500 < 0.0 && a.markout1s < 0.0 {
        degradation := degradation + 0.25;
      }
      NoDrop(a.markout100, a.markout500);
      NoDrop(a.markout500, a.markout1s);
      NoDrop(a.markout1s, a.markout5s);
      degradation := R.Clamp01(degradation);
      var seen := R.Feedback(
        degradation, a.adverse, a.slippageVariance, a.partialLossRate, a.failureRate, a.expectedMarkout,
        RegimeOf(View()));
      snapshot := Snapshot(View(), seen);
    }
  }

  lemma NoDrop(early: real, late: real)
    ensures early <= late ==> Drop(early, late) == 0.0
  {
  }
}

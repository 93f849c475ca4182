/**
 The risk circuit when calls overlap: a call passes the gate in one event and reports its result in a
 later one, and any number of calls may be in flight in between.
 */
module OverlappingSends {
  import opened Numeric
  import R = RiskCircuit

  datatype Event =
    | Ask(gates: R.Gates, req: R.Request, values: R.Values)
    | Answer
    | Return(latencyMs: real, penalty: real, rejected: bool, feedback: R.Feedback)
    | Market(hash: nat, volume: real, velocity: Option<real>, gross: real, feedback: R.Feedback)
    | Executed(feedback: R.Feedback)

  /** `passed` counts the calls that ever passed the gate, `results` what SendOrder returned, true for an error. */
  datatype System = System(intel: R.Intel, inFlight: nat, passed: nat, results: seq<bool>)

  /** A duplicate is answered without a send; a result comes from a call in flight. */
  function Step(cfg: R.Config, s: System, e: Event): System
    requires cfg.maxExposure > 0.0
  {
    match e
    case Ask(gates, req, values) =>
      if R.Gate(cfg, gates, s.intel.snapshot, req, values).allowed
      then s.(inFlight := s.inFlight + 1, passed := s.passed + 1) else s
    case Answer => if s.inFlight == 0 then s else s.(inFlight := s.inFlight - 1)
    case Return(latencyMs, penalty, rejected, f) =>
      if s.inFlight == 0 then s
      else
        s.(intel := R.ObserveExecution(cfg, s.intel, latencyMs, penalty, rejected, f), inFlight := s.inFlight - 1,
        results := s.results + [rejected])
    case Market(hash, volume, velocity, gross, f) =>
      s.(intel := R.ObserveMarket(cfg, s.intel, hash, volume, velocity, gross, f))
    case Executed(f) => s.(intel := R.ObserveFeedback(cfg, s.intel, f))
  }

  function RunFrom(cfg: R.Config, s: System, events: seq<Event>): System
    requires cfg.maxExposure > 0.0
  {
    if events == [] then s else Step(cfg, RunFrom(cfg, s, events[..|events|-1]), events[|events|-1])
  }

  const START: System := System(R.FRESH, 0, 0, [])

  function Run(cfg: R.Config, events: seq<Event>): System
    requires cfg.maxExposure > 0.0
  {
    RunFrom(cfg, START, events)
  }

  lemma {:induction false} RunConcat(cfg: R.Config, s: System, a: seq<Event>, b: seq<Event>)
    requires cfg.maxExposure > 0.0
    ensures RunFrom(cfg, s, a + b) == RunFrom(cfg, RunFrom(cfg, s, a), b)
  {
    hide Step;
    if b == [] {
      assert a + b == a;
    } else {
      RunConcat(cfg, s, a, b[..|b|-1]);
      assert (a + b)[..|a + b|-1] == a + b[..|b|-1];
    }
  }

  // ----- the failure average is a function of the results -----

  function FailEmaAfter(start: real, outcomes: seq<bool>): real {
    if outcomes == [] then start
    else
      var before := FailEmaAfter(start, outcomes[..|outcomes|-1]);
      if outcomes[|outcomes|-1] then R.Ema(before, 1.0, 0.10) else R.Ema(before, 0.0, 0.04)
  }

  function Successes(outcomes: seq<bool>): nat {
    if outcomes == [] then 0 else Successes(outcomes[..|outcomes|-1]) + if outcomes[|outcomes|-1] then 0 else 1
  }

  function Faded(n: nat): real {
    if n == 0 then 1.0 else Faded(n - 1) * 0.96
  }

  lemma {:induction false} FadesSlowly(outcomes: seq<bool>)
    ensures 0.0 < Faded(Successes(outcomes)) <= FailEmaAfter(1.0, outcomes) <= 1.0
  {
    if outcomes != [] {
      FadesSlowly(outcomes[..|outcomes|-1]);
    }
  }

  lemma {:induction false} FadedDecreases(m: nat, n: nat)
    requires m <= n
    ensures 0.0 < Faded(n) <= Faded(m)
    decreases n
  {
    if m < n {
      FadedDecreases(m, n - 1);
    } else if n > 0 {
      FadedDecreases(n - 1, n - 1);
    }
  }

  /** Seven successes in a row leave the average above the circuit's threshold, eight do not. */
  lemma FadedValues()
    ensures Faded(7) > 0.75 && Faded(8) <= 0.75
  {
    assert Faded(1) == 0.96 && Faded(2) == 0.9216;
    assert Faded(4) == 0.9216 * 0.9216;
    assert Faded(6) == 0.9216 * 0.9216 * 0.9216;
  }

  lemma {:induction false} AllSuccesses(n: nat)
    ensures FailEmaAfter(1.0, seq(n, _ => false)) == Faded(n) > 0.0
  {
    if n > 0 {
      AllSuccesses(n - 1);
      assert seq(n, _ => false)[..n-1] == seq(n - 1, _ => false);
    }
  }

  /** Until the first error the average is 0, and that error sets it to 1. */
  lemma {:induction false} AfterFirstFailure(before: seq<bool>, after: seq<bool>)
    requires forall k :: 0 <= k < |before| ==> !before[k]
    ensures FailEmaAfter(0.0, before) == 0.0
    ensures FailEmaAfter(0.0, before + [true] + after) == FailEmaAfter(1.0, after)
    decreases |before| + |after|
  {
    if after != [] {
      AfterFirstFailure(before, after[..|after|-1]);
      assert (before + [true] + after)[..|before + [true] + after|-1] == before + [true] + after[..|after|-1];
    } else {
      assert before + [true] + after == before + [true];
      assert (before + [true])[..|before|] == before;
      if before != [] {
        AfterFirstFailure(before[..|before|-1], []);
      }
    }
  }

  /** The circuit is decided by the average, the stress and the regime, and by nothing else. */
  ghost predicate OpenIff(e: R.Intel) {
    e.snapshot.circuit == R.Open
    <==> e.snapshot.stress > 0.90 || e.failEma > 0.75 || e.snapshot.feedback.regime == R.Hostile
  }

  ghost predicate Sound(s: System) {
    R.IntelOk(s.intel) && OpenIff(s.intel) && s.intel.failEma == FailEmaAfter(0.0, s.results)
  }

  lemma RecomputeOpenIff(cfg: R.Config, e: R.Intel, gross: Option<real>, mempool: real, f: R.Feedback)
    requires cfg.maxExposure > 0.0
    ensures OpenIff(R.Recompute(cfg, e, gross, mempool, f))
  {
    hide R.Clamp01, R.RawStress, R.Fragility, R.MarkoutStress, R.MultiplierOf;
  }

  lemma StepSound(cfg: R.Config, s: System, e: Event)
    requires cfg.maxExposure > 0.0 && Sound(s)
    ensures Sound(Step(cfg, s, e))
  {
    hide R.IntelOk, R.Recompute, OpenIff, R.Ema, R.Gate, R.MempoolMarket, R.MempoolFailure, R.MempoolSuccess,
         R.MempoolLatency, R.Score;
    match e {
      case Return(latencyMs, penalty, rejected, f) =>
        R.ObserveExecutionOk(cfg, s.intel, latencyMs, penalty, rejected, f);
        ReturnOpenIff(cfg, s.intel, latencyMs, penalty, rejected, f);
        assert (s.results + [rejected])[..|s.results|] == s.results;
      case Market(hash, volume, velocity, gross, f) =>
        R.ObserveMarketOk(cfg, s.intel, hash, volume, velocity, gross, f);
        MarketOpenIff(cfg, s.intel, hash, volume, velocity, gross, f);
      case Executed(f) =>
        R.ObserveFeedbackOk(cfg, s.intel, f);
        RecomputeOpenIff(cfg, s.intel, None, s.intel.snapshot.mempool, f);
      case Ask(gates, req, values) =>
      case Answer =>
    }
  }

  lemma ReturnOpenIff(cfg: R.Config, e: R.Intel, latencyMs: real, penalty: real, rejected: bool, f: R.Feedback)
    requires cfg.maxExposure > 0.0
    ensures OpenIff(R.ObserveExecution(cfg, e, latencyMs, penalty, rejected, f))
  {
    hide R.Recompute, OpenIff, R.Ema, R.Score, R.MempoolFailure, R.MempoolSuccess, R.MempoolLatency;
    var slowed := e.(latencyEma := R.Ema(e.latencyEma, latencyMs, 0.08),
                     mempool := R.MempoolLatency(e.mempool, penalty));
    var hitBad, hitGood := R.MempoolFailure(slowed.mempool), R.MempoolSuccess(slowed.mempool);
    RecomputeOpenIff(cfg, slowed.(
                     rejectEma := R.Ema(e.rejectEma, 1.0, 0.10), failEma := R.Ema(e.failEma, 1.0, 0.10),
                     inclusionEma := R.Ema(e.inclusionEma, 0.0, 0.06), mempool := hitBad), None, R.Score(hitBad), f);
    RecomputeOpenIff(cfg, slowed.(
                     inclusionEma := R.Ema(e.inclusionEma, 1.0, 0.04), rejectEma := R.Ema(e.rejectEma, 0.0, 0.04),
                     failEma := R.Ema(e.failEma, 0.0, 0.04), mempool := hitGood), None, R.Score(hitGood), f);
  }

  lemma MarketOpenIff(cfg: R.Config, e: R.Intel, hash: nat, volume: real, velocity: Option<real>, gross: real,
                      f: R.Feedback)
    requires cfg.maxExposure > 0.0
    ensures OpenIff(R.ObserveMarket(cfg, e, hash, volume, velocity, gross, f))
  {
    hide R.Recompute, OpenIff, R.Ema, R.Score, R.MempoolMarket;
    var v := if velocity.Some? then velocity.value else 0.0;
    var vol := if velocity.Some? then R.Ema(e.volEma, AbsR(v) * 1000.0, 0.05) else e.volEma;
    var m := R.MempoolMarket(e.mempool, hash, volume, v);
    RecomputeOpenIff(cfg, e.(volEma := vol, mempool := m), Some(gross), R.Score(m), f);
  }

  lemma {:induction false} RunSound(cfg: R.Config, events: seq<Event>)
    requires cfg.maxExposure > 0.0
    ensures Sound(Run(cfg, events))
  {
    hide Step, Sound;
    if events == [] {
      StartSound();
    } else {
      RunSound(cfg, events[..|events|-1]);
      StepSound(cfg, Run(cfg, events[..|events|-1]), events[|events|-1]);
    }
  }

  lemma StartSound()
    ensures Sound(START)
  {
    R.FreshOk();
  }

  /**
   Over every overlapping run the failure average is the recurrence over the results returned so far, and the circuit
   is open exactly when that average exceeds 0.75, the stress exceeds 0.90 or the regime is hostile.
   */
  lemma CircuitOpenIff(cfg: R.Config, events: seq<Event>)
    requires cfg.maxExposure > 0.0
    ensures var s := Run(cfg, events);
            && s.intel.failEma == FailEmaAfter(0.0, s.results)
            && (s.intel.snapshot.circuit == R.Open <==>
                  s.intel.snapshot.stress > 0.90 || FailEmaAfter(0.0, s.results) > 0.75
                  || s.intel.snapshot.feedback.regime == R.Hostile)
  {
    hide Run, FailEmaAfter, R.IntelOk;
    RunSound(cfg, events);
  }

  // ----- how long a failure holds the circuit open -----

  /** The results since the first error. */
  function SinceFailure(results: seq<bool>): Option<seq<bool>> {
    if results == [] then None
    else
      var past, last := SinceFailure(results[..|results|-1]), results[|results|-1];
      if past.Some? then Some(past.value + [last]) else if last then Some([]) else None
  }

  lemma {:induction false} SinceFailureSplits(results: seq<bool>) returns (before: seq<bool>)
    ensures forall k :: 0 <= k < |before| ==> !before[k]
    ensures results == if SinceFailure(results).Some? then before + [true] + SinceFailure(results).value else before
  {
    if results == [] {
      before := [];
    } else {
      var past, last := results[..|results|-1], results[|results|-1];
      before := SinceFailureSplits(past);
      assert results == past + [last];
      if SinceFailure(past).None? && !last {
        before := before + [false];
      }
    }
  }

  /** A call failed, and with every call in flight successful there would be at most seven successes since. */
  ghost predicate Latched(s: System) {
    LatchedBy(s.results, s.inFlight)
  }

  ghost predicate LatchedBy(results: seq<bool>, inFlight: nat) {
    var since := SinceFailure(results); since.Some? && Successes(since.value) + inFlight <= 7
  }

  lemma OneMoreResult(results: seq<bool>, inFlight: nat, last: bool)
    requires LatchedBy(results, inFlight) && inFlight > 0
    ensures LatchedBy(results + [last], inFlight - 1)
  {
    assert (results + [last])[..|results|] == results;
    SuccessesSnoc(SinceFailure(results).value, last);
  }

  lemma OneFewer(results: seq<bool>, inFlight: nat)
    requires LatchedBy(results, inFlight) && inFlight > 0
    ensures LatchedBy(results, inFlight - 1)
  {
  }

  lemma LatchedIsOpen(s: System)
    requires Sound(s) && Latched(s)
    ensures s.intel.snapshot.circuit == R.Open
  {
    hide R.IntelOk, FailEmaAfter, Successes;
    var since := SinceFailure(s.results).value;
    var before := SinceFailureSplits(s.results);
    AfterFirstFailure(before, since);
    FadesSlowly(since);
    FadedDecreases(Successes(since), 7);
    FadedValues();
  }

  lemma LatchedStep(cfg: R.Config, s: System, e: Event)
    requires cfg.maxExposure > 0.0 && Sound(s) && Latched(s)
    ensures Latched(Step(cfg, s, e)) && Step(cfg, s, e).passed == s.passed && Step(cfg, s, e).inFlight <= s.inFlight
  {
    hide R.ObserveExecution, R.ObserveMarket, R.ObserveFeedback, R.Gate, Sound, LatchedBy;
    LatchedIsOpen(s);
    match e {
      case Ask(gates, req, values) => OpenDenies(cfg, s, gates, req, values);
      case Return(_, _, rejected, _) =>
        if s.inFlight > 0 {
          OneMoreResult(s.results, s.inFlight, rejected);
        }
      case Answer =>
        if s.inFlight > 0 {
          OneFewer(s.results, s.inFlight);
        }
      case _ =>
    }
  }

  lemma OpenDenies(cfg: R.Config, s: System, gates: R.Gates, req: R.Request, values: R.Values)
    requires Sound(s) && s.intel.snapshot.circuit == R.Open
    ensures !R.Gate(cfg, gates, s.intel.snapshot, req, values).allowed
  {
    R.AllowedIsBounded(cfg, gates, s.intel.snapshot, req, values);
  }

  lemma SuccessesSnoc(results: seq<bool>, last: bool)
    ensures Successes(results + [last]) == Successes(results) + if last then 0 else 1
  {
    assert (results + [last])[..|results|] == results;
  }

  /**
   With calls overlapping in any way: once a send has failed and at most seven successes can still have come since,
   counting every call in flight, the circuit stays open for good and no call ever passes the gate again.
   */
  lemma {:induction false} LatchOutlastsSeven(cfg: R.Config, events: seq<Event>, later: seq<Event>)
    requires cfg.maxExposure > 0.0 && Latched(Run(cfg, events))
    ensures var s, t := Run(cfg, events), Run(cfg, events + later);
            && Latched(t) && t.intel.snapshot.circuit == R.Open && t.passed == s.passed && t.inFlight <= s.inFlight
  {
    hide Step, Sound, Latched;
    RunSound(cfg, events + later);
    if later == [] {
      assert events + later == events;
    } else {
      var past := later[..|later|-1];
      LatchOutlastsSeven(cfg, events, past);
      assert (events + later)[..|events + later|-1] == events + past;
      RunSound(cfg, events + past);
      LatchedStep(cfg, Run(cfg, events + past), later[|later|-1]);
    }
    LatchedIsOpen(Run(cfg, events + later));
  }

  /** In particular at the first error itself, with at most seven other calls in flight. */
  lemma FirstFailureLatches(cfg: R.Config, events: seq<Event>, latencyMs: real, penalty: real, f: R.Feedback)
    requires cfg.maxExposure > 0.0
    requires var s := Run(cfg, events); SinceFailure(s.results).None? && 1 <= s.inFlight <= 8
    ensures Latched(Run(cfg, events + [Return(latencyMs, penalty, true, f)]))
  {
    hide R.ObserveExecution;
    var e := Return(latencyMs, penalty, true, f);
    assert (events + [e])[..|events|] == events;
    var s := Run(cfg, events);
    assert (s.results + [true])[..|s.results|] == s.results;
  }

  // ----- eight successes reopen it -----

  /** No exposure, volatility, latency or bad feedback: only send results have touched the engine. */
  ghost predicate Quiet(e: R.Intel) {
    && R.IntelOk(e) && R.Unit(e.rejectEma) && e.volEma == 0.0 && e.latencyEma == 0.0
    && e.snapshot.exposure == 0.0 && e.snapshot.feedback == R.NEUTRAL && R.Unit(e.snapshot.latencyPenalty)
    && e.snapshot.stress <= 0.45
  }

  lemma QuietRecompute(cfg: R.Config, e: R.Intel, mempool: real)
    requires cfg.maxExposure > 0.0 && e.snapshot.exposure == 0.0 && e.volEma == 0.0 && e.latencyEma == 0.0
    requires R.Unit(e.rejectEma) && R.Unit(e.failEma) && R.MempoolOk(e.mempool) && R.Unit(mempool)
    ensures Quiet(R.Recompute(cfg, e, None, mempool, R.NEUTRAL))
  {
    hide R.Clamp01, R.MultiplierOf, R.Fragility, R.MarkoutStress, R.IntelOk, R.CircuitOf;
    R.RecomputeOk(cfg, e, None, mempool, R.NEUTRAL);
    R.FragilityUnit(cfg, e, R.NEUTRAL);
    R.ClampUnit(0.0);
    R.ClampUnit(e.mempool.latencyPenalty);
    NeutralStress();
  }

  lemma NeutralStress()
    ensures R.MarkoutStress(R.NEUTRAL) == 0.0 && R.Clamp01(0.0 / 8.0) == 0.0
  {
  }

  lemma QuietReturn(cfg: R.Config, e: R.Intel, rejected: bool)
    requires cfg.maxExposure > 0.0 && Quiet(e)
    ensures Quiet(R.ObserveExecution(cfg, e, 0.0, 0.0, rejected, R.NEUTRAL))
  {
    hide R.Recompute, R.MempoolFailure, R.MempoolSuccess, R.MempoolLatency, R.MempoolOk, R.RawScore, R.Clamp01, R.Ema,
         R.SnapshotOk;
    var m0 := R.MempoolLatency(e.mempool, 0.0);
    R.MempoolStaysUnit(e.mempool, 0, 0.0, 0.0, 0.0);
    R.MempoolStaysUnit(m0, 0, 0.0, 0.0, 0.0);
    ZeroStays();
    R.EmaUnit(e.rejectEma, 1.0, 0.10);
    R.EmaUnit(e.rejectEma, 0.0, 0.04);
    R.EmaUnit(e.failEma, 1.0, 0.10);
    R.EmaUnit(e.failEma, 0.0, 0.04);
    var slowed := e.(latencyEma := R.Ema(e.latencyEma, 0.0, 0.08), mempool := m0);
    var m := if rejected then R.MempoolFailure(m0) else R.MempoolSuccess(m0);
    R.ClampUnit(R.RawScore(m));
    if rejected {
      QuietRecompute(cfg, slowed.(
                     rejectEma := R.Ema(e.rejectEma, 1.0, 0.10), failEma := R.Ema(e.failEma, 1.0, 0.10),
                     inclusionEma := R.Ema(e.inclusionEma, 0.0, 0.06), mempool := m), R.Score(m));
    } else {
      QuietRecompute(cfg, slowed.(
                     inclusionEma := R.Ema(e.inclusionEma, 1.0, 0.04), rejectEma := R.Ema(e.rejectEma, 0.0, 0.04),
                     failEma := R.Ema(e.failEma, 0.0, 0.04), mempool := m), R.Score(m));
    }
  }

  lemma ZeroStays()
    ensures R.Ema(0.0, 0.0, 0.08) == 0.0
  {
  }

  function Plain(cfg: R.Config): Event {
    Ask(R.Gates(false, false, 0.0, 0.0, 0.0, 1.0), R.Request(cfg.maxPosition / 2.0, Some(1.0), true, true, false, 1.0),
        R.Values(1.0, 1.0, 1.0))
  }

  function Back(rejected: bool): Event {
    Return(0.0, 0.0, rejected, R.NEUTRAL)
  }

  lemma QuietPasses(cfg: R.Config, s: System)
    requires cfg.maxExposure > 0.0 && cfg.maxPosition > 0.0 && cfg.maxDailyLoss > 0.0
    requires Quiet(s.intel) && s.intel.snapshot.circuit != R.Open
    ensures Step(cfg, s, Plain(cfg)) == s.(inFlight := s.inFlight + 1, passed := s.passed + 1)
  {
    hide R.CappedMultiplier, R.MempoolOk;
    R.ClampUnit(0.0);
    R.CappedFacts(s.intel.snapshot, R.Values(1.0, 1.0, 1.0), false);
  }

  lemma {:induction false} AsksPass(cfg: R.Config, n: nat)
    requires cfg.maxExposure > 0.0 && cfg.maxPosition > 0.0 && cfg.maxDailyLoss > 0.0
    ensures Run(cfg, seq(n, _ => Plain(cfg))) == System(R.FRESH, n, n, [])
  {
    hide Step, Plain, Quiet;
    if n > 0 {
      AsksPass(cfg, n - 1);
      assert seq(n, _ => Plain(cfg))[..n-1] == seq(n - 1, _ => Plain(cfg));
      FreshQuiet();
      QuietPasses(cfg, System(R.FRESH, n - 1, n - 1, []));
    }
  }

  lemma FreshQuiet()
    ensures Quiet(R.FRESH) && R.FRESH.snapshot.circuit != R.Open
  {
    R.FreshOk();
    R.ClampUnit(0.0);
  }

  lemma {:induction false} BacksReturn(cfg: R.Config, s: System, n: nat)
    requires cfg.maxExposure > 0.0 && Quiet(s.intel) && n <= s.inFlight
    ensures var t := RunFrom(cfg, s, seq(n, _ => Back(false)));
            && Quiet(t.intel) && t.inFlight == s.inFlight - n && t.passed == s.passed
            && t.results == s.results + seq(n, _ => false)
  {
    hide Quiet, R.ObserveExecution;
    if n > 0 {
      BacksReturn(cfg, s, n - 1);
      assert seq(n, _ => Back(false))[..n-1] == seq(n - 1, _ => Back(false));
      QuietReturn(cfg, RunFrom(cfg, s, seq(n - 1, _ => Back(false))).intel, false);
      assert seq(n, _ => false) == seq(n - 1, _ => false) + [false];
    }
  }

  /**
   The seven is sharp: with any larger number n of other calls in flight at the first error, eight successes
   among them reopen the circuit and the next call passes.
   */
  lemma EightReopen(cfg: R.Config, n: nat)
    requires cfg.maxExposure > 0.0 && cfg.maxPosition > 0.0 && cfg.maxDailyLoss > 0.0 && n >= 8
    ensures var failed := seq(n + 1, _ => Plain(cfg)) + [Back(true)];
            var after := failed + seq(8, _ => Back(false));
            var s, t := Run(cfg, failed), Run(cfg, after);
            && s.inFlight == n && s.results == [true] && s.intel.snapshot.circuit == R.Open
            && t.intel.snapshot.circuit != R.Open
            && Run(cfg, after + [Plain(cfg)]).passed == n + 2
  {
    hide Step, Plain, Quiet, R.ObserveExecution, RunFrom;
    var asks := seq(n + 1, _ => Plain(cfg));
    var failed := asks + [Back(true)];
    var after := failed + seq(8, _ => Back(false));
    AsksPass(cfg, n + 1);
    FreshQuiet();
    RunConcat(cfg, START, asks, [Back(true)]);
    OneStep(cfg, Run(cfg, asks), Back(true));
    FailedBack(cfg, n + 1);
    var s := Run(cfg, failed);
    OneResult();
    CircuitOpenIff(cfg, failed);
    RunConcat(cfg, START, failed, seq(8, _ => Back(false)));
    BacksReturn(cfg, s, 8);
    CircuitOpenIff(cfg, after);
    EightResults();
    QuietIs(Run(cfg, after).intel);
    RunConcat(cfg, START, after, [Plain(cfg)]);
    OneStep(cfg, Run(cfg, after), Plain(cfg));
    QuietPasses(cfg, Run(cfg, after));
  }

  lemma OneStep(cfg: R.Config, s: System, e: Event)
    requires cfg.maxExposure > 0.0
    ensures RunFrom(cfg, s, [e]) == Step(cfg, s, e)
  {
    hide Step;
    assert [e][..0] == [];
  }

  lemma FailedBack(cfg: R.Config, n: nat)
    requires cfg.maxExposure > 0.0 && n > 0
    ensures var s := Step(cfg, System(R.FRESH, n, n, []), Back(true));
            Quiet(s.intel) && s.inFlight == n - 1 && s.passed == n && s.results == [true]
  {
    hide Quiet, R.ObserveExecution;
    FreshQuiet();
    QuietReturn(cfg, R.FRESH, true);
  }

  lemma OneResult()
    ensures FailEmaAfter(0.0, [true]) == 1.0
  {
    assert [true][..0] == [];
  }

  lemma EightResults()
    ensures FailEmaAfter(0.0, [true] + seq(8, _ => false)) <= 0.75
  {
    AfterFirstFailure([], seq(8, _ => false));
    assert [] + [true] + seq(8, _ => false) == [true] + seq(8, _ => false);
    AllSuccesses(8);
    FadedValues();
  }

  lemma QuietIs(e: R.Intel)
    requires Quiet(e)
    ensures e.snapshot.stress <= 0.45 && e.snapshot.feedback.regime == R.Safe
  {
  }

  // ----- calls that do not overlap -----

  /** A sequential call as events: it asks, and if it passes it is answered or returns before anything else happens. */
  function Flat(cfg: R.Config, l: R.Loop, ev: R.Event): seq<Event> {
    match ev
    case Market(hash, volume, velocity, gross, f) => [Market(hash, volume, velocity, gross, f)]
    case Executed(f) => [Executed(f)]
    case Submit(gates, req, values, outcome) =>
      if !R.Gate(cfg, gates, l.intel.snapshot, req, values).allowed then [Ask(gates, req, values)]
      else
        [Ask(gates, req, values)] +
        match outcome {
          case AlreadyReserved => [Answer]
          case SendFails(latency, penalty, f) => [Return(latency, penalty, true, f)]
          case SendSucceeds(latency, penalty, f, fills) =>
            [Return(latency, penalty, false, f)] + seq(|fills|, i requires 0 <= i < |fills| => Executed(fills[i]))
        }
  }

  function FlatRun(cfg: R.Config, events: seq<R.Event>): seq<Event>
    requires cfg.maxExposure > 0.0
  {
    if events == [] then []
    else
      var past := events[..|events|-1];
      FlatRun(cfg, past) + Flat(cfg, R.RunLoop(cfg, past), events[|events|-1])
  }

  lemma {:induction false} FillsAreEvents(cfg: R.Config, s: System, fills: seq<R.Feedback>)
    requires cfg.maxExposure > 0.0
    ensures RunFrom(cfg, s, seq(|fills|, i requires 0 <= i < |fills| => Executed(fills[i])))
            == s.(intel := R.Fills(cfg, s.intel, fills))
  {
    hide R.ObserveFeedback;
    if fills != [] {
      var rest := fills[..|fills|-1];
      FillsAreEvents(cfg, s, rest);
      var all := seq(|fills|, i requires 0 <= i < |fills| => Executed(fills[i]));
      assert all[..|fills|-1] == seq(|rest|, i requires 0 <= i < |rest| => Executed(rest[i]));
    }
  }

  /** One call after another is the special case in which no call is left in flight. */
  ghost predicate Same(s: System, l: R.Loop) {
    s.intel == l.intel && s.inFlight == 0 && |s.results| == l.sends && (l.failed <==> true in s.results)
  }

  lemma FlatStep(cfg: R.Config, s: System, l: R.Loop, ev: R.Event)
    requires cfg.maxExposure > 0.0 && Same(s, l)
    ensures Same(RunFrom(cfg, s, Flat(cfg, l, ev)), R.LoopStep(cfg, l, ev))
  {
    hide R.Gate, R.ObserveExecution, R.ObserveMarket, R.ObserveFeedback, RunFrom, R.Fills;
    match ev {
      case Market(hash, volume, velocity, gross, f) => OneStep(cfg, s, Market(hash, volume, velocity, gross, f));
      case Executed(f) => OneStep(cfg, s, Executed(f));
      case Submit(gates, req, values, outcome) =>
        var ask := Ask(gates, req, values);
        OneStep(cfg, s, ask);
        if R.Gate(cfg, gates, l.intel.snapshot, req, values).allowed {
          var t := Step(cfg, s, ask);
          match outcome {
            case AlreadyReserved =>
              RunConcat(cfg, s, [ask], [Answer]);
              OneStep(cfg, t, Answer);
            case SendFails(latency, penalty, f) =>
              RunConcat(cfg, s, [ask], [Return(latency, penalty, true, f)]);
              OneStep(cfg, t, Return(latency, penalty, true, f));
            case SendSucceeds(latency, penalty, f, fills) =>
              var back := Return(latency, penalty, false, f);
              var rest := seq(|fills|, i requires 0 <= i < |fills| => Executed(fills[i]));
              RunConcat(cfg, s, [ask], [back] + rest);
              RunConcat(cfg, t, [back], rest);
              OneStep(cfg, t, back);
              FillsAreEvents(cfg, Step(cfg, t, back), fills);
          }
        }
    }
  }

  /** Every sequential run of the closed loop is such a run. */
  lemma {:induction false} SequentialIsOverlapping(cfg: R.Config, events: seq<R.Event>)
    requires cfg.maxExposure > 0.0
    ensures Same(Run(cfg, FlatRun(cfg, events)), R.RunLoop(cfg, events))
  {
    hide R.LoopStep, Flat, Step, Same, RunFrom;
    if events == [] {
      NothingYet(cfg);
    } else {
      var past := events[..|events|-1];
      SequentialIsOverlapping(cfg, past);
      FlatStep(cfg, Run(cfg, FlatRun(cfg, past)), R.RunLoop(cfg, past), events[|events|-1]);
      RunConcat(cfg, START, FlatRun(cfg, past), Flat(cfg, R.RunLoop(cfg, past), events[|events|-1]));
    }
  }

  lemma NothingYet(cfg: R.Config)
    requires cfg.maxExposure > 0.0
    ensures Same(Run(cfg, []), R.RunLoop(cfg, []))
  {
  }
}

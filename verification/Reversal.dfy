/** The reversal watcher: a short profitable trade arms it, and a later frame may confirm a flip the other way. */
module Reversal {
  import opened Numeric
  import opened Domain

  const SHORT_MS: nat := 10000
  const MAX_MOVE: real := 0.0035

  datatype Direction = Long | Short | Flat
  datatype RegimeKind = Usual | HighVolatility | NewsShock | LowLiquidity | TrendExpansion
  datatype FlowSignal = StrongContinuation | WeakContinuation | Exhaustion | ReversalRisk
  datatype TimingSignal = Optimal | Neutral | Wait | Missed
  datatype Phase = Idle | LongToShort | ShortToLong

  datatype Frame = Frame(
    timestamp: nat, tradePrice: Option<real>, bestBid: real, bestAsk: real, lastPrice: real, delta: real,
    absorption: real, topPressure: real, orderFlowDelta: real, microPriceVelocity: real, spreadDynamics: real,
    liquidityPull: real, volatility: real, spread: real, trendStrength: real, contextRegime: RegimeKind,
    stability: real, liquidity: real, flowSignal: FlowSignal, exhaustion: real, timing: TimingSignal, timingScore: real)

  datatype Sample = Sample(timestamp: nat, pnl: real, durationMs: nat, direction: Direction)

  datatype Context = Context(phase: Phase, activationTime: nat, exitPrice: real, lastDirection: Side)

  datatype Engine = Engine(context: Context, previousBuy: real, previousSell: real, lastMarketPrice: real)

  datatype Snapshot = Snapshot(
    phase: Phase, active: bool, confirmed: bool, direction: Direction, confidence: real, expectedEdge: real)

  const QUIET: Snapshot := Snapshot(Idle, false, false, Flat, 0.0, 0.0)
  const UNARMED: Engine := Engine(Context(Idle, 0, 0.0, Buy), 0.0, 0.0, 0.0)

  // ----- readings of a frame -----

  function MarketPrice(f: Frame): real {
    if f.tradePrice.Some? then f.tradePrice.value
    else if f.bestBid > 0.0 && f.bestAsk > 0.0 then (f.bestBid + f.bestAsk) * 0.5
    else f.lastPrice
  }

  function Pressure(delta: real, flow: real, top: real): (p: real)
    ensures p >= 0.0
  {
    MaxR(MaxR(delta, 0.0) + MaxR(flow, 0.0) * 0.65 + MaxR(top, 0.0) * 2.5, 0.0)
  }

  function BuyPressure(f: Frame): real {
    Pressure(f.delta, f.orderFlowDelta, f.topPressure)
  }

  function SellPressure(f: Frame): real {
    Pressure(-f.delta, -f.orderFlowDelta, -f.topPressure)
  }

  predicate AllowFlip(f: Frame) {
    f.contextRegime != TrendExpansion && f.contextRegime != HighVolatility && f.stability > 0.42 && f.liquidity > 0.38
  }

  predicate DominantTrend(f: Frame, blocked: Direction) {
    f.trendStrength > 1.2
    && match blocked
       case Long => f.microPriceVelocity > 0.8 && f.orderFlowDelta > 0.4
       case Short => f.microPriceVelocity < -0.8 && f.orderFlowDelta < -0.4
       case Flat => false
  }

  function Confidence(f: Frame, confirmed: bool): real {
    if confirmed
    then Clamp(0.35 * f.exhaustion + 0.30 * f.absorption + 0.20 * f.timingScore + 0.15 * f.stability, 0.0, 1.0)
    else 0.0
  }

  function Edge(f: Frame, confirmed: bool): real {
    if confirmed
    then MaxR(f.exhaustion * 1.4 + f.absorption + f.timingScore * 0.8 - f.spread * 0.05 - f.liquidityPull * 0.75, 0.0)
    else 0.0
  }

  // ----- arming -----

  function SideOf(d: Direction): Option<Side> {
    match d case Long => Some(Buy) case Short => Some(Sell) case Flat => None
  }

  function ExitPrice(e: Engine, latest: Option<Frame>): Option<real> {
    if latest.Some? && MarketPrice(latest.value) > 0.0 then Some(MarketPrice(latest.value))
    else if e.lastMarketPrice > 0.0 then Some(e.lastMarketPrice)
    else None
  }

  /** Which samples arm: a short profitable trade with a direction, outside a trend expansion, at a known price. */
  predicate Arms(e: Engine, s: Sample, latest: Option<Frame>) {
    && s.pnl > 0.0 && s.durationMs < SHORT_MS
    && !(latest.Some? && latest.value.contextRegime == TrendExpansion)
    && s.direction != Flat && ExitPrice(e, latest).Some?
  }

  function Learned(e: Engine, s: Sample, latest: Option<Frame>): Engine {
    if !Arms(e, s, latest) then e
    else
      e.(context := Context(
        if s.direction == Long then LongToShort else ShortToLong,
        if latest.Some? then latest.value.timestamp else s.timestamp,
        ExitPrice(e, latest).value, SideOf(s.direction).value))
  }

  // ----- watching -----

  predicate Expired(c: Context, f: Frame, timeout: nat) {
    c.phase != Idle
    && (SatSub(f.timestamp, c.activationTime) > timeout
        || Clamp(AbsR(MarketPrice(f) - c.exitPrice) / MaxR(c.exitPrice, EPSILON), 0.0, 1.0) > MAX_MOVE)
  }

  predicate Confirms(e: Engine, f: Frame) {
    && (f.flowSignal == Exhaustion || f.flowSignal == WeakContinuation)
    && (if e.context.phase == LongToShort then BuyPressure(f) < e.previousBuy * 0.82
        else SellPressure(f) < e.previousSell * 0.82)
    && (f.absorption > 0.30 || if e.context.phase == LongToShort then f.topPressure < 0.0 else f.topPressure > 0.0)
    && f.timing == Optimal && f.contextRegime != TrendExpansion && f.spreadDynamics <= 0.65 && f.volatility < 3.0
  }

  predicate Abandons(e: Engine, f: Frame, timeout: nat) {
    Expired(e.context, f, timeout) || !AllowFlip(f)
    || DominantTrend(f, if e.context.phase == LongToShort then Long else Short)
  }

  function Cleared(c: Context): Context {
    c.(phase := Idle, activationTime := 0, exitPrice := 0.0)
  }

  function SnapshotOf(e: Engine, f: Frame, timeout: nat): Snapshot {
    if e.context.phase == Idle || Abandons(e, f, timeout) then QUIET
    else
      var confirmed := Confirms(e, f);
      Snapshot(e.context.phase, true, confirmed, if e.context.phase == LongToShort then Short else Long,
               Confidence(f, confirmed), Edge(f, confirmed))
  }

  function Watched(e: Engine, f: Frame, timeout: nat): Engine {
    var done := e.context.phase != Idle && (Abandons(e, f, timeout) || Confirms(e, f));
    Engine(if done then Cleared(e.context) else e.context, BuyPressure(f), SellPressure(f), MarketPrice(f))
  }

  // ----- runs -----

  datatype Event = Learn(sample: Sample) | Look(frame: Frame)

  datatype Machine = Machine(engine: Engine, latest: Option<Frame>)

  function Step(m: Machine, e: Event, timeout: nat): Machine {
    match e
    case Learn(s) => m.(engine := Learned(m.engine, s, m.latest))
    case Look(f) => Machine(Watched(m.engine, f, timeout), Some(f))
  }

  function Run(events: seq<Event>, timeout: nat): Machine {
    if events == [] then Machine(UNARMED, None)
    else Step(Run(events[..|events|-1], timeout), events[|events|-1], timeout)
  }

  /** The sample at position j arms the watcher. */
  predicate ArmsAt(events: seq<Event>, j: nat, timeout: nat)
    requires j < |events|
  {
    events[j].Learn? && Arms(Run(events[..j], timeout).engine, events[j].sample, Run(events[..j], timeout).latest)
  }

  /** The frame at position k is answered with a confirmed reversal. */
  predicate ConfirmsAt(events: seq<Event>, k: nat, timeout: nat)
    requires k < |events|
  {
    events[k].Look? && SnapshotOf(Run(events[..k], timeout).engine, events[k].frame, timeout).confirmed
  }

  /** What the watcher remembers of the market is its latest frame. */
  ghost predicate Remembers(m: Machine) {
    match m.latest
    case None => m.engine == UNARMED
    case Some(f) =>
      m.engine.previousBuy == BuyPressure(f) && m.engine.previousSell == SellPressure(f)
      && m.engine.lastMarketPrice == MarketPrice(f)
  }

  lemma {:induction false} RunRemembers(events: seq<Event>, timeout: nat)
    ensures Remembers(Run(events, timeout))
  {
    hide Abandons, Confirms, MarketPrice, BuyPressure, SellPressure;
    if events != [] {
      RunRemembers(events[..|events|-1], timeout);
    }
  }

  /**
   In a run the fall-backs of arming are never used: the exit price is the latest frame's price and the
   activation time that frame's time, so nothing arms before a frame with a positive price.
   */
  lemma ArmingReadsLatestFrame(events: seq<Event>, s: Sample, timeout: nat)
    ensures var m := Run(events, timeout);
            Arms(m.engine, s, m.latest) ==>
              && m.latest.Some? && MarketPrice(m.latest.value) > 0.0
              && Learned(m.engine, s, m.latest).context.activationTime == m.latest.value.timestamp
              && Learned(m.engine, s, m.latest).context.exitPrice == MarketPrice(m.latest.value)
  {
    hide Run, MarketPrice;
    RunRemembers(events, timeout);
  }

  /** The watcher's context is the one set by the arming sample at j, and nothing since has armed or confirmed. */
  ghost predicate HeldFrom(events: seq<Event>, j: nat, timeout: nat) {
    && j < |events| && ArmsAt(events, j, timeout)
    && Run(events, timeout).engine.context == Run(events[..j+1], timeout).engine.context
    && forall i :: j < i < |events| ==> !ArmsAt(events, i, timeout) && !ConfirmsAt(events, i, timeout)
  }

  lemma {:induction false} PhaseIsHeld(events: seq<Event>, timeout: nat)
    requires Run(events, timeout).engine.context.phase != Idle
    ensures exists j :: HeldFrom(events, j, timeout)
  {
    hide Arms, Confirms, Abandons, Confidence, Edge, ExitPrice;
    if events != [] {
      var past, n := events[..|events|-1], |events| - 1;
      if ArmsAt(events, n, timeout) {
        assert events[..n+1] == events;
        assert HeldFrom(events, n, timeout);
      } else {
        PhaseIsHeld(past, timeout);
        var j :| HeldFrom(past, j, timeout);
        HeldStep(past, events[n], j, timeout);
        assert past + [events[n]] == events;
      }
    }
  }

  /** An event that neither arms nor ends the watch leaves it held. */
  lemma HeldStep(past: seq<Event>, e: Event, j: nat, timeout: nat)
    requires HeldFrom(past, j, timeout) && !ArmsAt(past + [e], |past|, timeout)
    requires Run(past + [e], timeout).engine.context.phase != Idle
    ensures HeldFrom(past + [e], j, timeout)
  {
    hide ArmsAt, ConfirmsAt, Run;
    var events := past + [e];
    forall i | 0 <= i < |past|
      ensures ArmsAt(events, i, timeout) == ArmsAt(past, i, timeout)
      ensures ConfirmsAt(events, i, timeout) == ConfirmsAt(past, i, timeout)
    {
      SamePrefix(past, e, i, timeout);
    }
    QuietStep(past, e, timeout);
    assert events[..j+1] == past[..j+1];
  }

  lemma SamePrefix(past: seq<Event>, e: Event, i: nat, timeout: nat)
    requires i < |past|
    ensures ArmsAt(past + [e], i, timeout) == ArmsAt(past, i, timeout)
    ensures ConfirmsAt(past + [e], i, timeout) == ConfirmsAt(past, i, timeout)
  {
    hide Run, Arms, SnapshotOf;
    assert (past + [e])[..i] == past[..i];
  }

  lemma QuietStep(past: seq<Event>, e: Event, timeout: nat)
    requires !ArmsAt(past + [e], |past|, timeout) && Run(past + [e], timeout).engine.context.phase != Idle
    ensures Run(past + [e], timeout).engine.context == Run(past, timeout).engine.context
    ensures !ConfirmsAt(past + [e], |past|, timeout)
  {
    hide Run, Arms, Abandons, Confirms, Confidence, Edge, MarketPrice, BuyPressure, SellPressure;
    RunStep(past, e, timeout);
    assert (past + [e])[..|past|] == past;
  }

  lemma RunStep(past: seq<Event>, e: Event, timeout: nat)
    ensures Run(past + [e], timeout) == Step(Run(past, timeout), e, timeout)
  {
    assert (past + [e])[..|past|] == past;
  }

  /** A confirmed snapshot is live, unexpired and in the direction its phase watches for. */
  lemma ConfirmedMeans(e: Engine, f: Frame, timeout: nat)
    requires SnapshotOf(e, f, timeout).confirmed
    ensures e.context.phase != Idle && Confirms(e, f) && SatSub(f.timestamp, e.context.activationTime) <= timeout
    ensures SnapshotOf(e, f, timeout).direction == if e.context.phase == LongToShort then Short else Long
    ensures e.context.exitPrice > 0.0 ==>
              AbsR(MarketPrice(f) - e.context.exitPrice) <= MAX_MOVE * MaxR(e.context.exitPrice, EPSILON)
    ensures Watched(e, f, timeout).context.phase == Idle
  {
    hide MarketPrice, AllowFlip, DominantTrend, Confirms, Confidence, Edge, BuyPressure, SellPressure;
    var gap, base := AbsR(MarketPrice(f) - e.context.exitPrice), MaxR(e.context.exitPrice, EPSILON);
    assert gap / base <= MAX_MOVE;
    RatioBound(gap, base);
  }

  lemma RatioBound(gap: real, base: real)
    requires base > 0.0 && gap / base <= MAX_MOVE
    ensures gap <= MAX_MOVE * base
  {
    var r := gap / base;
    assert r * base == gap;
    assert (MAX_MOVE - r) * base >= 0.0;
  }

  /**
   Every confirmed reversal traces back to one arming sample: the other direction, within the timeout of
   the frame it was armed on, at a price within 0.35% of that frame's, with no arming or confirmation in
   between, and on a frame whose pressure fell below 82% of the frame before it.
   */
  lemma ConfirmationIsArmed(events: seq<Event>, k: nat, timeout: nat)
    requires k < |events| && ConfirmsAt(events, k, timeout)
    ensures exists j ::
              && 0 <= j < k && ArmsAt(events, j, timeout)
              && (forall i :: j < i < k ==> !ArmsAt(events, i, timeout) && !ConfirmsAt(events, i, timeout))
              && Traces(events, j, k, timeout)
  {
    hide Run, Arms, Confirms, MarketPrice, BuyPressure, SellPressure, SnapshotOf, Learned, Step, Watched, Remembers;
    var past, f := events[..k], events[k].frame;
    ConfirmedMeans(Run(past, timeout).engine, f, timeout);
    PhaseIsHeld(past, timeout);
    var j :| HeldFrom(past, j, timeout);
    forall i | 0 <= i <= k ensures events[..i] == past[..i] {}
    HeldTraces(events, j, k, timeout);
    assert forall i :: 0 <= i < k ==> ArmsAt(events, i, timeout) == ArmsAt(past, i, timeout);
    assert forall i :: 0 <= i < k ==> ConfirmsAt(events, i, timeout) == ConfirmsAt(past, i, timeout);
  }

  /** How the confirmation at k relates to the sample at j. */
  ghost predicate Traces(events: seq<Event>, j: nat, k: nat, timeout: nat)
    requires j < k < |events|
  {
    && events[j].Learn? && events[k].Look?
    && events[j].sample.pnl > 0.0 && events[j].sample.durationMs < SHORT_MS
    && var sample, f := events[j].sample, events[k].frame;
    && var armedOn, before := Run(events[..j], timeout).latest, Run(events[..k], timeout).latest;
    && armedOn.Some? && before.Some? && MarketPrice(armedOn.value) > 0.0
    && SatSub(f.timestamp, armedOn.value.timestamp) <= timeout
    && AbsR(MarketPrice(f) - MarketPrice(armedOn.value)) <= MAX_MOVE * MaxR(MarketPrice(armedOn.value), EPSILON)
    && var d := SnapshotOf(Run(events[..k], timeout).engine, f, timeout).direction;
    && (sample.direction == Long ==> d == Short && BuyPressure(f) < BuyPressure(before.value) * 0.82)
    && (sample.direction == Short ==> d == Long && SellPressure(f) < SellPressure(before.value) * 0.82)
    && sample.direction != Flat
  }

  lemma HeldTraces(events: seq<Event>, j: nat, k: nat, timeout: nat)
    requires k < |events| && ConfirmsAt(events, k, timeout) && HeldFrom(events[..k], j, timeout)
    ensures j < k && Traces(events, j, k, timeout)
  {
    hide Run, MarketPrice, BuyPressure, SellPressure, SnapshotOf, Watched, ExitPrice;
    var past, f := events[..k], events[k].frame;
    var m, armed := Run(past, timeout), Run(events[..j], timeout);
    assert past[..j] == events[..j] && past[..j+1] == events[..j] + [events[j]];
    RunStep(events[..j], events[j], timeout);
    ArmingReadsLatestFrame(events[..j], events[j].sample, timeout);
    ConfirmedMeans(m.engine, f, timeout);
    RunRemembers(past, timeout);
  }

  function ArmCount(events: seq<Event>, timeout: nat): nat {
    if events == [] then 0
    else ArmCount(events[..|events|-1], timeout) + if ArmsAt(events, |events|-1, timeout) then 1 else 0
  }

  function ConfirmCount(events: seq<Event>, timeout: nat): nat {
    if events == [] then 0
    else ConfirmCount(events[..|events|-1], timeout) + if ConfirmsAt(events, |events|-1, timeout) then 1 else 0
  }

  /** Confirmed reversals never outnumber arming samples; an armed watcher is one still owed. */
  lemma {:induction false} ConfirmedWithinArmed(events: seq<Event>, timeout: nat)
    ensures ConfirmCount(events, timeout) + (if Run(events, timeout).engine.context.phase != Idle then 1 else 0)
            <= ArmCount(events, timeout)
  {
    hide Arms, Confirms, Abandons, MarketPrice, BuyPressure, SellPressure, Confidence, Edge, ExitPrice;
    if events != [] {
      ConfirmedWithinArmed(events[..|events|-1], timeout);
    }
  }

  /** Between any two confirmations there is a fresh arming sample. */
  lemma NoSecondConfirmation(events: seq<Event>, k1: nat, k2: nat, timeout: nat)
    requires k1 < k2 < |events| && ConfirmsAt(events, k1, timeout) && ConfirmsAt(events, k2, timeout)
    ensures exists j :: k1 < j < k2 && ArmsAt(events, j, timeout)
  {
    hide Run, ArmsAt, ConfirmsAt, Traces;
    ConfirmationIsArmed(events, k2, timeout);
    var j :| 0 <= j < k2 && ArmsAt(events, j, timeout) && forall i :: j < i < k2 ==> !ConfirmsAt(events, i, timeout);
    assert events[k1].Look? && events[j].Learn? by {
      ArmOrLook(events, k1, j, timeout);
    }
  }

  lemma ArmOrLook(events: seq<Event>, k: nat, j: nat, timeout: nat)
    requires k < |events| && j < |events| && ConfirmsAt(events, k, timeout) && ArmsAt(events, j, timeout)
    ensures events[k].Look? && events[j].Learn?
  {
  }

  // ----- the two directions are mirror images -----

  function MirrorDirection(d: Direction): Direction {
    match d case Long => Short case Short => Long case Flat => Flat
  }

  function MirrorPhase(p: Phase): Phase {
    match p case Idle => Idle case LongToShort => ShortToLong case ShortToLong => LongToShort
  }

  /** The frame with buying and selling exchanged; prices, costs and quality readings stay. */
  function MirrorFrame(f: Frame): Frame {
    f.(delta := -f.delta, orderFlowDelta := -f.orderFlowDelta, topPressure := -f.topPressure,
       microPriceVelocity := -f.microPriceVelocity)
  }

  function MirrorEvent(e: Event): Event {
    match e
    case Learn(s) => Learn(s.(direction := MirrorDirection(s.direction)))
    case Look(f) => Look(MirrorFrame(f))
  }

  function MirrorEvents(events: seq<Event>): seq<Event> {
    seq(|events|, i requires 0 <= i < |events| => MirrorEvent(events[i]))
  }

  /** The watchers are mirror images; the side last traded is not compared, since nothing reads it. */
  ghost predicate Mirrored(m: Machine, m': Machine) {
    && m'.engine.context.phase == MirrorPhase(m.engine.context.phase)
    && m'.engine.context.activationTime == m.engine.context.activationTime
    && m'.engine.context.exitPrice == m.engine.context.exitPrice
    && m'.engine.previousBuy == m.engine.previousSell && m'.engine.previousSell == m.engine.previousBuy
    && m'.engine.lastMarketPrice == m.engine.lastMarketPrice
    && m'.latest == if m.latest.Some? then Some(MirrorFrame(m.latest.value)) else None
  }

  lemma MirrorReadings(f: Frame)
    ensures BuyPressure(MirrorFrame(f)) == SellPressure(f) && SellPressure(MirrorFrame(f)) == BuyPressure(f)
    ensures MarketPrice(MirrorFrame(f)) == MarketPrice(f) && AllowFlip(MirrorFrame(f)) == AllowFlip(f)
    ensures DominantTrend(MirrorFrame(f), Short) == DominantTrend(f, Long)
    ensures DominantTrend(MirrorFrame(f), Long) == DominantTrend(f, Short)
    ensures forall c :: Confidence(MirrorFrame(f), c) == Confidence(f, c) && Edge(MirrorFrame(f), c) == Edge(f, c)
  {
  }

  lemma MirrorLook(m: Machine, m': Machine, f: Frame, timeout: nat)
    requires Mirrored(m, m')
    ensures var s, s' := SnapshotOf(m.engine, f, timeout), SnapshotOf(m'.engine, MirrorFrame(f), timeout);
            s' == s.(phase := MirrorPhase(s.phase), direction := MirrorDirection(s.direction))
    ensures Mirrored(Step(m, Look(f), timeout), Step(m', Look(MirrorFrame(f)), timeout))
  {
    hide BuyPressure, SellPressure, MarketPrice, AllowFlip, DominantTrend, Confidence, Edge;
    MirrorReadings(f);
  }

  lemma MirrorLearn(m: Machine, m': Machine, s: Sample, timeout: nat)
    requires Mirrored(m, m')
    ensures Mirrored(Step(m, Learn(s), timeout), Step(m', MirrorEvent(Learn(s)), timeout))
  {
    hide BuyPressure, SellPressure, MarketPrice;
    if m.latest.Some? {
      MirrorReadings(m.latest.value);
    }
  }

  /**
   Exchanging buying and selling in every sample and frame of a run exchanges the two directions in every answer and
   changes nothing else: neither direction is armed, watched, abandoned or confirmed by other rules than the other.
   */
  lemma {:induction false} MirrorRun(events: seq<Event>, f: Frame, timeout: nat)
    ensures Mirrored(Run(events, timeout), Run(MirrorEvents(events), timeout))
    ensures var s := SnapshotOf(Run(events, timeout).engine, f, timeout);
            SnapshotOf(Run(MirrorEvents(events), timeout).engine, MirrorFrame(f), timeout)
            == s.(phase := MirrorPhase(s.phase), direction := MirrorDirection(s.direction))
  {
    hide Step, SnapshotOf, Mirrored;
    if events == [] {
      UnarmedMirrors();
    } else {
      var n := |events| - 1;
      MirrorRun(events[..n], f, timeout);
      assert MirrorEvents(events)[..n] == MirrorEvents(events[..n]);
      var m, m' := Run(events[..n], timeout), Run(MirrorEvents(events[..n]), timeout);
      match events[n] {
        case Learn(s) => MirrorLearn(m, m', s, timeout);
        case Look(g) => MirrorLook(m, m', g, timeout);
      }
    }
    MirrorLook(Run(events, timeout), Run(MirrorEvents(events), timeout), f, timeout);
  }

  lemma UnarmedMirrors()
    ensures Mirrored(Machine(UNARMED, None), Machine(UNARMED, None))
  {
  }

  // ----- what confirms -----

  /** The market the frame shows may be sold against: stable and liquid, no expanding trend and no dominant rise. */
  predicate Sellable(f: Frame) {
    && f.contextRegime != TrendExpansion && f.contextRegime != HighVolatility
    && f.stability > 0.42 && f.liquidity > 0.38
    && !(f.trendStrength > 1.2 && f.microPriceVelocity > 0.8 && f.orderFlowDelta > 0.4)
  }

  /** The frame comes within the timeout of the one armed on, at a price within 0.35% of its price. */
  predicate InReach(armedOn: Frame, f: Frame, timeout: nat) {
    && SatSub(f.timestamp, armedOn.timestamp) <= timeout
    && AbsR(MarketPrice(f) - MarketPrice(armedOn)) <= MAX_MOVE * MaxR(MarketPrice(armedOn), EPSILON)
  }

  /** The buying that was there in the frame before has gone: a weak flow, absorbed or turned, at the optimal time. */
  predicate BuyingFades(before: Frame, f: Frame) {
    && f.flowSignal in {Exhaustion, WeakContinuation} && f.timing == Optimal
    && BuyPressure(f) < 0.82 * BuyPressure(before) && (f.absorption > 0.30 || f.topPressure < 0.0)
  }

  /**
   In a run a sample arms exactly when it is a short profitable trade with a direction and the latest frame shows a
   price and no expanding trend.
   */
  lemma ArmsIff(events: seq<Event>, s: Sample, timeout: nat)
    ensures var m := Run(events, timeout);
            Arms(m.engine, s, m.latest)
            <==> s.pnl > 0.0 && s.durationMs < 10000 && s.direction in {Long, Short}
                 && m.latest.Some? && MarketPrice(m.latest.value) > 0.0
                 && m.latest.value.contextRegime != TrendExpansion
  {
    hide Run, MarketPrice;
    RunRemembers(events, timeout);
  }

  /**
   While the watcher holds the arming of a long trade, it goes on watching over a frame exactly when the frame is in
   reach of the one armed on and shows a market that may be sold against, and it answers with a confirmed reversal,
   which ends the watch, exactly when besides the market is calm and the buying fades from the frame before.  The case
   of a short trade is the mirror image.
   */
  lemma ConfirmedIff(events: seq<Event>, j: nat, k: nat, timeout: nat)
    requires k < |events| && events[k].Look? && HeldFrom(events[..k], j, timeout)
    requires events[j].Learn? && events[j].sample.direction == Long
    ensures var armedOn, before := Run(events[..j], timeout).latest, Run(events[..k], timeout).latest;
            && armedOn.Some? && before.Some? && MarketPrice(armedOn.value) > 0.0
            && var f := events[k].frame;
            var held := InReach(armedOn.value, f, timeout) && Sellable(f);
            var fades := f.spreadDynamics <= 0.65 && f.volatility < 3.0 && BuyingFades(before.value, f);
            && (ConfirmsAt(events, k, timeout) <==> held && fades)
            && (Run(events[..k+1], timeout).engine.context.phase == LongToShort <==> held && !fades)
  {
    hide Run, MarketPrice, BuyPressure, SellPressure, SnapshotOf, Watched, ExitPrice, Sellable, BuyingFades;
    var past, f := events[..k], events[k].frame;
    var m, armed := Run(past, timeout), Run(events[..j], timeout);
    assert past[..j] == events[..j] && past[..j+1] == events[..j] + [events[j]];
    assert events[..k+1] == past + [events[k]];
    RunStep(events[..j], events[j], timeout);
    RunStep(past, events[k], timeout);
    ArmingReadsLatestFrame(events[..j], events[j].sample, timeout);
    RunRemembers(past, timeout);
    LongConfirmedIff(m.engine, armed.latest.value, m.latest.value, f, timeout);
  }

  lemma LongConfirmedIff(e: Engine, armedOn: Frame, before: Frame, f: Frame, timeout: nat)
    requires e.context.phase == LongToShort && e.context.exitPrice == MarketPrice(armedOn) > 0.0
    requires e.context.activationTime == armedOn.timestamp && e.previousBuy == BuyPressure(before)
    ensures var held := InReach(armedOn, f, timeout) && Sellable(f);
            var fades := f.spreadDynamics <= 0.65 && f.volatility < 3.0 && BuyingFades(before, f);
            && (SnapshotOf(e, f, timeout).confirmed <==> held && fades)
            && (Watched(e, f, timeout).context.phase == LongToShort <==> held && !fades)
  {
    hide MarketPrice, BuyPressure, SellPressure, Confidence, Edge;
    MoveIff(AbsR(MarketPrice(f) - e.context.exitPrice), MaxR(e.context.exitPrice, EPSILON));
  }

  lemma MoveIff(gap: real, base: real)
    requires 0.0 <= gap && base > 0.0
    ensures Clamp(gap / base, 0.0, 1.0) > MAX_MOVE <==> gap > MAX_MOVE * base
  {
    var r := gap / base;
    assert r * base == gap;
    if r <= MAX_MOVE {
      ProductSign(MAX_MOVE - r, base);
    } else {
      ProductSign(r - MAX_MOVE, base);
    }
  }

  // ----- the readings -----

  /** Without a trade the price is midway between two positive quotes. */
  lemma PriceMeans(f: Frame)
    ensures f.tradePrice.Some? ==> MarketPrice(f) == f.tradePrice.value
    ensures f.tradePrice.None? && f.bestBid > 0.0 && f.bestAsk > 0.0 ==>
              MarketPrice(f) - f.bestBid == f.bestAsk - MarketPrice(f)
    ensures f.tradePrice.None? && !(f.bestBid > 0.0 && f.bestAsk > 0.0) ==> MarketPrice(f) == f.lastPrice
  {
  }

  /**
   There is no pressure exactly when no reading points that way; a reading that does counts one for one in the tape, at
   0.65 in the order flow and at 2.5 in the book, and one that points the other way counts nothing.
   */
  lemma PressureMeans(delta: real, flow: real, top: real, more: real)
    requires more >= 0.0
    ensures Pressure(delta, flow, top) == 0.0 <==> delta <= 0.0 && flow <= 0.0 && top <= 0.0
    ensures Pressure(delta, flow, top) <= Pressure(delta + more, flow + more, top + more)
    ensures delta >= 0.0 ==> Pressure(delta + more, flow, top) == Pressure(delta, flow, top) + more
    ensures flow >= 0.0 ==> Pressure(delta, flow + more, top) == Pressure(delta, flow, top) + 0.65 * more
    ensures top >= 0.0 ==> Pressure(delta, flow, top + more) == Pressure(delta, flow, top) + 2.5 * more
    ensures delta <= 0.0 ==> Pressure(delta - more, flow, top) == Pressure(delta, flow, top)
    ensures flow <= 0.0 ==> Pressure(delta, flow - more, top) == Pressure(delta, flow, top)
    ensures top <= 0.0 ==> Pressure(delta, flow, top - more) == Pressure(delta, flow, top)
  {
    hide MaxR, Pressure;
    PressureParts();
    PositivePart(delta, more);
    PositivePart(flow, more);
    PositivePart(top, more);
  }

  lemma PressureParts()
    ensures forall a, b, c :: Pressure(a, b, c) == MaxR(a, 0.0) + 0.65 * MaxR(b, 0.0) + 2.5 * MaxR(c, 0.0)
  {
  }

  lemma PositivePart(v: real, more: real)
    requires more >= 0.0
    ensures 0.0 <= MaxR(v, 0.0) <= MaxR(v + more, 0.0) && (MaxR(v, 0.0) == 0.0 <==> v <= 0.0)
    ensures v >= 0.0 ==> MaxR(v + more, 0.0) == MaxR(v, 0.0) + more
    ensures v <= 0.0 ==> MaxR(v - more, 0.0) == MaxR(v, 0.0)
  {
  }

  /** Only a confirmed answer carries a confidence or an edge. */
  lemma UnconfirmedIsEmpty(e: Engine, f: Frame, timeout: nat)
    ensures var s := SnapshotOf(e, f, timeout); !s.confirmed ==> s.confidence == s.expectedEdge == 0.0
  {
    hide Abandons, Confirms;
  }

  /**
   The confidence lies between the least and the greatest of its four readings, and moves with each by its share; the
   edge is never negative, rises with exhaustion, absorption and timing and falls with the spread and pulled liquidity.
   */
  lemma ConfidenceBetween(f: Frame, lo: real, hi: real)
    requires 0.0 <= lo <= f.exhaustion <= hi <= 1.0 && lo <= f.absorption <= hi
    requires lo <= f.timingScore <= hi && lo <= f.stability <= hi
    ensures lo <= Confidence(f, true) <= hi
    ensures f.exhaustion == hi && f.absorption == f.timingScore == f.stability == lo ==>
              Confidence(f, true) == lo + 0.35 * (hi - lo)
    ensures f.absorption == hi && f.exhaustion == f.timingScore == f.stability == lo ==>
              Confidence(f, true) == lo + 0.30 * (hi - lo)
    ensures f.timingScore == hi && f.exhaustion == f.absorption == f.stability == lo ==>
              Confidence(f, true) == lo + 0.20 * (hi - lo)
  {
  }

  lemma EdgeMoves(f: Frame, better: Frame)
    requires f.exhaustion <= better.exhaustion && f.absorption <= better.absorption
    requires f.timingScore <= better.timingScore && better.spread <= f.spread && better.liquidityPull <= f.liquidityPull
    ensures 0.0 <= Edge(f, true) <= Edge(better, true)
    ensures Edge(f, true) > 0.0 ==>
              Edge(better, true) - Edge(f, true)
              == 1.4 * (better.exhaustion - f.exhaustion) + (better.absorption - f.absorption)
                 + 0.8 * (better.timingScore - f.timingScore) + 0.05 * (f.spread - better.spread)
                 + 0.75 * (f.liquidityPull - better.liquidityPull)
  {
  }

  // ----- the engine as it runs -----

  class ReversalEngine {
    const timeout: nat
    var context: Context
    var previousBuy: real
    var previousSell: real
    var lastMarketPrice: real
    var lastMarketTs: nat

    function Now(): Engine
      reads this
    {
      Engine(context, previousBuy, previousSell, lastMarketPrice)
    }

    constructor (observationTimeoutMs: nat)
      ensures timeout == observationTimeoutMs && Now() == UNARMED
    {
      timeout := observationTimeoutMs;
      context := Context(Idle, 0, 0.0, Buy);
      previousBuy, previousSell, lastMarketPrice, lastMarketTs := 0.0, 0.0, 0.0, 0;
    }

    method ObserveLearning(s: Sample, latest: Option<Frame>)
      modifies this`context
      ensures Now() == Learned(old(Now()), s, latest)
    {
      var trending := latest.Some? && latest.value.contextRegime == TrendExpansion;
      if s.pnl <= 0.0 || s.durationMs >= SHORT_MS || trending {
        return;
      }
      var side := SideOf(s.direction);
      if side.None? {
        return;
      }
      var price := ExitPrice(Now(), latest);
      if price.None? {
        return;
      }
      context := Context(
        if side.value == Buy then LongToShort else ShortToLong,
        if latest.Some? then latest.value.timestamp else s.timestamp, price.value, side.value);
    }

    /** Answers a frame from the pressures of the frame before, then replaces them. */
    method ObserveFrame(f: Frame) returns (snapshot: Snapshot)
      modifies this
      ensures Now() == Watched(old(Now()), f, timeout)
      ensures snapshot == SnapshotOf(old(Now()), f, timeout)
    {
      hide MarketPrice, BuyPressure, SellPressure, Confirms, Abandons;
      ghost var before := Now();
      lastMarketPrice := MarketPrice(f);
      lastMarketTs := f.timestamp;
      PriceUnread(before, Now(), f, timeout);
      match context.phase {
        case Idle => snapshot := QUIET;
        case LongToShort => snapshot := ObservePhase(f, Short);
        case ShortToLong => snapshot := ObservePhase(f, Long);
      }
      previousBuy := BuyPressure(f);
      previousSell := SellPressure(f);
    }

    method ObservePhase(f: Frame, direction: Direction) returns (snapshot: Snapshot)
      requires context.phase != Idle && direction == if context.phase == LongToShort then Short else Long
      modifies this`context
      ensures snapshot == SnapshotOf(old(Now()), f, timeout)
      ensures context == if Abandons(old(Now()), f, timeout) || Confirms(old(Now()), f) then Cleared(old(context))
                         else old(context)
    {
      hide Confirms, Abandons, Confidence, Edge;
      if Abandons(Now(), f, timeout) {
        Reset();
        return QUIET;
      }
      var confirmed := Confirms(Now(), f);
      snapshot := Snapshot(context.phase, true, confirmed, direction, Confidence(f, confirmed), Edge(f, confirmed));
      if confirmed {
        Reset();
      }
    }

    method Reset()
      modifies this`context
      ensures context == Cleared(old(context))
    {
      context := context.(phase := Idle);
      context := context.(activationTime := 0);
      context := context.(exitPrice := 0.0);
    }
  }

  /** Watching reads the context and the pressures, not the remembered price. */
  lemma PriceUnread(e: Engine, e': Engine, f: Frame, timeout: nat)
    requires e'.context == e.context && e'.previousBuy == e.previousBuy && e'.previousSell == e.previousSell
    ensures Abandons(e, f, timeout) == Abandons(e', f, timeout) && Confirms(e, f) == Confirms(e', f)
    ensures SnapshotOf(e, f, timeout) == SnapshotOf(e', f, timeout)
  {
    hide MarketPrice, BuyPressure, SellPressure, Confidence, Edge;
  }
}

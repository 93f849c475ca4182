/**
 The controller of one resting order: it watches the book and the order's own events, and decides
 when to reprice, cancel, switch strategy, leave the position or abort.
 */
module OrderController {
  import opened Numeric
  import opened Domain
  import opened OrderQueue
  import EdgeValidation

  const U32_MAX: nat := 0xFFFF_FFFF

  datatype Strategy = Passive | Aggressive | Defensive
  datatype Status = Fresh | Sent | Ack | Partial | Filled | Canceled | Rejected
  {
    predicate Terminal() { Filled? || Canceled? || Rejected? }
  }
  datatype Flag = NoFlag | SlowFill | RepeatedOutbid | CancelLatency | PartialFillToxicity

  datatype Action =
    | HoldPassive
    | StepAhead(newPrice: real)
    | CrossSpread
    | Cancel
    | Replace(newPrice: real)
    | SwitchStrategy(newStrategy: Strategy)
    | ExitPosition(exitPrice: Option<real>)
    | Abort

  datatype Instruction =
    | SendReplace(price: real)
    | SendSwitch(strategy: Strategy, at: Option<real>)
    | SendCancel
    | SendExit(side: Side, size: real, at: Option<real>)
    | SendAbort

  datatype Level = Level(price: real, quantity: real)

  datatype MarketUpdate =
    | Trade(volume: real, timestamp: nat)
    | BookDelta(bids: seq<Level>, asks: seq<Level>, timestamp: nat)

  datatype ExecutionEvent = ExecutionEvent(
    status: Status, filledQtyDelta: real, cumulativeFilledQty: real, remainingQty: real, partialFillRatio: real,
    slippageBps: real, flag: Flag, timestamp: nat)

  datatype Intent = Intent(
    side: Side, price: Option<real>, size: real, volumeAhead: real, queueFillProbability: real, expectedDurationMs: nat,
    timestamp: nat, urgency: real, halfLifeSamples: real, strategy: Strategy, score: real, edgeReliability: real,
    edgeState: EdgeValidation.EdgeState, expectedSlippageBps: real, highFill: bool, negativeCaptureStreak: nat,
    executionAlphaMean: real, tradingEnabled: bool, markoutDegradation: real, captureMean: real)

  datatype Config = Config(
    cooldownMs: nat, maxCancel: nat, maxReplace: nat, replaceVolumeFactor: real, minFillProbability: real)
  {
    /** The two limits are 32-bit counters in the program. */
    predicate Fits() { maxCancel <= U32_MAX && maxReplace <= U32_MAX }
  }

  /** What is fixed when the order is taken on. */
  datatype Terms = Terms(intent: Intent, cfg: Config)
  {
    function FillTimeMs(): real {
      intent.expectedDurationMs as real / MaxR(Clamp(intent.queueFillProbability, 0.0, 1.0), 0.05)
      * Clamp(1.15 - intent.urgency * 0.35, 0.65, 1.20)
    }

    function HalfLifeMs(): real {
      var base := intent.expectedDurationMs as real;
      Clamp(MaxR(intent.halfLifeSamples, 0.5) * base, base * 0.75, base * 12.0)
    }

    function InitialAhead(): real { MaxR(intent.volumeAhead, intent.size) }
    function VolumeFactor(): real { MaxR(cfg.replaceVolumeFactor, 1.05) }
    function MinProbability(): real { Clamp(cfg.minFillProbability, 0.05, 0.95) }
    predicate Approved() { intent.tradingEnabled && intent.edgeState != EdgeValidation.Invalid }
    predicate WeakEdge() { intent.edgeReliability < 0.60 || intent.score < 0.68 }
    predicate StrongEdge() { intent.score > 0.78 && intent.edgeReliability > 0.60 }
    function Elapsed(now: nat): real { SatSub(now, intent.timestamp) as real }
  }

  datatype Controller = Controller(
    strategy: Strategy, queue: QueueState, engine: Engine, filled: real, remaining: real, timesOutbid: nat,
    cancelCount: nat, replaceCount: nat, price: Option<real>, status: Status, lastActionTs: nat, lastSlippageBps: real,
    streak: nat, alphaMean: real, adverse: real, markoutDegradation: real, captureRatio: real)

  function Start(t: Terms): Controller {
    var i := t.intent;
    var engine := New(i.volumeAhead, i.queueFillProbability, i.size, i.expectedDurationMs);
    Controller(
      i.strategy, engine.state.(volumeAhead := t.InitialAhead(), expectedFillTimeMs := t.FillTimeMs()), engine, 0.0,
      i.size,
      0, 0, 0, i.price, Sent, 0, 0.0, i.negativeCaptureStreak, i.executionAlphaMean, 0.0, i.markoutDegradation,
      i.captureMean)
  }

  // ----- prices -----

  function Tick(bid: real, ask: real, reference: real): real {
    MinR(MaxR(MaxR(AbsR(ask - bid), AbsR(reference) * 0.00002), 0.01), AbsR(reference) * 0.00025)
  }

  function Reference(c: Controller): real {
    if c.price.Some? then c.price.value else c.queue.lastReferencePrice
  }

  function Improvement(t: Terms, c: Controller): real {
    var tick := Tick(c.queue.bestBid, c.queue.bestAsk, Reference(c));
    if t.WeakEdge() then tick * 0.5 else tick
  }

  function Improved(t: Terms, c: Controller): real {
    var reference := Reference(c);
    if t.intent.side == Buy then MinR(reference + Improvement(t, c), MaxR(c.queue.bestAsk, reference))
    else
      MaxR(reference - Improvement(t, c), MinR(if c.queue.bestBid > 0.0 then c.queue.bestBid else reference, reference))
  }

  function ImprovedPrice(t: Terms, c: Controller): Option<real> {
    if AbsR(Improved(t, c) - Reference(c)) <= EPSILON then None else Some(Improved(t, c))
  }

  function CrossPrice(t: Terms, c: Controller): real {
    var tick := Tick(c.queue.bestBid, c.queue.bestAsk, Reference(c));
    if t.intent.side == Buy then MaxR(c.queue.bestAsk, Reference(c) + tick)
    else MinR(c.queue.bestBid, Reference(c) - tick)
  }

  // ----- decisions -----

  predicate ShouldReplace(t: Terms, c: Controller, now: nat) {
    && c.strategy == Passive && c.replaceCount < t.cfg.maxReplace && c.remaining > EPSILON
    && (c.queue.positionRatio > 1.25 || c.queue.volumeAhead > t.InitialAhead() * t.VolumeFactor()
        || c.queue.fillProbability < t.MinProbability() || c.queue.competition != Normal)
    && t.Elapsed(now) > MinR(c.queue.expectedFillTimeMs, t.FillTimeMs()) * 0.55
  }

  function ShouldSwitch(t: Terms, c: Controller, now: nat): Option<Strategy> {
    var left := MaxR(t.HalfLifeMs() - t.Elapsed(now), 0.0);
    if c.strategy == Passive && c.queue.fillProbability < t.MinProbability() * 0.80 && t.StrongEdge()
    && c.alphaMean > -1.5
       && left < MaxR(t.FillTimeMs(), 1.0) then Some(Aggressive)
    else if c.strategy == Aggressive && c.lastSlippageBps > t.intent.expectedSlippageBps * 1.35
            && left > t.FillTimeMs() * 0.75 then Some(Passive)
    else if c.queue.competition == Saturated || t.intent.edgeState == EdgeValidation.Invalid then Some(Defensive)
    else None
  }

  predicate ShouldCancel(t: Terms, c: Controller, now: nat) {
    && c.cancelCount < t.cfg.maxCancel && c.filled <= EPSILON
    && t.Elapsed(now) > MinR(c.queue.expectedFillTimeMs, t.FillTimeMs()) * 1.20
  }

  predicate ShouldExit(c: Controller) {
    c.filled > EPSILON
    && (c.streak >= 4 || c.captureRatio < -0.05 || c.adverse > 0.75 || c.markoutDegradation > 0.70
        || c.alphaMean < -2.0)
  }

  predicate ShouldCross(t: Terms, c: Controller, now: nat) {
    && c.strategy != Defensive && c.queue.fillProbability < t.MinProbability() * 0.65
    && t.Elapsed(now) > t.HalfLifeMs() * 0.35 && t.intent.edgeReliability > 0.62
  }

  predicate EdgeGone(t: Terms, c: Controller, now: nat) {
    !t.Approved() || t.intent.edgeState == EdgeValidation.Invalid || c.queue.competition == Saturated
    || t.Elapsed(now) > t.HalfLifeMs()
  }

  function Decide(t: Terms, c: Controller, now: nat): Action {
    if c.status.Terminal() then HoldPassive
    else if SatSub(now, c.lastActionTs) < t.cfg.cooldownMs then HoldPassive
    else if EdgeGone(t, c, now) then
      if c.filled > EPSILON then ExitPosition(Some(CrossPrice(t, c))) else Abort
    else if t.FillTimeMs() > t.HalfLifeMs() then
      if ShouldSwitch(t, c, now).Some? then SwitchStrategy(Aggressive) else Abort
    else if ShouldExit(c) then ExitPosition(Some(CrossPrice(t, c)))
    else if ShouldSwitch(t, c, now).Some? then SwitchStrategy(ShouldSwitch(t, c, now).value)
    else if ShouldReplace(t, c, now) && ImprovedPrice(t, c).Some? then
      if c.queue.competition == Competitive && c.strategy == Passive then StepAhead(ImprovedPrice(t, c).value)
      else if ShouldCross(t, c, now) then CrossSpread
      else Replace(ImprovedPrice(t, c).value)
    else if ShouldCancel(t, c, now) then Cancel
    else HoldPassive
  }

  function Bump(n: nat): nat {
    if n >= U32_MAX then U32_MAX else n + 1
  }

  function Apply(t: Terms, c: Controller, action: Action, now: nat): Controller {
    var c := c.(lastActionTs := now);
    match action
    case HoldPassive => c
    case Cancel => c.(cancelCount := Bump(c.cancelCount))
    case StepAhead(p) => c.(replaceCount := Bump(c.replaceCount), price := Some(p))
    case CrossSpread => c.(strategy := Aggressive, replaceCount := Bump(c.replaceCount),
                           price := Some(CrossPrice(t, c)))
    case Replace(p) => c.(replaceCount := Bump(c.replaceCount), price := Some(p))
    case SwitchStrategy(s) => c.(strategy := s)
    case ExitPosition(_) => c.(cancelCount := Bump(c.cancelCount))
    case Abort => c.(cancelCount := Bump(c.cancelCount), status := Canceled)
  }

  /** One turn: decide, and act unless the decision is to hold. */
  function Turn(t: Terms, c: Controller, now: nat): Controller {
    var action := Decide(t, c, now);
    if action == HoldPassive then c else Apply(t, c, action, now)
  }

  function InstructionOf(t: Terms, c: Controller, action: Action): Option<Instruction> {
    match action
    case HoldPassive => None
    case StepAhead(p) => Some(SendReplace(p))
    case CrossSpread => Some(SendSwitch(Aggressive, Some(CrossPrice(t, c))))
    case Cancel => Some(SendCancel)
    case Replace(p) => Some(SendReplace(p))
    case SwitchStrategy(s) => Some(SendSwitch(s, ImprovedPrice(t, c)))
    case ExitPosition(p) => Some(SendExit(Opposite(t.intent.side), MinR(c.filled, c.filled + c.remaining), p))
    case Abort => Some(SendAbort)
  }

  // ----- observations -----

  function FillProbability(t: Terms, c: Controller, engine: Engine, pull: real): real {
    Clamp(
      (if t.intent.highFill then 0.72 else 0.42)
      - Clamp(c.queue.positionRatio / 3.0, 0.0, 0.65)
      - (match c.queue.competition case Normal => 0.0 case Competitive => 0.18 case Saturated => 0.40)
      - Clamp(c.timesOutbid as real * 0.08, 0.0, 0.24)
      - Clamp(-c.alphaMean / 10.0, 0.0, 0.15)
      - Clamp(c.markoutDegradation, 0.0, 0.18)
      - pull * 0.10
      + MinR(engine.cancelRate, 0.08) + MinR(engine.tradeThroughRate, 0.10), 0.0, 1.0)
  }

  function Contest(probability: real, outbid: nat, pull: real): CompetitionState {
    if probability < 0.15 || outbid >= 3 || pull > 0.80 then Saturated
    else if probability < 0.32 || outbid >= 1 || pull > 0.45 then Competitive
    else Normal
  }

  function OrderQty(c: Controller): real {
    MaxR(c.remaining, c.filled + c.remaining)
  }

  function SpreadBps(bid: real, ask: real, reference: real): real {
    MaxR(ask - bid, 0.0) / MaxR(reference, TINY) * 10000.0
  }

  function Pull(t: Terms, visible: real, spreadBps: real): real {
    Clamp((t.InitialAhead() - visible) / MaxR(t.InitialAhead(), TINY), 0.0, 1.0)
    + Clamp(spreadBps / 12.0, 0.0, 1.0) * 0.25
  }

  predicate Outbid(side: Side, price: Option<real>, bid: real, ask: real) {
    price.Some? && if side == Buy then bid > price.value else ask < price.value
  }

  function OnBook(t: Terms, c: Controller, bid: Level, ask: Level, now: nat): Controller {
    var touch := if t.intent.side == Buy then bid else ask;
    var spreadBps := SpreadBps(bid.price, ask.price, touch.price);
    var outbid := Outbid(t.intent.side, c.price, bid.price, ask.price);
    var engine := AfterBook(c.engine, touch.quantity, OrderQty(c), outbid, spreadBps, now);
    var c := c.(engine := engine, queue := engine.state,
                timesOutbid := if outbid then Bump(c.timesOutbid) else c.timesOutbid);
    var pull := Pull(t, touch.quantity, spreadBps);
    var probability := FillProbability(t, c, engine, pull);
    c.(queue := c.queue.(fillProbability := probability, expectedFillTimeMs := MaxR(c.queue.expectedFillTimeMs, 1.0),
    competition := Contest(probability, c.timesOutbid, pull)))
  }

  function OnMarket(t: Terms, c: Controller, u: MarketUpdate): Controller {
    match u
    case Trade(volume, now) =>
      var engine := AfterTrade(c.engine, volume, OrderQty(c), now);
      c.(engine := engine, queue := engine.state)
    case BookDelta(bids, asks, now) =>
      if bids == [] || asks == [] then c else OnBook(t, c, bids[0], asks[0], now)
  }

  function FlagState(flag: Flag, fallback: CompetitionState): CompetitionState {
    match flag
    case NoFlag => fallback
    case RepeatedOutbid | PartialFillToxicity => Saturated
    case SlowFill | CancelLatency => Competitive
  }

  function FlagAdverse(flag: Flag, fallback: real): real {
    match flag
    case PartialFillToxicity => 0.9
    case RepeatedOutbid => 0.6
    case SlowFill => 0.45
    case CancelLatency => 0.35
    case NoFlag => fallback * 0.92
  }

  function OnFill(t: Terms, c: Controller, e: ExecutionEvent): Controller {
    var c := c.(filled := MaxR(e.cumulativeFilledQty, c.filled), remaining := MaxR(e.remainingQty, 0.0));
    var probability := FillProbability(t, c, c.engine, 0.0);
    var ratio := Ewma(c.captureRatio, e.partialFillRatio - 0.5, 0.12);
    c.(queue := c.queue.(fillProbability := probability),
    alphaMean := Ewma(c.alphaMean, -MaxR(e.slippageBps, 0.0) - c.adverse * 2.0, 0.15),
    captureRatio := ratio,
    streak := if ratio < 0.0 then (if c.streak >= U64_MAX then U64_MAX else c.streak + 1) else SatSub(c.streak, 1))
  }

  function OnExecution(t: Terms, c: Controller, e: ExecutionEvent): Controller {
    var c := c.(status := e.status, lastSlippageBps := e.slippageBps,
             queue := c.queue.(competition := FlagState(e.flag, c.queue.competition)),
             adverse := FlagAdverse(e.flag, c.adverse));
    var c := if e.filledQtyDelta > 0.0 then OnFill(t, c, e) else c;
    c.(markoutDegradation := Ewma(c.markoutDegradation, Clamp(MaxR(e.slippageBps, 0.0) * 0.08 + c.adverse, 0.0, 1.0),
                                  0.16))
  }

  // ----- runs, whatever is observed between turns -----

  /** A decision point: the controller as it stands when it is asked to act. */
  datatype Moment = Moment(c: Controller, now: nat)
  {
    function Action(t: Terms): Action { Decide(t, c, now) }
    function After(t: Terms): Controller { Turn(t, c, now) }
  }

  predicate Reprices(action: Action) {
    action.StepAhead? || action.CrossSpread? || action.Replace?
  }

  /** Observations may change anything but the price, the counters and the time of the last instruction. */
  predicate Keeps(c: Controller, c': Controller) {
    && c'.price == c.price && c'.cancelCount == c.cancelCount && c'.replaceCount == c.replaceCount
    && c'.lastActionTs == c.lastActionTs
  }

  ghost predicate Chained(t: Terms, ms: seq<Moment>) {
    forall i :: 0 < i < |ms| ==> Keeps(ms[i-1].After(t), ms[i].c)
  }

  ghost predicate FromStart(t: Terms, ms: seq<Moment>) {
    Chained(t, ms) && (ms != [] ==> Keeps(Start(t), ms[0].c))
  }

  function RepriceCount(t: Terms, ms: seq<Moment>): nat {
    if ms == [] then 0 else RepriceCount(t, ms[..|ms|-1]) + if Reprices(ms[|ms|-1].Action(t)) then 1 else 0
  }

  function TimeoutCount(t: Terms, ms: seq<Moment>): nat {
    if ms == [] then 0 else TimeoutCount(t, ms[..|ms|-1]) + if ms[|ms|-1].Action(t) == Cancel then 1 else 0
  }

  function InstructionCount(t: Terms, ms: seq<Moment>): nat {
    if ms == [] then 0 else InstructionCount(t, ms[..|ms|-1]) + if ms[|ms|-1].Action(t) != HoldPassive then 1 else 0
  }

  /** What one turn does to the counters and the clock. */
  lemma TurnCounts(t: Terms, m: Moment)
    requires t.cfg.Fits()
    ensures Reprices(m.Action(t)) ==> m.After(t).replaceCount == m.c.replaceCount + 1 <= t.cfg.maxReplace
    ensures !Reprices(m.Action(t)) ==> m.After(t).replaceCount == m.c.replaceCount
    ensures m.Action(t) == Cancel ==> m.After(t).cancelCount == m.c.cancelCount + 1 <= t.cfg.maxCancel
    ensures m.c.cancelCount <= U32_MAX ==> m.c.cancelCount <= m.After(t).cancelCount <= U32_MAX
    ensures m.Action(t) != HoldPassive ==> SatSub(m.now, m.c.lastActionTs) >= t.cfg.cooldownMs
                                           && m.After(t).lastActionTs == m.now
    ensures m.Action(t) == HoldPassive ==> m.After(t) == m.c
  {
    hide EdgeGone, ShouldExit, ShouldSwitch, ShouldCross, ImprovedPrice, CrossPrice;
  }

  /** Over a whole run: reprices and timeout cancels stay within their limits. */
  lemma {:induction false} RunWithinLimits(t: Terms, ms: seq<Moment>)
    requires FromStart(t, ms) && t.cfg.Fits()
    ensures RepriceCount(t, ms) <= t.cfg.maxReplace && TimeoutCount(t, ms) <= t.cfg.maxCancel
    ensures ms != [] ==>
              var c := ms[|ms|-1].After(t);
              c.replaceCount == RepriceCount(t, ms) && TimeoutCount(t, ms) <= c.cancelCount <= U32_MAX
  {
    hide Decide, Turn;
    if ms != [] {
      var past, m := ms[..|ms|-1], ms[|ms|-1];
      RunWithinLimits(t, past);
      TurnCounts(t, m);
      assert past != [] ==> past[|past|-1] == ms[|ms|-2];
    }
  }

  /** The last instruction's time never falls behind an earlier instruction. */
  lemma {:induction false} ClockKeepsUp(t: Terms, ms: seq<Moment>, i: nat, j: nat)
    requires Chained(t, ms) && t.cfg.Fits() && t.cfg.cooldownMs > 0 && i < j < |ms| && ms[i].Action(t) != HoldPassive
    ensures ms[j].c.lastActionTs >= ms[i].now
    decreases j
  {
    hide Decide, Turn;
    TurnCounts(t, ms[j-1]);
    if i < j - 1 {
      ClockKeepsUp(t, ms, i, j - 1);
    }
  }

  /** Any two instructions of a run are at least the cooldown apart, even if the clock sometimes runs backwards. */
  lemma InstructionsSpaced(t: Terms, ms: seq<Moment>, i: nat, j: nat)
    requires Chained(t, ms) && t.cfg.Fits() && t.cfg.cooldownMs > 0 && i < j < |ms|
    requires ms[i].Action(t) != HoldPassive && ms[j].Action(t) != HoldPassive
    ensures ms[j].now >= ms[i].now + t.cfg.cooldownMs
  {
    hide Decide, Turn;
    ClockKeepsUp(t, ms, i, j);
    TurnCounts(t, ms[j]);
  }

  /** Hence n instructions take at least n cooldowns. */
  lemma {:induction false} InstructionRate(t: Terms, ms: seq<Moment>)
    requires FromStart(t, ms) && t.cfg.Fits() && t.cfg.cooldownMs > 0
    ensures ms != [] ==> InstructionCount(t, ms) * t.cfg.cooldownMs <= ms[|ms|-1].After(t).lastActionTs
  {
    hide Decide, Turn;
    if ms != [] {
      var past, m := ms[..|ms|-1], ms[|ms|-1];
      InstructionRate(t, past);
      TurnCounts(t, m);
      var n, cooldown := InstructionCount(t, past), t.cfg.cooldownMs;
      assert n * cooldown <= m.c.lastActionTs by {
        if past != [] { assert past[|past|-1] == ms[|ms|-2]; }
      }
      assert (n + 1) * cooldown == n * cooldown + cooldown;
    }
  }

  // ----- the tracked price -----

  /** No worse for the counterparty: a buy at least as high, a sell at least as low. */
  predicate Ahead(side: Side, from: real, to: real) {
    if side == Buy then from <= to else to <= from
  }

  lemma TickRange(bid: real, ask: real, reference: real)
    ensures 0.0 <= Tick(bid, ask, reference) <= AbsR(reference) * 0.00025
  {
  }

  /** One reprice moves the price forward, and by at most the tick unless it crosses the spread. */
  lemma RepriceMoves(t: Terms, c: Controller)
    ensures Ahead(t.intent.side, Reference(c), Improved(t, c)) && Ahead(t.intent.side, Reference(c), CrossPrice(t, c))
    ensures AbsR(Improved(t, c) - Reference(c)) <= AbsR(Reference(c)) * 0.00025
  {
    hide Tick;
    TickRange(c.queue.bestBid, c.queue.bestAsk, Reference(c));
  }

  lemma TurnPrice(t: Terms, m: Moment)
    ensures var action, c' := m.Action(t), m.After(t);
            && (!Reprices(action) ==> c'.price == m.c.price)
            && (action.CrossSpread? ==> c'.price == Some(CrossPrice(t, m.c)))
            && (Reprices(action) && !action.CrossSpread? ==> c'.price == Some(Improved(t, m.c)))
  {
    hide EdgeGone, ShouldExit, ShouldSwitch, ShouldCross, ShouldReplace, ShouldCancel, CrossPrice, Improved, Reference;
    SameCross(t, m.c, m.c.(lastActionTs := m.now));
  }

  lemma SameCross(t: Terms, c: Controller, c': Controller)
    requires c'.price == c.price && c'.queue == c.queue
    ensures CrossPrice(t, c') == CrossPrice(t, c)
  {
  }

  /** A tracked price never retreats: over any run a buy's never falls and a sell's never rises. */
  lemma {:induction false} PriceNeverRetreats(t: Terms, ms: seq<Moment>)
    requires Chained(t, ms) && ms != [] && ms[0].c.price.Some?
    ensures var last := ms[|ms|-1].After(t).price;
            last.Some? && Ahead(t.intent.side, ms[0].c.price.value, last.value)
  {
    hide Decide, Turn, Improved, CrossPrice;
    var past, m := ms[..|ms|-1], ms[|ms|-1];
    if past != [] {
      PriceNeverRetreats(t, past);
      assert past[|past|-1] == ms[|ms|-2];
    }
    RepriceMoves(t, m.c);
    TurnPrice(t, m);
  }

  function Power(base: real, n: nat): real {
    if n == 0 then 1.0 else Power(base, n - 1) * base
  }

  /** How far k reprices may carry a positive price. */
  function Farthest(side: Side, from: real, k: nat): real {
    from * Power(if side == Buy then 1.00025 else 0.99975, k)
  }

  lemma {:induction false} PowerPositive(base: real, n: nat)
    requires base > 0.0
    ensures Power(base, n) > 0.0
  {
    if n > 0 { PowerPositive(base, n - 1); }
  }

  lemma FarthestStep(side: Side, from: real, k: nat)
    requires from > 0.0
    ensures Farthest(side, from, 0) == from && Farthest(side, from, k) > 0.0
    ensures Farthest(side, from, k + 1) == Farthest(side, from, k) * (if side == Buy then 1.00025 else 0.99975)
  {
    PowerPositive(if side == Buy then 1.00025 else 0.99975, k);
  }

  /** Without crossing the spread, k reprices move a positive price by at most the factor (1 +/- 0.00025)^k. */
  lemma {:induction false} PriceDrift(t: Terms, ms: seq<Moment>)
    requires Chained(t, ms) && ms != [] && ms[0].c.price.Some? && ms[0].c.price.value > 0.0
    requires forall i :: 0 <= i < |ms| ==> !ms[i].Action(t).CrossSpread?
    ensures var last := ms[|ms|-1].After(t).price;
            last.Some? && last.value > 0.0
            && Ahead(t.intent.side, last.value, Farthest(t.intent.side, ms[0].c.price.value, RepriceCount(t, ms)))
  {
    hide Decide, Turn, Improved, CrossPrice, Farthest, RepriceCount;
    var from, past, m := ms[0].c.price.value, ms[..|ms|-1], ms[|ms|-1];
    if past != [] {
      PriceDrift(t, past);
      assert past[|past|-1] == ms[|ms|-2];
    }
    FarthestStep(t.intent.side, from, RepriceCount(t, past));
    RepriceCountStep(t, ms);
    RepriceMoves(t, m.c);
    TurnPrice(t, m);
  }

  lemma RepriceCountStep(t: Terms, ms: seq<Moment>)
    requires ms != []
    ensures RepriceCount(t, []) == 0
    ensures RepriceCount(t, ms) == RepriceCount(t, ms[..|ms|-1]) + if Reprices(ms[|ms|-1].Action(t)) then 1 else 0
  {
  }

  // ----- the controller inside its event loop -----

  datatype Event = Market(update: MarketUpdate) | Execution(event: ExecutionEvent)

  /** `live` is whether the loop still holds the controller; `moments` are its decision points so far. */
  datatype Machine = Machine(c: Controller, live: bool, moments: seq<Moment>)

  function Act(t: Terms, c: Controller, now: nat, past: seq<Moment>): Machine {
    Machine(Turn(t, c, now), true, past + [Moment(c, now)])
  }

  function Step(t: Terms, m: Machine, e: Event): Machine {
    if !m.live then m
    else
      match e
      case Market(u) => if m.c.status.Terminal() then m else Act(t, OnMarket(t, m.c, u), u.timestamp, m.moments)
      case Execution(event) =>
        var c := OnExecution(t, m.c, event);
        if c.status.Terminal() then Machine(c, false, m.moments) else Act(t, c, event.timestamp, m.moments)
  }

  function Run(t: Terms, events: seq<Event>): Machine {
    if events == [] then Machine(Start(t), true, []) else Step(t, Run(t, events[..|events|-1]), events[|events|-1])
  }

  lemma ObservationsKeep(t: Terms, c: Controller, u: MarketUpdate, e: ExecutionEvent)
    ensures Keeps(c, OnMarket(t, c, u)) && Keeps(c, OnExecution(t, c, e))
  {
    hide FillProbability, AfterBook, AfterTrade, Ewma, Pull, SpreadBps;
  }

  /**
   Every run of the event loop is a run in the sense above, so the limits, the spacing and the price laws hold
   of it.
   */
  lemma {:induction false} LoopIsRun(t: Terms, events: seq<Event>)
    ensures var m := Run(t, events);
            && FromStart(t, m.moments)
            && Keeps(if m.moments == [] then Start(t) else m.moments[|m.moments|-1].After(t), m.c)
  {
    hide OnMarket, OnExecution, Decide, Turn;
    if events != [] {
      var m := Run(t, events[..|events|-1]);
      LoopIsRun(t, events[..|events|-1]);
      match events[|events|-1] {
        case Market(u) => ObservationsKeep(t, m.c, u, ExecutionEvent(Ack, 0.0, 0.0, 0.0, 0.0, 0.0, NoFlag, 0));
        case Execution(e) => ObservationsKeep(t, m.c, Trade(0.0, 0), e);
      }
    }
  }

  // ----- what the loop can reach -----

  /** The queue state never holds a price. */
  ghost predicate Blind(c: Controller) {
    Sound(c.engine) && c.queue.bestBid == c.queue.bestAsk == c.queue.lastReferencePrice == 0.0
  }

  lemma ObservationsBlind(t: Terms, c: Controller, u: MarketUpdate, e: ExecutionEvent)
    requires Blind(c)
    ensures Blind(OnMarket(t, c, u)) && Blind(OnExecution(t, c, e))
    ensures u.Trade? ==> OnMarket(t, c, u).queue.competition == Normal
  {
    hide FillProbability, AfterBook, AfterTrade, Ewma, Pull, SpreadBps, Outbid, OrderQty;
    match u {
      case Trade(volume, now) => TradeSound(c.engine, volume, OrderQty(c), now);
      case BookDelta(bids, asks, now) =>
        if bids != [] && asks != [] {
          var touch := if t.intent.side == Buy then bids[0] else asks[0];
          BookSound(c.engine, touch.quantity, OrderQty(c), Outbid(t.intent.side, c.price, bids[0].price, asks[0].price),
                    SpreadBps(bids[0].price, asks[0].price, touch.price), now);
        }
    }
  }

  /** Without book prices an improved price exists exactly for a buy at a negative price with a visible tick. */
  lemma BlindImprovement(t: Terms, c: Controller)
    requires Blind(c)
    ensures ImprovedPrice(t, c).Some? <==>
              t.intent.side == Buy && c.price.Some? && c.price.value < 0.0 && Improvement(t, c) > EPSILON
  {
  }

  /** The price an exit is sent at: a tick above the tracked price for a buy, zero for a sell. */
  function BlindExit(side: Side, price: Option<real>): real {
    var reference := if price.Some? then price.value else 0.0;
    if side == Buy then reference + Tick(0.0, 0.0, reference) else 0.0
  }

  lemma BlindCross(t: Terms, c: Controller)
    requires Blind(c) && (c.price.Some? ==> c.price.value >= 0.0)
    ensures CrossPrice(t, c) == BlindExit(t.intent.side, c.price)
  {
  }

  lemma BlindTurn(t: Terms, c: Controller, now: nat)
    requires Blind(c) && (c.price.Some? ==> c.price.value >= 0.0)
    ensures var action := Decide(t, c, now);
            && !Reprices(action)
            && (action.ExitPosition? ==> action.exitPrice == Some(BlindExit(t.intent.side, c.price)))
    ensures ImprovedPrice(t, c) == None
    ensures Blind(Turn(t, c, now)) && Turn(t, c, now).price == c.price
  {
    hide Sound, EdgeGone, ShouldExit, ShouldSwitch, ShouldCross, ShouldReplace, ShouldCancel, CrossPrice,
         ImprovedPrice, BlindExit;
    BlindImprovement(t, c);
    BlindCross(t, c);
  }

  /**
   For any order taken on with no price or a non-negative one, no reachable turn reprices: the tracked
   price is the first one for ever, switches carry no price, and a sell's exits are all sent at zero.
   */
  lemma {:induction false} LoopNeverReprices(t: Terms, events: seq<Event>)
    requires t.intent.price.Some? ==> t.intent.price.value >= 0.0
    ensures var m := Run(t, events);
            && Blind(m.c) && m.c.price == t.intent.price
            && forall i :: 0 <= i < |m.moments| ==>
                 var at := m.moments[i];
                 && at.c.price == t.intent.price && !Reprices(at.Action(t)) && ImprovedPrice(t, at.c) == None
                 && (at.Action(t).ExitPosition? ==>
                      at.Action(t).exitPrice == Some(BlindExit(t.intent.side, t.intent.price)))
  {
    hide OnMarket, OnExecution, Decide, Turn, ImprovedPrice, BlindExit, Sound;
    if events == [] {
      StartBlind(t);
    } else {
      var m, e := Run(t, events[..|events|-1]), events[|events|-1];
      LoopNeverReprices(t, events[..|events|-1]);
      var u := if e.Market? then e.update else Trade(0.0, 0);
      var event := if e.Execution? then e.event else ExecutionEvent(Ack, 0.0, 0.0, 0.0, 0.0, 0.0, NoFlag, 0);
      ObservationsKeep(t, m.c, u, event);
      ObservationsBlind(t, m.c, u, event);
      BlindTurn(t, OnMarket(t, m.c, u), u.timestamp);
      BlindTurn(t, OnExecution(t, m.c, event), event.timestamp);
    }
  }

  lemma StartBlind(t: Terms)
    ensures Blind(Start(t))
  {
    NewSound(t.intent.volumeAhead, t.intent.queueFillProbability, t.intent.size, t.intent.expectedDurationMs);
  }

  // ----- what goes out -----

  /** Each instruction goes out for the actions it belongs to, and carries what they decided. */
  lemma InstructionMeans(t: Terms, c: Controller, action: Action)
    ensures var i := InstructionOf(t, c, action);
            && (i.None? <==> action.HoldPassive?)
            && (i.Some? && i.value.SendReplace? <==> action.StepAhead? || action.Replace?)
            && (i.Some? && i.value.SendReplace? ==> i.value.price == action.newPrice)
            && (i.Some? && i.value.SendCancel? <==> action.Cancel?)
            && (i.Some? && i.value.SendAbort? <==> action.Abort?)
            && (i.Some? && i.value.SendSwitch? <==> action.CrossSpread? || action.SwitchStrategy?)
            && (action.CrossSpread? ==> i.value.strategy == Aggressive && i.value.at == Some(CrossPrice(t, c)))
            && (action.SwitchStrategy? ==> i.value.strategy == action.newStrategy && i.value.at == ImprovedPrice(t, c))
            && (i.Some? && i.value.SendExit? <==> action.ExitPosition?)
            && (action.ExitPosition? ==> i.value.at == action.exitPrice)
  {
    hide CrossPrice, ImprovedPrice;
  }

  /** An exit goes out only with something filled, on the other side, and takes back exactly what is filled. */
  lemma ExitUnwinds(t: Terms, c: Controller, now: nat)
    ensures var i := InstructionOf(t, c, Decide(t, c, now));
            i.Some? && i.value.SendExit? ==>
              && c.filled > EPSILON && i.value.side != t.intent.side
              && (c.remaining >= 0.0 ==>
                    i.value.size == c.filled
                    && Signed(i.value.side, i.value.size) + Signed(t.intent.side, c.filled) == 0.0)
  {
    hide CrossPrice, ImprovedPrice, EdgeGone, ShouldSwitch, ShouldReplace, ShouldCancel, ShouldCross;
    OppositeSides(t.intent.side, c.filled);
  }

  lemma OppositeSides(side: Side, quantity: real)
    ensures Opposite(side) != side && Signed(Opposite(side), quantity) + Signed(side, quantity) == 0.0
  {
  }

  lemma RemainingStays(t: Terms, c: Controller, u: MarketUpdate, e: ExecutionEvent, now: nat)
    requires c.remaining >= 0.0
    ensures OnMarket(t, c, u).remaining >= 0.0 && OnExecution(t, c, e).remaining >= 0.0
            && Turn(t, c, now).remaining >= 0.0
  {
    hide FillProbability, AfterBook, AfterTrade, Ewma, Pull, SpreadBps, Decide, CrossPrice, Outbid, OrderQty;
  }

  lemma {:induction false} LoopRemaining(t: Terms, events: seq<Event>)
    requires t.intent.size >= 0.0
    ensures var m := Run(t, events);
            m.c.remaining >= 0.0 && forall i :: 0 <= i < |m.moments| ==> m.moments[i].c.remaining >= 0.0
  {
    hide OnMarket, OnExecution, Turn;
    if events != [] {
      var m, e := Run(t, events[..|events|-1]), events[|events|-1];
      LoopRemaining(t, events[..|events|-1]);
      var u := if e.Market? then e.update else Trade(0.0, 0);
      var event := if e.Execution? then e.event else ExecutionEvent(Ack, 0.0, 0.0, 0.0, 0.0, 0.0, NoFlag, 0);
      RemainingStays(t, m.c, u, event, 0);
      RemainingStays(t, OnMarket(t, m.c, u), u, event, u.timestamp);
      RemainingStays(t, OnExecution(t, m.c, event), u, event, event.timestamp);
    }
  }

  /**
   Over every run of the loop, for an order of non-negative size: each exit sent is on the other side, and its
   signed size cancels the signed quantity filled at that moment, which is not nothing.
   */
  lemma LoopExitsUnwind(t: Terms, events: seq<Event>, i: nat)
    requires t.intent.size >= 0.0 && i < |Run(t, events).moments|
    ensures var at := Run(t, events).moments[i];
            var sent := InstructionOf(t, at.c, at.Action(t));
            sent.Some? && sent.value.SendExit? ==>
              && at.c.filled > EPSILON && sent.value.side != t.intent.side
              && Signed(sent.value.side, sent.value.size) + Signed(t.intent.side, at.c.filled) == 0.0
  {
    hide Run, InstructionOf, Decide;
    LoopRemaining(t, events);
    var at := Run(t, events).moments[i];
    ExitUnwinds(t, at.c, at.now);
  }

  /** Awake: not terminal, and the cooldown is over. */
  predicate Awake(t: Terms, c: Controller, now: nat) {
    c.status != Filled && c.status != Canceled && c.status != Rejected
    && SatSub(now, c.lastActionTs) >= t.cfg.cooldownMs
  }

  /** When the order's edge is gone, in plain figures. */
  lemma EdgeGoneMeans(t: Terms, c: Controller, now: nat)
    ensures EdgeGone(t, c, now) <==>
              !t.intent.tradingEnabled || t.intent.edgeState == EdgeValidation.Invalid
              || c.queue.competition == Saturated || SatSub(now, t.intent.timestamp) as real > t.HalfLifeMs()
  {
  }

  /** Exactly when the controller leaves: with something filled it exits, with nothing it aborts. */
  lemma LeavesIff(t: Terms, c: Controller, now: nat)
    ensures Decide(t, c, now).ExitPosition? <==>
              && Awake(t, c, now) && c.filled > EPSILON
              && (EdgeGone(t, c, now)
                  || (t.FillTimeMs() <= t.HalfLifeMs()
                      && (c.streak >= 4 || c.captureRatio < -0.05 || c.adverse > 0.75 || c.markoutDegradation > 0.70
                          || c.alphaMean < -2.0)))
    ensures Decide(t, c, now).Abort? <==>
              && Awake(t, c, now)
              && if EdgeGone(t, c, now) then c.filled <= EPSILON
                 else t.FillTimeMs() > t.HalfLifeMs() && ShouldSwitch(t, c, now).None?
    ensures Decide(t, c, now).Cancel? ==>
              && Awake(t, c, now) && c.filled <= EPSILON && c.cancelCount < t.cfg.maxCancel && !EdgeGone(t, c, now)
              && t.Elapsed(now) > MinR(c.queue.expectedFillTimeMs, t.FillTimeMs()) * 1.20
  {
    hide EdgeGone, ShouldSwitch, ShouldReplace, ShouldCross, ImprovedPrice, CrossPrice;
  }

  /** An event flagged as repeatedly outbid or toxic makes the controller leave as soon as it may act again. */
  lemma SaturatingFlagLeaves(t: Terms, c: Controller, e: ExecutionEvent)
    requires e.flag == RepeatedOutbid || e.flag == PartialFillToxicity
    ensures var d := OnExecution(t, c, e);
            Awake(t, d, e.timestamp) ==> Decide(t, d, e.timestamp).ExitPosition? || Decide(t, d, e.timestamp).Abort?
  {
    hide EdgeGone, ShouldSwitch, ShouldReplace, ShouldCross, ShouldExit, ShouldCancel, ImprovedPrice, CrossPrice,
         FillProbability, Ewma, Decide;
    var d := OnExecution(t, c, e);
    EdgeGoneMeans(t, d, e.timestamp);
    LeavesIff(t, d, e.timestamp);
  }

  // ----- how final an abort is -----

  /** The loop's last decision was to abort. */
  predicate Aborted(t: Terms, m: Machine) {
    m.moments != [] && m.moments[|m.moments|-1].Action(t) == Abort
  }

  lemma TurnTerminalIff(t: Terms, c: Controller, now: nat)
    requires !c.status.Terminal()
    ensures Turn(t, c, now).status.Terminal() <==> Decide(t, c, now) == Abort
  {
    hide Decide, CrossPrice;
  }

  lemma MarketKeepsStatus(t: Terms, c: Controller, u: MarketUpdate)
    ensures OnMarket(t, c, u).status == c.status
  {
    hide FillProbability, AfterBook, AfterTrade, Pull, SpreadBps, Outbid, OrderQty;
  }

  lemma ExecutionSetsStatus(t: Terms, c: Controller, e: ExecutionEvent)
    ensures OnExecution(t, c, e).status == e.status
  {
    hide FillProbability, Ewma;
  }

  /** A controller the loop still holds has a terminal status exactly when its last decision was to abort. */
  lemma {:induction false} TerminalIffAborted(t: Terms, events: seq<Event>)
    ensures var m := Run(t, events); m.live ==> (m.c.status.Terminal() <==> Aborted(t, m))
  {
    hide OnMarket, OnExecution, Decide, Turn;
    if events != [] {
      var m := Run(t, events[..|events|-1]);
      TerminalIffAborted(t, events[..|events|-1]);
      match events[|events|-1] {
        case Market(u) =>
          MarketKeepsStatus(t, m.c, u);
          if !m.c.status.Terminal() {
            TurnTerminalIff(t, OnMarket(t, m.c, u), u.timestamp);
          }
        case Execution(e) =>
          ExecutionSetsStatus(t, m.c, e);
          if !e.status.Terminal() {
            TurnTerminalIff(t, OnExecution(t, m.c, e), e.timestamp);
          }
      }
    }
  }

  /** The first order event of a sequence decides: its status, if there is one. */
  function FirstReport(events: seq<Event>): Option<Status> {
    if events == [] then None
    else
      var past, e := FirstReport(events[..|events|-1]), events[|events|-1];
      if past.Some? then past else if e.Execution? then Some(e.event.status) else None
  }

  predicate Revives(report: Option<Status>) {
    report.Some? && !report.value.Terminal()
  }

  /** One event adds a decision point to an aborted controller exactly when it reports a status that is not terminal. */
  lemma StepRevivesIff(t: Terms, m: Machine, e: Event)
    requires m.live && m.c.status.Terminal()
    ensures Step(t, m, e).moments != m.moments <==> e.Execution? && !e.event.status.Terminal()
    ensures Step(t, m, e).moments != m.moments ==> |Step(t, m, e).moments| == |m.moments| + 1
    ensures e.Market? ==> Step(t, m, e) == m
    ensures e.Execution? && e.event.status.Terminal() ==> !Step(t, m, e).live
  {
    hide OnMarket, OnExecution, Turn;
    if e.Execution? {
      ExecutionSetsStatus(t, m.c, e.event);
    }
  }

  lemma MomentsGrow(t: Terms, m: Machine, e: Event)
    ensures |m.moments| <= |Step(t, m, e).moments|
    ensures !m.live ==> Step(t, m, e) == m
  {
    hide OnMarket, OnExecution, Turn;
  }

  lemma {:induction false} AbortFollowed(t: Terms, events: seq<Event>, later: seq<Event>)
    requires Run(t, events).live && Run(t, events).c.status.Terminal()
    ensures var m, after, report := Run(t, events), Run(t, events + later), FirstReport(later);
            && (report.None? ==> after == m)
            && (report.Some? && !Revives(report) ==> !after.live && after.moments == m.moments)
            && (Revives(report) ==> |after.moments| > |m.moments|)
  {
    hide Step;
    if later == [] {
      assert events + later == events;
    } else {
      var past, e := later[..|later|-1], later[|later|-1];
      AbortFollowed(t, events, past);
      assert (events + later)[..|events + later|-1] == events + past;
      MomentsGrow(t, Run(t, events + past), e);
      if FirstReport(past).None? {
        StepRevivesIff(t, Run(t, events), e);
      }
    }
  }

  /**
   An abort is not final: the loop keeps the controller until it hears a terminal status.  Whatever follows, it
   decides nothing more exactly when the first order event to follow, if any, reports a terminal status.
   */
  lemma AbortSilentIff(t: Terms, events: seq<Event>, later: seq<Event>)
    requires Run(t, events).live && Aborted(t, Run(t, events))
    ensures Run(t, events + later).moments == Run(t, events).moments <==> !Revives(FirstReport(later))
  {
    hide Run, FirstReport, Aborted;
    TerminalIffAborted(t, events);
    AbortFollowed(t, events, later);
  }

  /** A revived controller holds back during the cooldown, and then leaves again if its edge is gone. */
  lemma RevivedDecides(t: Terms, c: Controller, now: nat, e: ExecutionEvent)
    requires Decide(t, c, now) == Abort && !e.status.Terminal()
    ensures var revived := OnExecution(t, Turn(t, c, now), e);
            && (SatSub(e.timestamp, now) < t.cfg.cooldownMs ==> Decide(t, revived, e.timestamp) == HoldPassive)
            && (SatSub(e.timestamp, now) >= t.cfg.cooldownMs && EdgeGone(t, revived, e.timestamp) ==>
                  Decide(t, revived, e.timestamp) in {Abort, ExitPosition(Some(CrossPrice(t, revived)))})
  {
    hide EdgeGone, ShouldExit, ShouldSwitch, ShouldCross, ShouldReplace, ShouldCancel, ImprovedPrice, CrossPrice,
         FillProbability, Ewma;
    ObservationsKeep(t, Turn(t, c, now), Trade(0.0, 0), e);
    ExecutionSetsStatus(t, Turn(t, c, now), e);
  }

  // ----- the controller as it runs -----

  class ExecutionController {
    const terms: Terms
    const queueEngine: QueueEngine
    var currentStrategy: Strategy
    var queueState: QueueState
    var filledQty: real
    var remainingQty: real
    var timesOutbid: nat
    var cancelCount: nat
    var replaceCount: nat
    var currentPrice: Option<real>
    var status: Status
    var lastActionTs: nat
    var lastSlippageBps: real
    var negativeCaptureStreak: nat
    var executionAlphaMean: real
    var recentAdverse: real
    var markoutDegradation: real
    var captureRatio: real

    function Now(): Controller
      reads this, queueEngine
    {
      Controller(
        currentStrategy, queueState, queueEngine.Now(), filledQty, remainingQty, timesOutbid, cancelCount, replaceCount,
        currentPrice, status, lastActionTs, lastSlippageBps, negativeCaptureStreak, executionAlphaMean, recentAdverse,
        markoutDegradation, captureRatio)
    }

    constructor (intent: Intent, cfg: Config)
      ensures fresh(queueEngine) && terms == Terms(intent, cfg)
      ensures Now() == Start(terms).(status := Fresh)
    {
      terms := Terms(intent, cfg);
      var engine := new QueueEngine(intent.volumeAhead, intent.queueFillProbability, intent.size,
                                    intent.expectedDurationMs);
      queueEngine := engine;
      queueState := engine.state.(volumeAhead := Terms(intent, cfg).InitialAhead(),
                                  expectedFillTimeMs := Terms(intent, cfg).FillTimeMs());
      currentStrategy, filledQty, remainingQty, timesOutbid := intent.strategy, 0.0, intent.size, 0;
      cancelCount, replaceCount, currentPrice, status, lastActionTs := 0, 0, intent.price, Fresh, 0;
      lastSlippageBps, negativeCaptureStreak, executionAlphaMean := 0.0, intent.negativeCaptureStreak,
      intent.executionAlphaMean;
      recentAdverse, markoutDegradation, captureRatio := 0.0, intent.markoutDegradation, intent.captureMean;
    }

    /** Writes the touch into the queue state and then replaces the whole of it by the engine's copy. */
    method OnMarketUpdate(u: MarketUpdate)
      modifies this, queueEngine
      ensures Now() == OnMarket(terms, old(Now()), u)
    {
      hide FillProbability, AfterBook, AfterTrade, Pull, SpreadBps, OrderQty, Contest;
      match u {
        case Trade(volume, now) =>
          queueState := queueEngine.ObserveTrade(volume, OrderQty(Now()), now);
        case BookDelta(bids, asks, now) =>
          if bids == [] || asks == [] {
            return;
          }
          var bid, ask := bids[0], asks[0];
          var touch := if terms.intent.side == Buy then bid else ask;
          var spreadBps := SpreadBps(bid.price, ask.price, touch.price);
          queueState := queueState.(bestBid := bid.price, bestAsk := ask.price, lastReferencePrice := touch.price);
          var qty := OrderQty(Now());
          QtyOfAmounts(old(Now()), Now());
          if currentPrice.Some? {
            var outbid := if terms.intent.side == Buy then bid.price > currentPrice.value
                          else ask.price < currentPrice.value;
            if outbid {
              timesOutbid := Bump(timesOutbid);
            }
            queueState := queueEngine.ObserveBook(touch.quantity, qty, outbid, spreadBps, now);
          } else {
            queueState := queueEngine.ObserveBook(touch.quantity, qty, false, spreadBps, now);
          }
          var pull := Pull(terms, touch.quantity, spreadBps);
          var probability := FillProbability(terms, Now(), queueEngine.Now(), pull);
          queueState := queueState.(fillProbability := probability);
          queueState := queueState.(expectedFillTimeMs := MaxR(queueState.expectedFillTimeMs, 1.0));
          queueState := queueState.(competition := Contest(probability, timesOutbid, pull));
      }
    }

    method OnExecutionEvent(e: ExecutionEvent)
      modifies this
      ensures Now() == OnExecution(terms, old(Now()), e)
    {
      hide FillProbability, Ewma, OnFill, Clamp;
      status := e.status;
      lastSlippageBps := e.slippageBps;
      queueState := queueState.(competition := FlagState(e.flag, queueState.competition));
      recentAdverse := FlagAdverse(e.flag, recentAdverse);
      if e.filledQtyDelta > 0.0 {
        TakeFill(e);
      }
      markoutDegradation := Ewma(
        markoutDegradation, Clamp(MaxR(lastSlippageBps, 0.0) * 0.08 + recentAdverse, 0.0, 1.0), 0.16);
    }

    /** The part of an execution event that only a positive fill triggers. */
    method TakeFill(e: ExecutionEvent)
      modifies this`filledQty, this`remainingQty, this`queueState, this`executionAlphaMean, this`captureRatio,
               this`negativeCaptureStreak
      ensures Now() == OnFill(terms, old(Now()), e)
    {
      hide FillProbability, Ewma, MaxR, SatSub;
      filledQty := MaxR(e.cumulativeFilledQty, filledQty);
      remainingQty := MaxR(e.remainingQty, 0.0);
      queueState := queueState.(fillProbability := FillProbability(terms, Now(), queueEngine.Now(), 0.0));
      executionAlphaMean := Ewma(executionAlphaMean, -MaxR(e.slippageBps, 0.0) - recentAdverse * 2.0, 0.15);
      captureRatio := Ewma(captureRatio, e.partialFillRatio - 0.5, 0.12);
      if captureRatio < 0.0 {
        negativeCaptureStreak := if negativeCaptureStreak >= U64_MAX then U64_MAX else negativeCaptureStreak + 1;
      } else {
        negativeCaptureStreak := SatSub(negativeCaptureStreak, 1);
      }
    }

    method ApplyAction(action: Action, now: nat)
      modifies this
      ensures Now() == Apply(terms, old(Now()), action, now)
    {
      hide CrossPrice;
      lastActionTs := now;
      match action {
        case HoldPassive =>
        case Cancel => cancelCount := Bump(cancelCount);
        case StepAhead(p) =>
          replaceCount := Bump(replaceCount);
          currentPrice := Some(p);
        case CrossSpread =>
          currentStrategy := Aggressive;
          replaceCount := Bump(replaceCount);
          SameCross(terms, old(Now()).(lastActionTs := now), Now());
          currentPrice := Some(CrossPrice(terms, Now()));
        case Replace(p) =>
          replaceCount := Bump(replaceCount);
          currentPrice := Some(p);
        case SwitchStrategy(s) => currentStrategy := s;
        case ExitPosition(_) => cancelCount := Bump(cancelCount);
        case Abort =>
          cancelCount := Bump(cancelCount);
          status := Canceled;
      }
    }

    /** `evaluate_and_convert`: what the loop calls after every observation. */
    method EvaluateAndConvert(now: nat) returns (instruction: Option<Instruction>)
      modifies this
      ensures Now() == Turn(terms, old(Now()), now)
      ensures instruction == InstructionOf(terms, old(Now()), Decide(terms, old(Now()), now))
      ensures instruction.Some? && instruction.value.SendExit? ==>
                && old(filledQty) > EPSILON && instruction.value.side != terms.intent.side
                && (old(remainingQty) >= 0.0 ==> instruction.value.size == old(filledQty))
    {
      hide Decide, Apply, CrossPrice, ImprovedPrice;
      ExitUnwinds(terms, Now(), now);
      var action := Decide(terms, Now(), now);
      if action == HoldPassive {
        return None;
      }
      instruction := InstructionOf(terms, Now(), action);
      ApplyAction(action, now);
    }
  }

  lemma QtyOfAmounts(c: Controller, c': Controller)
    requires c.filled == c'.filled && c.remaining == c'.remaining
    ensures OrderQty(c) == OrderQty(c')
  {
  }
}

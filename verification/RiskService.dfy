/** The risk service as an object: its switches and marks, with the intelligence and feedback engines behind it. */
module RiskService {
  import opened Numeric
  import R = RiskCircuit
  import F = Feedback
  import G = Gateway
  import S = Store

  // ----- the marks -----

  datatype Marks = Marks(bySymbol: map<string, real>, last: real)

  function Marked(m: Marks, q: R.Quote): Marks {
    if R.QuotePrice(q) <= 0.0 then m else Marks(m.bySymbol[q.symbol := R.QuotePrice(q)], R.QuotePrice(q))
  }

  function MarkRun(quotes: seq<R.Quote>): Marks {
    if quotes == [] then Marks(map[], 0.0) else Marked(MarkRun(quotes[..|quotes|-1]), quotes[|quotes|-1])
  }

  /** The latest usable price of one symbol, 0 when there is none. */
  function LatestOf(quotes: seq<R.Quote>, symbol: string): real {
    if quotes == [] then 0.0
    else
      var q := quotes[|quotes|-1];
      if q.symbol == symbol && R.QuotePrice(q) > 0.0 then R.QuotePrice(q) else LatestOf(quotes[..|quotes|-1], symbol)
  }

  /** The latest usable price of any symbol. */
  function Latest(quotes: seq<R.Quote>): real {
    if quotes == [] then 0.0
    else if R.QuotePrice(quotes[|quotes|-1]) > 0.0 then R.QuotePrice(quotes[|quotes|-1])
    else Latest(quotes[..|quotes|-1])
  }

  /** Each symbol's mark is its own latest price, but the price limits are checked at is the latest of any symbol. */
  lemma {:induction false} MarksAreLatest(quotes: seq<R.Quote>, symbol: string)
    ensures MarkRun(quotes).last == Latest(quotes) >= 0.0
    ensures if symbol in MarkRun(quotes).bySymbol
            then MarkRun(quotes).bySymbol[symbol] == LatestOf(quotes, symbol) > 0.0
            else LatestOf(quotes, symbol) == 0.0
  {
    hide R.QuotePrice;
    if quotes != [] {
      MarksAreLatest(quotes[..|quotes|-1], symbol);
    }
  }

  /** The mark of the symbol itself, 0 without one. */
  function OwnMark(m: Marks, symbol: string): real {
    if symbol in m.bySymbol then m.bySymbol[symbol] else 0.0
  }

  /**
   An order without a price is checked at its own symbol's mark exactly when that is the latest price of any
   symbol.
   */
  lemma CheckedAtOwnMarkIff(quotes: seq<R.Quote>, symbol: string, g: R.Gates, req: R.Request)
    requires req.price == None && g.lastMark == MarkRun(quotes).last
    ensures R.CheckedPrice(g, req) == OwnMark(MarkRun(quotes), symbol) <==> Latest(quotes) == LatestOf(quotes, symbol)
  {
    MarksAreLatest(quotes, symbol);
  }

  /** Every unpriced order the gate allows, other than reduce-only ones, is within the position limit at this mark. */
  ghost predicate WithinLimitAt(cfg: R.Config, s: R.Snapshot, last: real, own: real) {
    forall g, req, v ::
      R.Gate(cfg, g, s, req, v).allowed && g.lastMark == last && req.price == None && !req.reduceOnly
      ==> Times(req.size, own) <= R.PositionCap(cfg, s)
  }

  /**
   The position limit binds at an order's own mark exactly when that mark is no higher than the latest price of any
   symbol, as long as the gate lets some unpriced order through at all.
   */
  lemma WithinOwnLimitIff(
    cfg: R.Config, s: R.Snapshot, quotes: seq<R.Quote>, symbol: string, g: R.Gates, req: R.Request, v: R.Values)
    requires g.lastMark == MarkRun(quotes).last && req.price == None && !req.reduceOnly
    requires R.Gate(cfg, g, s, req, v).allowed
    ensures WithinLimitAt(cfg, s, Latest(quotes), LatestOf(quotes, symbol))
            <==> LatestOf(quotes, symbol) <= Latest(quotes)
  {
    hide R.PositionCap, R.Gate, Times;
    var last, own := Latest(quotes), LatestOf(quotes, symbol);
    MarksAreLatest(quotes, symbol);
    if own <= last {
      forall g', req', v' |
        R.Gate(cfg, g', s, req', v').allowed && g'.lastMark == last && req'.price == None && !req'.reduceOnly
        ensures Times(req'.size, own) <= R.PositionCap(cfg, s)
      {
        WithinAtLower(cfg, g', s, req', v', own);
      }
    } else {
      BeyondAtHigher(cfg, g, s, req, v, own);
      var full := req.(size := FullSize(cfg, s, last));
      assert R.Gate(cfg, g.(availableBalance := 0.0), s, full, v).allowed;
    }
  }

  lemma WithinAtLower(cfg: R.Config, g: R.Gates, s: R.Snapshot, req: R.Request, v: R.Values, own: real)
    requires R.Gate(cfg, g, s, req, v).allowed && req.price == None && !req.reduceOnly && own <= g.lastMark
    ensures Times(req.size, own) <= R.PositionCap(cfg, s)
  {
    hide R.PositionCap, R.Gate;
    AllowedFacts(cfg, g, s, req, v);
    ProductSign(req.size, g.lastMark - own);
  }

  /** The size whose notional at the latest price is the whole limit. */
  function FullSize(cfg: R.Config, s: R.Snapshot, last: real): real {
    if last == 0.0 then 0.0 else R.PositionCap(cfg, s) / last
  }

  lemma BeyondAtHigher(cfg: R.Config, g: R.Gates, s: R.Snapshot, req: R.Request, v: R.Values, own: real)
    requires R.Gate(cfg, g, s, req, v).allowed && req.price == None && !req.reduceOnly && own > g.lastMark
    ensures var full := req.(size := FullSize(cfg, s, g.lastMark));
            && R.Gate(cfg, g.(availableBalance := 0.0), s, full, v).allowed
            && Times(full.size, own) > R.PositionCap(cfg, s)
  {
    hide R.PositionCap, R.Gate;
    AllowedFacts(cfg, g, s, req, v);
    FullOrderAllowed(cfg, g, s, req, v);
    var size := FullSize(cfg, s, g.lastMark);
    Undivide(R.PositionCap(cfg, s), g.lastMark);
    MoreThan(size, g.lastMark, own, R.PositionCap(cfg, s));
  }

  lemma AllowedFacts(cfg: R.Config, g: R.Gates, s: R.Snapshot, req: R.Request, v: R.Values)
    requires R.Gate(cfg, g, s, req, v).allowed && req.price == None && !req.reduceOnly
    ensures req.size > 0.0 && g.lastMark > 0.0 && req.size * g.lastMark <= R.PositionCap(cfg, s)
    ensures 0.0 < R.PositionCap(cfg, s) <= cfg.maxPosition
  {
    hide R.Evaluate;
    Positive(req.size, g.lastMark);
  }

  lemma Positive(a: real, b: real)
    ensures a > 0.0 && b > 0.0 ==> a * b > 0.0
  {
  }

  lemma MoreThan(size: real, last: real, own: real, cap: real)
    requires 0.0 < last < own && size * last == cap > 0.0
    ensures size * own > cap
  {
    if size <= 0.0 {
      ProductSign(-size, last);
    }
    Positive(size, own - last);
  }

  /** What the gate allows in some size it allows, without a balance to check, at the whole limit. */
  lemma FullOrderAllowed(cfg: R.Config, g: R.Gates, s: R.Snapshot, req: R.Request, v: R.Values)
    requires R.Gate(cfg, g, s, req, v).allowed && req.price == None && !req.reduceOnly && g.lastMark > 0.0
    ensures R.Gate(cfg, g.(availableBalance := 0.0), s, req.(size := FullSize(cfg, s, g.lastMark)), v).allowed
  {
    hide R.PositionCap, R.CappedMultiplier;
    AllowedFacts(cfg, g, s, req, v);
    var cap := R.PositionCap(cfg, s);
    Undivide(cap, g.lastMark);
    if cap / g.lastMark <= 0.0 {
      ProductSign(-(cap / g.lastMark), g.lastMark);
    }
  }

  /**
   For one: an order whose own mark is 1000 is checked at 1 after another symbol's quote, and a thousand times the
   position limit is allowed.
   */
  lemma CheckedAtAnotherMark(cfg: R.Config, req: R.Request, v: R.Values)
    requires cfg.maxPosition > 0.0 && cfg.maxDailyLoss > 0.0
    requires req == R.Request(cfg.maxPosition, None, true, true, false, 1.0)
    ensures var m := MarkRun([R.Quote("BTC", 1000.0, 0.0, 0.0, 1.0, 0.0), R.Quote("DOGE", 1.0, 0.0, 0.0, 1.0, 1.0)]);
            && R.Gate(cfg, R.Gates(false, false, 0.0, m.last, 0.0, 1.0), R.FRESH.snapshot, req, v).allowed
            && "BTC" in m.bySymbol && req.size * m.bySymbol["BTC"] == 1000.0 * cfg.maxPosition
  {
    hide R.CappedMultiplier;
    var first := R.Quote("BTC", 1000.0, 0.0, 0.0, 1.0, 0.0);
    var both := [first, R.Quote("DOGE", 1.0, 0.0, 0.0, 1.0, 1.0)];
    assert both[..1] == [first] && [first][..0] == [];
    assert MarkRun([first]) == Marks(map["BTC" := 1000.0], 1000.0);
    assert MarkRun(both) == Marks(map["BTC" := 1000.0, "DOGE" := 1.0], 1.0);
    R.ClampUnit(0.0);
    R.CappedFacts(R.FRESH.snapshot, v, false);
  }

  // ----- the service -----

  ghost predicate AnyUp(breakers: map<string, bool>) {
    exists y :: y in breakers && breakers[y]
  }

  class Service {
    const cfg: R.Config
    const store: S.OrderStore
    const intelligence: G.IntelligenceEngine
    const feedback: F.FeedbackEngine
    var kill: bool
    var forcedBreaker: bool
    var breakers: map<string, bool>
    var lastMark: real
    var marks: map<string, real>

    /** The forced breaker is up exactly when some symbol's breaker is. */
    ghost predicate Valid()
      reads this, feedback
    {
      && cfg.maxExposure > 0.0 && intelligence.cfg == cfg && feedback.Valid()
      && (forcedBreaker <==> AnyUp(breakers))
    }

    /** The service seen as the state of the closed loop, with the two ghost counters given. */
    ghost function Loop(sends: nat, failed: bool): F.Service
      reads this, feedback, intelligence
    {
      F.Service(intelligence.View(), feedback.View(), sends, failed)
    }

    function Gates(availableBalance: real, leverage: real): R.Gates
      reads this
    {
      R.Gates(kill, forcedBreaker, 0.0, lastMark, availableBalance, leverage)
    }

    constructor (cfg: R.Config, store: S.OrderStore)
      requires cfg.maxExposure > 0.0
      ensures Valid() && this.cfg == cfg && this.store == store && fresh(intelligence) && fresh(feedback)
      ensures Loop(0, false) == F.RunService(cfg, [])
      ensures Marks(marks, lastMark) == MarkRun([]) && !kill && !forcedBreaker
    {
      this.cfg, this.store := cfg, store;
      intelligence := new G.IntelligenceEngine(cfg);
      feedback := new F.FeedbackEngine();
      kill, forcedBreaker, breakers, lastMark, marks := false, false, map[], 0.0, map[];
    }

    /** Marks the symbol and takes one market step of the loop, at the exposure of the store's positions. */
    method ObserveMarket(q: R.Quote, hash: nat)
      requires Valid()
      modifies this`marks, this`lastMark, intelligence
      ensures Valid() && Marks(marks, lastMark) == Marked(old(Marks(marks, lastMark)), q)
      ensures R.QuotePrice(q) > 0.0 ==>
                intelligence.lastPrice == R.QuotePrice(q) && intelligence.lastTime == Some(q.time)
      ensures forall sends: nat, failed: bool :: Loop(sends, failed) ==
                if R.QuotePrice(q) <= 0.0 then old(Loop(sends, failed))
                else
                  F.Serve(cfg, old(Loop(sends, failed)), F.Market(
                    hash, q.volume, R.Velocity(old(intelligence.lastPrice), old(intelligence.lastTime),
                                               R.QuotePrice(q), q.time),
                    S.GrossExposure(store.positions, marks)))
    {
      hide R.ObserveMarket, R.Velocity, R.QuotePrice, F.Seen, AnyUp, S.GrossExposure;
      var price := R.QuotePrice(q);
      if price <= 0.0 {
        return;
      }
      marks := marks[q.symbol := price];
      lastMark := price;
      var gross := store.GrossExposureUSD(marks);
      intelligence.ObserveMarket(q, hash, gross, feedback.snapshot.seen);
    }

    /** The gates in their order; every denial is booked with the feedback engine. */
    method Evaluate(req: R.Request, v: R.Values, availableBalance: real, leverage: real) returns (d: R.Decision)
      requires Valid()
      modifies feedback
      ensures Valid()
      ensures d == R.Gate(cfg, Gates(availableBalance, leverage), intelligence.snapshot, req, v)
      ensures feedback.View() == if d.allowed then old(feedback.View())
                                 else F.OnFailure(old(feedback.View()), F.CategoryOf(d.reason))
    {
      hide AnyUp, R.Evaluate, R.PositionCap, F.CategoryOf, F.Seen, F.OnFailure;
      d := R.Decision(false, 0.0, R.Granted);
      var price := if req.price.Some? then req.price.value else lastMark;
      var notional := req.size * price;
      var limit := R.PositionCap(cfg, intelligence.snapshot);
      if kill {
        d := R.Decision(false, 0.0, R.KillSwitch);
      } else if forcedBreaker {
        d := R.Decision(false, 0.0, R.BreakerForced);
      } else if !req.execute {
        d := R.Decision(false, 0.0, R.NotExecute);
      } else if !req.inTime {
        d := R.Decision(false, 0.0, R.StaleSignal);
      } else if req.size <= 0.0 {
        d := R.Decision(false, 0.0, R.BadSize);
      } else if 0.0 <= -cfg.maxDailyLoss {
        d := R.Decision(false, 0.0, R.DailyLoss);
      } else if price <= 0.0 {
        d := R.Decision(false, 0.0, R.MissingPrice);
      } else if availableBalance > 0.0 && !req.reduceOnly
                && notional > availableBalance * (if leverage <= 0.0 then 1.0 else leverage) {
        d := R.Decision(false, 0.0, R.InsufficientBalance);
      } else if !req.reduceOnly && notional > cfg.maxPosition {
        d := R.Decision(false, 0.0, R.PositionLimit);
      } else if !req.reduceOnly && notional > limit {
        d := R.Decision(false, 0.0, R.DynamicPositionLimit);
      } else {
        d := R.Evaluate(intelligence.snapshot, req, v);
      }
      if !d.allowed {
        feedback.ObserveFailure(F.CategoryOf(d.reason));
      }
    }

    method ObserveExecution(latencyMs: real, penalty: real, rejected: bool)
      requires Valid()
      modifies intelligence, feedback
      ensures Valid()
      ensures forall sends: nat, failed: bool :: Loop(sends + 1, failed || rejected) ==
                F.Sent(cfg, old(Loop(sends, failed)),
                       if rejected then F.SendFails(latencyMs, penalty) else F.SendSucceeds(latencyMs, penalty, []))
    {
      hide AnyUp, R.ObserveExecution, F.Seen, F.OnFailure;
      intelligence.ObserveExecution(latencyMs, penalty, rejected, feedback.snapshot.seen);
      if rejected {
        feedback.ObserveFailure(F.ExecutionFail);
      }
    }

    method ObserveExecutionEvent(x: F.Execution)
      requires Valid()
      modifies intelligence, feedback
      ensures Valid()
      ensures forall sends: nat, failed: bool :: Loop(sends, failed)
                                                 == F.Serve(cfg, old(Loop(sends, failed)), F.Executed(x))
    {
      hide AnyUp, R.ObserveFeedback, F.Seen, F.OnExecution;
      feedback.ObserveExecutionEvent(x);
      intelligence.ObserveFeedback(feedback.snapshot.seen);
    }

    method ObserveFailure(category: F.Category)
      requires Valid()
      modifies intelligence, feedback
      ensures Valid()
      ensures forall sends: nat, failed: bool :: Loop(sends, failed)
                                                 == F.Serve(cfg, old(Loop(sends, failed)), F.Failed(category))
    {
      hide AnyUp, R.ObserveFeedback, F.Seen, F.OnFailure;
      feedback.ObserveFailure(category);
      intelligence.ObserveFeedback(feedback.snapshot.seen);
    }

    method SetKillSwitch(enabled: bool)
      requires Valid()
      modifies this`kill
      ensures Valid() && kill == enabled
    {
      hide AnyUp;
      kill := enabled;
    }

    /** Raising one symbol's breaker stops every symbol; lowering it lifts the stop only when no other is up. */
    method SetCircuitBreaker(symbol: string, enabled: bool)
      requires Valid()
      modifies this`breakers, this`forcedBreaker
      ensures Valid() && breakers == old(breakers)[symbol := enabled]
      ensures forcedBreaker <==> enabled || exists y :: y in old(breakers) && y != symbol && old(breakers)[y]
    {
      hide F.Seen;
      ghost var before := breakers;
      breakers := breakers[symbol := enabled];
      var any := false;
      var todo := breakers.Keys;
      while todo != {} && !any
        invariant todo <= breakers.Keys && breakers == before[symbol := enabled]
        invariant any ==> AnyUp(breakers)
        invariant !any ==> forall y :: y in breakers && y !in todo ==> !breakers[y]
        decreases |todo|, !any
      {
        var y :| y in todo;
        any := breakers[y];
        todo := todo - {y};
      }
      forcedBreaker := any;
      if enabled {
        assert symbol in breakers && breakers[symbol];
      }
      forall y | y in before && y != symbol && before[y] ensures y in breakers && breakers[y] {}
    }
  }
}

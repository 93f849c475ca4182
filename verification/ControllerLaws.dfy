/** What moves the order controller and its estimate of the order's place in the book, and which way. */
module ControllerLaws {
  import opened Numeric
  import opened Domain
  import opened OrderQueue
  import opened OrderController

  // ----- the estimate -----

  /**
   A trade takes its volume off the queue ahead, down to the order's own quantity, and never lowers the fill
   probability: trading the whole queue away raises it by 0.18 unless it is capped.
   */
  lemma TradeMeans(e: Engine, traded: real, orderQty: real, now: nat)
    requires 0.0 <= traded && 0.0 <= orderQty && Sound(e)
    ensures var s, s' := e.state, AfterTrade(e, traded, orderQty, now).state;
            && s'.volumeAhead >= orderQty && (s.volumeAhead >= orderQty ==> s'.volumeAhead <= s.volumeAhead)
            && (s.volumeAhead - traded >= orderQty ==> s'.volumeAhead == s.volumeAhead - traded)
            && (s.volumeAhead - traded < orderQty ==> s'.volumeAhead == orderQty)
            && s.fillProbability <= s'.fillProbability <= s.fillProbability + 0.18
            && (traded == 0.0 ==> s'.fillProbability == s.fillProbability)
            && (traded >= s.volumeAhead >= MaxR(orderQty, TINY) && s.fillProbability <= 0.82 ==>
                  s'.fillProbability == s.fillProbability + 0.18)
  {
    hide FillTime, Ewma, Elapsed, Clamp, TradeImpulse;
    ImpulseMeans(e, traded, orderQty);
    UnitClamp(e.state.fillProbability + TradeImpulse(e, traded, orderQty) * 0.18);
  }

  lemma UnitClamp(v: real)
    ensures v <= 1.0 ==> Clamp(v, 0.0, 1.0) == MaxR(v, 0.0)
    ensures v > 1.0 ==> Clamp(v, 0.0, 1.0) == 1.0
  {
  }

  lemma ImpulseMeans(e: Engine, traded: real, orderQty: real)
    requires 0.0 <= traded
    ensures var impulse := TradeImpulse(e, traded, orderQty);
            && 0.0 <= impulse <= 1.0 && (traded == 0.0 ==> impulse == 0.0)
            && (traded >= MaxR(MaxR(e.state.volumeAhead, orderQty), TINY) ==> impulse == 1.0)
  {
    var base := MaxR(MaxR(e.state.volumeAhead, orderQty), TINY);
    QuotientAtLeast(traded, base);
  }

  lemma QuotientAtLeast(n: real, d: real)
    requires 0.0 <= n && d > 0.0
    ensures n / d >= 0.0 && (n >= d <==> n / d >= 1.0) && (n == 0.0 ==> n / d == 0.0)
  {
    assert n / d * d == n;
  }

  /** A book with nobody ahead by price puts the visible volume ahead; an outbid order has its own quantity on top. */
  lemma BookAheadMeans(e: Engine, visibleVolume: real, orderQty: real, outbid: bool, spreadBps: real, now: nat)
    requires 0.0 <= orderQty
    ensures var visible, e' := MaxR(visibleVolume, orderQty),
                               AfterBook(e, visibleVolume, orderQty, outbid, spreadBps, now);
            && (!outbid ==> e'.state.volumeAhead == visible)
            && (outbid ==> e'.state.volumeAhead >= visible + orderQty && e'.state.volumeAhead >= e.state.volumeAhead)
            && (!outbid && visible >= TINY ==> e'.state.positionRatio == 1.0)
            && (outbid && visible >= TINY ==> e'.state.positionRatio >= 1.0)
            && e'.lastVisibleVolume == visible && e'.lastVolumeAhead == e'.state.volumeAhead && e'.lastTs == now
  {
    hide FillTime, Ewma, Elapsed, BookProbability, CancelRate;
    var visible, ahead := MaxR(visibleVolume, orderQty), BookAhead(e, MaxR(visibleVolume, orderQty), orderQty, outbid);
    if visible >= TINY {
      QuotientAtLeast(MaxR(ahead, orderQty), visible);
    }
  }

  /**
   The book's fill probability falls with the queue ahead and with the spread, rises with decay, cancels and
   trade-throughs, and being outbid costs 0.14 unless the probability runs out.
   */
  lemma BookProbabilityMoves(
    ratio: real, decay: real, cancel: real, through: real, spread: real, ratio': real, decay': real, cancel': real,
    through': real, spread': real, orderQty: real, outbid: bool)
    requires ratio <= ratio' && spread <= spread' && decay' <= decay && cancel' <= cancel && through' <= through
    ensures BookProbability(ratio', decay', cancel', through', orderQty, outbid, spread')
            <= BookProbability(ratio, decay, cancel, through, orderQty, outbid, spread)
    ensures var kept, lost := BookProbability(ratio, decay, cancel, through, orderQty, false, spread),
                              BookProbability(ratio, decay, cancel, through, orderQty, true, spread);
            lost <= kept && (lost > 0.0 && kept < 1.0 ==> kept - lost == 0.14)
    ensures ratio <= 1.0 && decay <= 0.0 && cancel <= 0.0 && through <= 0.0 && spread <= 0.0 ==>
              BookProbability(ratio, decay, cancel, through, orderQty, false, spread) == 0.55
  {
    hide Clamp, MaxR;
    BaseNonZero(orderQty);
    BoostMoves(decay, decay', MaxR(orderQty, TINY));
    ClampMoves(cancel', cancel, 0.18);
    ClampMoves(through', through, 0.20);
    ClampMoves(spread / 12.0, spread' / 12.0, 0.45);
    PositiveMoves(ratio - 1.0, ratio' - 1.0);
    ClampEverywhere();
  }

  lemma ClampEverywhere()
    ensures forall v :: Clamp(v, 0.0, 1.0) == if v < 0.0 then 0.0 else if v > 1.0 then 1.0 else v
  {
  }

  lemma ClampMoves(a: real, b: real, hi: real)
    requires a <= b && 0.0 <= hi
    ensures 0.0 <= Clamp(a, 0.0, hi) <= Clamp(b, 0.0, hi) <= hi
    ensures (a <= 0.0 ==> Clamp(a, 0.0, hi) == 0.0) && (b <= 0.0 ==> Clamp(b, 0.0, hi) == 0.0)
  {
  }

  lemma PositiveMoves(a: real, b: real)
    requires a <= b
    ensures 0.0 <= MaxR(a, 0.0) <= MaxR(b, 0.0) && (a <= 0.0 ==> MaxR(a, 0.0) == 0.0)
  {
  }

  lemma BoostMoves(decay: real, decay': real, base: real)
    requires decay' <= decay && base > 0.0
    ensures Clamp(MaxR(decay', 0.0) / base * 50.0, 0.0, 0.20) <= Clamp(MaxR(decay, 0.0) / base * 50.0, 0.0, 0.20)
    ensures decay <= 0.0 ==> Clamp(MaxR(decay, 0.0) / base * 50.0, 0.0, 0.20) == 0.0
  {
    hide Clamp;
    PositiveMoves(decay', decay);
    QuotientMoves(MaxR(decay', 0.0), MaxR(decay, 0.0), base);
    ClampMoves(MaxR(decay', 0.0) / base * 50.0, MaxR(decay, 0.0) / base * 50.0, 0.20);
  }

  lemma QuotientMoves(a: real, b: real, base: real)
    requires a <= b && base > 0.0
    ensures a / base <= b / base && (b == 0.0 ==> b / base == 0.0)
  {
    var p, q := a / base, b / base;
    assert p * base == a && q * base == b;
    assert (q - p) * base == b - a;
  }

  /** A longer queue, a smaller chance or a slower decay never shortens the expected time to a fill. */
  lemma FillTimeMoves(ahead: real, probability: real, decay: real, ahead': real, probability': real, decay': real,
                      orderQty: real)
    requires 0.0 <= ahead <= ahead' && probability' <= probability && decay' <= decay
    ensures 10.0 <= FillTime(ahead, orderQty, probability, decay) <= FillTime(ahead', orderQty, probability', decay')
            <= 2000.0
  {
    hide MaxR;
    var base, base' := MaxR(MaxR(decay, orderQty * 0.001), 0.000001), MaxR(MaxR(decay', orderQty * 0.001), 0.000001);
    var chance, chance' := MaxR(probability, 0.05), MaxR(probability', 0.05);
    MaxMoves(decay', decay, orderQty * 0.001);
    MaxMoves(MaxR(decay', orderQty * 0.001), MaxR(decay, orderQty * 0.001), 0.000001);
    MaxMoves(probability', probability, 0.05);
    QuotientFalls(ahead, base, ahead', base');
    QuotientFalls(ahead / base, chance, ahead' / base', chance');
  }

  lemma MaxMoves(a: real, b: real, floor: real)
    requires a <= b
    ensures floor <= MaxR(a, floor) <= MaxR(b, floor)
  {
  }

  lemma QuotientFalls(n: real, d: real, n': real, d': real)
    requires 0.0 <= n <= n' && 0.0 < d' <= d
    ensures 0.0 <= n / d <= n' / d'
  {
    var p, q := n / d, n' / d';
    assert p * d == n && q * d' == n';
    QuotientAtLeast(n, d);
    QuotientAtLeast(n', d');
    ProductSign(q, d - d');
    assert q * (d - d') == q * d - q * d';
    assert (q - p) * d >= 0.0;
  }

  /**
   The rates are averages: of the share of the visible volume that vanished, of trade impulses, and of decay
   per ms.
   */
  lemma RatesMove(e: Engine, visible: real, traded: real, orderQty: real, now: nat)
    requires e.lastVisibleVolume >= TINY && visible >= 0.0
    ensures var gone := MaxR(e.lastVisibleVolume - visible, 0.0) / e.lastVisibleVolume;
            0.0 <= gone <= 1.0 && Averages(e.cancelRate, CancelRate(e, visible), gone, 0.10)
    ensures var e' := AfterTrade(e, traded, orderQty, now);
            && Averages(e.tradeThroughRate, e'.tradeThroughRate, TradeImpulse(e, traded, orderQty), 0.22)
            && Averages(e.state.decayRate, e'.state.decayRate,
                        MinR(traded, e.state.volumeAhead) / Elapsed(now, e.lastTs),
                        0.22)
            && e'.cancelRate == e.cancelRate && e'.lastVisibleVolume == e.lastVisibleVolume && e'.lastTs == now
  {
    hide Ewma, FillTime, TradeImpulse, Elapsed;
    var last := e.lastVisibleVolume;
    Vanished(last, visible);
    EwmaAverages(e.cancelRate, MaxR(last - visible, 0.0) / last, ALPHA_SLOW);
    EwmaAverages(e.tradeThroughRate, TradeImpulse(e, traded, orderQty), ALPHA_FAST);
    EwmaAverages(e.state.decayRate, MinR(traded, e.state.volumeAhead) / Elapsed(now, e.lastTs), ALPHA_FAST);
  }

  lemma Vanished(last: real, visible: real)
    requires last > 0.0 && visible >= 0.0
    ensures 0.0 <= MaxR(last - visible, 0.0) / last <= 1.0
    ensures MaxR(Clamp((last - visible) / last, -1.0, 1.0), 0.0) == MaxR(last - visible, 0.0) / last
  {
    var q := (last - visible) / last;
    assert q * last == last - visible;
    assert (1.0 - q) * last == visible;
  }

  // ----- the controller's own fill probability and contest -----

  /**
   The controller's fill probability falls with everything that speaks against a fill and rises with the
   market's turnover.
   */
  lemma FillProbabilityMoves(t: Terms, c: Controller, c': Controller, engine: Engine, engine': Engine, pull: real,
                             pull': real)
    requires c.queue.positionRatio <= c'.queue.positionRatio && c.timesOutbid <= c'.timesOutbid
    requires c'.alphaMean <= c.alphaMean && c.markoutDegradation <= c'.markoutDegradation && pull <= pull'
    requires c.queue.competition == c'.queue.competition || c.queue.competition == Normal
             || c'.queue.competition == Saturated
    requires engine'.cancelRate <= engine.cancelRate && engine'.tradeThroughRate <= engine.tradeThroughRate
    ensures 0.0 <= FillProbability(t, c', engine', pull') <= FillProbability(t, c, engine, pull) <= 1.0
  {
    hide Clamp;
    ClampMoves(c.queue.positionRatio / 3.0, c'.queue.positionRatio / 3.0, 0.65);
    ClampMoves(c.timesOutbid as real * 0.08, c'.timesOutbid as real * 0.08, 0.24);
    ClampMoves(-c.alphaMean / 10.0, -c'.alphaMean / 10.0, 0.15);
    ClampMoves(c.markoutDegradation, c'.markoutDegradation, 0.18);
    ClampEverywhere();
  }

  /** What the contest is read from, and that it never eases when the probability falls or pressure grows. */
  lemma ContestMeans(probability: real, outbid: nat, pull: real, probability': real, outbid': nat, pull': real)
    requires probability' <= probability && outbid <= outbid' && pull <= pull'
    ensures Contest(probability, outbid, pull) == Normal <==> probability >= 0.32 && outbid == 0 && pull <= 0.45
    ensures Contest(probability, outbid, pull) == Saturated <==> probability < 0.15 || outbid >= 3 || pull > 0.80
    ensures Contest(probability', outbid', pull') == Normal ==> Contest(probability, outbid, pull) == Normal
    ensures Contest(probability, outbid, pull) == Saturated ==> Contest(probability', outbid', pull') == Saturated
  {
  }

  // ----- what a book changes -----

  /**
   A book is read on the order's own side: a better bid than a buy's price, or a better ask than a sell's, counts as
   being outbid once, and the volume on that side is what is seen ahead.  A one-sided book changes nothing.
   */
  lemma BookMeans(t: Terms, c: Controller, bids: seq<Level>, asks: seq<Level>, now: nat)
    ensures bids == [] || asks == [] ==> OnMarket(t, c, BookDelta(bids, asks, now)) == c
    ensures bids != [] && asks != [] ==>
              var d := OnMarket(t, c, BookDelta(bids, asks, now));
              var price := if c.price.Some? then c.price.value else 0.0;
              var beaten := c.price.Some? && if t.intent.side == Buy then bids[0].price > price
                                             else asks[0].price < price;
              var own := if t.intent.side == Buy then bids[0].quantity else asks[0].quantity;
              && (c.timesOutbid < U32_MAX ==> d.timesOutbid == c.timesOutbid + if beaten then 1 else 0)
              && d.engine.lastVisibleVolume == MaxR(own, MaxR(c.remaining, c.filled + c.remaining))
              && d.engine.lastTs == now && d.engine.tradeThroughRate == c.engine.tradeThroughRate
              && d.queue.volumeAhead == d.engine.state.volumeAhead
  {
    hide FillProbability, Pull, SpreadBps, Contest;
    if bids != [] && asks != [] {
      var touch := if t.intent.side == Buy then bids[0] else asks[0];
      BookKeeps(c.engine, touch.quantity, OrderQty(c), Outbid(t.intent.side, c.price, bids[0].price, asks[0].price),
                SpreadBps(bids[0].price, asks[0].price, touch.price), now);
      hide AfterBook;
    }
  }

  lemma BookKeeps(e: Engine, visibleVolume: real, orderQty: real, outbid: bool, spreadBps: real, now: nat)
    ensures var e' := AfterBook(e, visibleVolume, orderQty, outbid, spreadBps, now);
            && e'.lastVisibleVolume == MaxR(visibleVolume, orderQty) && e'.lastTs == now
            && e'.tradeThroughRate == e.tradeThroughRate
  {
    hide FillTime, Ewma, Elapsed, BookProbability, CancelRate, BookAhead;
  }

  /** After a two-sided book the contest is read from the new probability and the times outbid. */
  lemma BookContests(t: Terms, c: Controller, bids: seq<Level>, asks: seq<Level>, now: nat)
    requires bids != [] && asks != []
    ensures var d := OnMarket(t, c, BookDelta(bids, asks, now));
            && 0.0 <= d.queue.fillProbability <= 1.0
            && (d.queue.competition == Normal ==> d.queue.fillProbability >= 0.32 && d.timesOutbid == 0)
            && (d.queue.fillProbability < 0.15 || d.timesOutbid >= 3 ==> d.queue.competition == Saturated)
  {
    hide AfterBook, Pull, SpreadBps, Outbid, OrderQty;
    assert forall v :: 0.0 <= Clamp(v, 0.0, 1.0) <= 1.0;
  }

  /** Liquidity pulls away as the visible volume falls below what was ahead at first, and as the spread widens. */
  lemma PullMeans(t: Terms, visible: real, spreadBps: real, visible': real, spreadBps': real)
    requires visible' <= visible && spreadBps <= spreadBps' && t.InitialAhead() >= TINY
    ensures 0.0 <= Pull(t, visible, spreadBps) <= Pull(t, visible', spreadBps') <= 1.25
    ensures Pull(t, visible, spreadBps) == 0.0 <==> visible >= t.InitialAhead() && spreadBps <= 0.0
    ensures visible <= 0.0 && spreadBps >= 12.0 ==> Pull(t, visible, spreadBps) == 1.25
  {
    hide Clamp;
    var first := t.InitialAhead();
    QuotientMoves(first - visible, first - visible', first);
    PulledShare(first, visible);
    ClampMoves((first - visible) / first, (first - visible') / first, 1.0);
    ClampMoves(spreadBps / 12.0, spreadBps' / 12.0, 1.0);
    PositiveClamp((first - visible) / first);
    PositiveClamp(spreadBps / 12.0);
  }

  lemma PulledShare(first: real, visible: real)
    requires first > 0.0
    ensures (first - visible) / first <= 0.0 <==> visible >= first
    ensures visible <= 0.0 ==> (first - visible) / first >= 1.0
  {
    var q := (first - visible) / first;
    assert q * first == first - visible;
    assert (q - 1.0) * first == -visible;
  }

  lemma PositiveClamp(v: real)
    ensures (Clamp(v, 0.0, 1.0) == 0.0 <==> v <= 0.0) && (v >= 1.0 ==> Clamp(v, 0.0, 1.0) == 1.0)
  {
  }

  /** The spread in ten-thousandths of the reference price; a crossed book has none. */
  lemma SpreadMeans(bid: real, ask: real, reference: real)
    ensures ask <= bid ==> SpreadBps(bid, ask, reference) == 0.0
    ensures ask >= bid && reference >= TINY ==> Times(SpreadBps(bid, ask, reference), reference)
                                                == 10000.0 * (ask - bid)
  {
    if ask >= bid && reference >= TINY {
      Undivide(ask - bid, reference);
    }
  }

  // ----- times and ticks -----

  /**
   The tick never exceeds 0.025% of the reference price and reaches that or 0.01, the lesser; an order with a weak
   edge moves by half of it.
   */
  lemma TickMeans(t: Terms, c: Controller, bid: real, ask: real, reference: real)
    ensures MinR(0.01, AbsR(reference) * 0.00025) <= Tick(bid, ask, reference) <= AbsR(reference) * 0.00025
    ensures 0.01 <= AbsR(ask - bid) <= AbsR(reference) * 0.00025 && AbsR(reference) * 0.00002 <= AbsR(ask - bid) ==>
              Tick(bid, ask, reference) == AbsR(ask - bid)
    ensures t.WeakEdge() ==> 2.0 * Improvement(t, c) == Tick(c.queue.bestBid, c.queue.bestAsk, Reference(c))
    ensures !t.WeakEdge() ==> Improvement(t, c) == Tick(c.queue.bestBid, c.queue.bestAsk, Reference(c))
  {
  }

  /** What an order is judged by at first: figures as given, within the bounds the program sets. */
  lemma TermsMean(t: Terms)
    ensures 0.05 <= t.MinProbability() <= 0.95
    ensures 0.05 <= t.cfg.minFillProbability <= 0.95 ==> t.MinProbability() == t.cfg.minFillProbability
    ensures t.VolumeFactor() >= 1.05
    ensures t.cfg.replaceVolumeFactor >= 1.05 ==> t.VolumeFactor() == t.cfg.replaceVolumeFactor
    ensures t.InitialAhead() >= t.intent.size && t.InitialAhead() >= t.intent.volumeAhead
    ensures t.InitialAhead() == t.intent.size || t.InitialAhead() == t.intent.volumeAhead
  {
  }

  /** At first nothing is filled, nothing was tried, and the place in the book is the one estimated. */
  lemma StartMeans(t: Terms)
    ensures var c, i := Start(t), t.intent;
            && c.filled == 0.0 && c.remaining == i.size && c.price == i.price && c.strategy == i.strategy
            && c.cancelCount == c.replaceCount == c.timesOutbid == 0 && !c.status.Terminal()
            && c.queue.volumeAhead == MaxR(i.volumeAhead, i.size) && c.queue.expectedFillTimeMs == t.FillTimeMs()
            && c.queue.competition == Normal
            && (0.0 <= i.queueFillProbability <= 1.0 ==> c.queue.fillProbability == i.queueFillProbability)
            && (i.volumeAhead >= i.size && i.volumeAhead >= TINY ==> c.queue.positionRatio == 1.0)
            && (i.volumeAhead <= 0.0 && i.size <= 0.0 ==> c.queue.positionRatio == 1.0)
            && c.streak == i.negativeCaptureStreak && c.alphaMean == i.executionAlphaMean
            && c.markoutDegradation == i.markoutDegradation && c.captureRatio == i.captureMean
  {
  }

  /** The time an edge is given lies between three quarters of the expected duration and twelve times it. */
  lemma HalfLifeMsMeans(t: Terms)
    ensures var base := t.intent.expectedDurationMs as real;
            && 0.75 * base <= t.HalfLifeMs() <= 12.0 * base
            && (0.75 <= t.intent.halfLifeSamples <= 12.0 ==> t.HalfLifeMs() == Times(t.intent.halfLifeSamples, base))
  {
    var base, n := t.intent.expectedDurationMs as real, t.intent.halfLifeSamples;
    if 0.75 <= n <= 12.0 {
      ProductSign(n - 0.75, base);
      ProductSign(12.0 - n, base);
      assert (n - 0.75) * base == n * base - base * 0.75;
      assert (12.0 - n) * base == base * 12.0 - n * base;
    }
  }

  /** More urgency or a better chance never lengthens the time a fill is expected to take. */
  lemma FillTimeMsFalls(t: Terms, t': Terms)
    requires t.intent.expectedDurationMs == t'.intent.expectedDurationMs
    requires t.intent.urgency <= t'.intent.urgency && t.intent.queueFillProbability <= t'.intent.queueFillProbability
    ensures 0.0 <= t'.FillTimeMs() <= t.FillTimeMs()
  {
    hide Clamp;
    var base := t.intent.expectedDurationMs as real;
    var chance := MaxR(Clamp(t.intent.queueFillProbability, 0.0, 1.0), 0.05);
    var chance' := MaxR(Clamp(t'.intent.queueFillProbability, 0.0, 1.0), 0.05);
    var haste, haste' := Clamp(1.15 - t.intent.urgency * 0.35, 0.65, 1.20),
        Clamp(1.15 - t'.intent.urgency * 0.35, 0.65, 1.20);
    ClampEverywhere();
    HasteRange(1.15 - t'.intent.urgency * 0.35, 1.15 - t.intent.urgency * 0.35);
    QuotientFalls(base, chance', base, chance);
    ProductsOrder(base / chance', haste', base / chance, haste);
  }

  /**
   With a sure fill the time is the expected duration, stretched by 1.15 without urgency and cut to 0.80 at
   full urgency.
   */
  lemma SureFillTime(t: Terms)
    requires t.intent.queueFillProbability == 1.0
    ensures t.intent.urgency == 0.0 ==> t.FillTimeMs() == 1.15 * t.intent.expectedDurationMs as real
    ensures t.intent.urgency == 1.0 ==> t.FillTimeMs() == 0.80 * t.intent.expectedDurationMs as real
  {
    WholeChance(t.intent.expectedDurationMs as real, MaxR(Clamp(t.intent.queueFillProbability, 0.0, 1.0), 0.05));
  }

  lemma WholeChance(base: real, chance: real)
    requires chance == 1.0
    ensures base / chance == base
  {
  }

  lemma HasteRange(a: real, b: real)
    requires a <= b
    ensures 0.65 <= Clamp(a, 0.65, 1.20) <= Clamp(b, 0.65, 1.20) <= 1.20
  {
  }

  lemma ProductsOrder(a: real, b: real, a': real, b': real)
    requires 0.0 <= a <= a' && 0.0 <= b <= b'
    ensures 0.0 <= a * b <= a' * b'
  {
    ProductSign(a, b);
    ProductSign(a' - a, b);
    ProductSign(a', b' - b);
    assert a * b <= a' * b <= a' * b';
  }

  // ----- decisions -----

  /**
   When the controller switches.  A passive order with a strong edge and too little chance of a fill turns aggressive
   when time runs short; an aggressive one that slips too far turns passive while time is left.  But when the order was
   never expected to fill within its half-life, every switch is to aggressive, even the one that asks for passive.
   */
  lemma SwitchesIff(t: Terms, c: Controller, now: nat)
    ensures var left := MaxR(t.HalfLifeMs() - t.Elapsed(now), 0.0);
            var pushes := c.strategy == Passive && c.queue.fillProbability < t.MinProbability() * 0.80
                          && t.intent.score > 0.78 && t.intent.edgeReliability > 0.60 && c.alphaMean > -1.5
                          && left < MaxR(t.FillTimeMs(), 1.0);
            var eases := c.strategy == Aggressive && c.lastSlippageBps > t.intent.expectedSlippageBps * 1.35
                         && left > t.FillTimeMs() * 0.75;
            var stays := Awake(t, c, now) && !EdgeGone(t, c, now);
            && (Decide(t, c, now) == SwitchStrategy(Aggressive)
                <==> stays && if t.FillTimeMs() > t.HalfLifeMs() then pushes || eases else !ShouldExit(c) && pushes)
            && (Decide(t, c, now) == SwitchStrategy(Passive)
                <==> stays && t.FillTimeMs() <= t.HalfLifeMs() && !ShouldExit(c) && eases)
  {
    hide ShouldReplace, ShouldCross, ShouldCancel, ShouldExit, ImprovedPrice, CrossPrice, EdgeGone;
    EdgeGoneMeans(t, c, now);
  }

  /**
   Exactly when a decision reprices: nothing makes the controller leave or switch, the order is passive, is still open
   and may be replaced once more, has lost its place for too long, and a better price exists.
   */
  lemma RepricesIff(t: Terms, c: Controller, now: nat)
    ensures Reprices(Decide(t, c, now))
            <==> Awake(t, c, now) && !EdgeGone(t, c, now) && t.FillTimeMs() <= t.HalfLifeMs() && !ShouldExit(c)
                 && ShouldSwitch(t, c, now).None? && ImprovedPrice(t, c).Some?
                 && c.strategy == Passive && c.replaceCount < t.cfg.maxReplace && c.remaining > EPSILON
                 && (c.queue.positionRatio > 1.25 || c.queue.volumeAhead > t.InitialAhead() * t.VolumeFactor()
                     || c.queue.fillProbability < t.MinProbability() || c.queue.competition != Normal)
                 && t.Elapsed(now) > 0.55 * MinR(c.queue.expectedFillTimeMs, t.FillTimeMs())
    ensures Decide(t, c, now).StepAhead? ==> c.queue.competition == Competitive
    ensures Decide(t, c, now).CrossSpread? ==>
              c.queue.competition == Normal && c.queue.fillProbability < 0.65 * t.MinProbability()
              && t.intent.edgeReliability > 0.62 && t.Elapsed(now) > 0.35 * t.HalfLifeMs()
  {
    hide ShouldExit, ShouldSwitch, ShouldCancel, ImprovedPrice, CrossPrice, EdgeGone;
    EdgeGoneMeans(t, c, now);
  }

  /** No decision is ever a switch to the defensive strategy: whatever calls for it makes the controller leave first. */
  lemma NeverDefensive(t: Terms, c: Controller, now: nat)
    ensures Decide(t, c, now) != SwitchStrategy(Defensive)
    ensures Turn(t, c, now).strategy == Defensive <==> c.strategy == Defensive
  {
    hide ShouldReplace, ShouldCancel, ShouldExit, ImprovedPrice, CrossPrice, EdgeGone;
    EdgeGoneMeans(t, c, now);
  }

  lemma ObservationsKeepStrategy(t: Terms, c: Controller, u: MarketUpdate, e: ExecutionEvent)
    ensures OnMarket(t, c, u).strategy == c.strategy && OnExecution(t, c, e).strategy == c.strategy
  {
    hide FillProbability, AfterBook, AfterTrade, Ewma, Pull, SpreadBps, Outbid, OrderQty;
  }

  /** Over every run of the loop an order is defensive exactly when it was taken on as defensive. */
  lemma {:induction false} DefensiveIffTakenOn(t: Terms, events: seq<Event>)
    ensures Run(t, events).c.strategy == Defensive <==> t.intent.strategy == Defensive
  {
    hide OnMarket, OnExecution, Turn;
    if events != [] {
      var m, e := Run(t, events[..|events|-1]), events[|events|-1];
      DefensiveIffTakenOn(t, events[..|events|-1]);
      var u := if e.Market? then e.update else Trade(0.0, 0);
      var event := if e.Execution? then e.event else ExecutionEvent(Ack, 0.0, 0.0, 0.0, 0.0, 0.0, NoFlag, 0);
      ObservationsKeepStrategy(t, m.c, u, event);
      NeverDefensive(t, OnMarket(t, m.c, u), u.timestamp);
      NeverDefensive(t, OnExecution(t, m.c, event), event.timestamp);
    }
  }

  // ----- what is filled -----

  /** The largest cumulative quantity reported together with a new fill; 0 before any. */
  function LargestReport(events: seq<Event>): real {
    if events == [] then 0.0
    else
      var past, e := LargestReport(events[..|events|-1]), events[|events|-1];
      if e.Execution? && e.event.filledQtyDelta > 0.0 then MaxR(e.event.cumulativeFilledQty, past) else past
  }

  /** The remaining quantity last reported together with a new fill; the order's size before any. */
  function LastRemaining(t: Terms, events: seq<Event>): real {
    if events == [] then t.intent.size
    else
      var past, e := LastRemaining(t, events[..|events|-1]), events[|events|-1];
      if e.Execution? && e.event.filledQtyDelta > 0.0 then MaxR(e.event.remainingQty, 0.0) else past
  }

  lemma ObservationsFill(t: Terms, c: Controller, u: MarketUpdate, e: ExecutionEvent, now: nat)
    ensures OnMarket(t, c, u).filled == c.filled && OnMarket(t, c, u).remaining == c.remaining
    ensures Turn(t, c, now).filled == c.filled && Turn(t, c, now).remaining == c.remaining
    ensures OnExecution(t, c, e).filled == if e.filledQtyDelta > 0.0 then MaxR(e.cumulativeFilledQty, c.filled)
                                           else c.filled
    ensures OnExecution(t, c, e).remaining == if e.filledQtyDelta > 0.0 then MaxR(e.remainingQty, 0.0) else c.remaining
  {
    hide FillProbability, AfterBook, AfterTrade, Ewma, Pull, SpreadBps, Outbid, OrderQty, Decide, CrossPrice;
  }

  /**
   While the loop holds the order, its filled quantity is the largest cumulative quantity any fill reported, whatever
   order the reports came in, and its remaining quantity is the last one reported.
   */
  lemma {:induction false} FilledIsLargest(t: Terms, events: seq<Event>)
    requires Run(t, events).live
    ensures Run(t, events).c.filled == LargestReport(events)
    ensures Run(t, events).c.remaining == LastRemaining(t, events)
  {
    hide OnMarket, OnExecution, Turn;
    if events != [] {
      var m, e := Run(t, events[..|events|-1]), events[|events|-1];
      FilledIsLargest(t, events[..|events|-1]);
      var u := if e.Market? then e.update else Trade(0.0, 0);
      var event := if e.Execution? then e.event else ExecutionEvent(Ack, 0.0, 0.0, 0.0, 0.0, 0.0, NoFlag, 0);
      ObservationsFill(t, m.c, u, event, 0);
      ObservationsFill(t, OnMarket(t, m.c, u), u, event, u.timestamp);
      ObservationsFill(t, OnExecution(t, m.c, event), u, event, event.timestamp);
    }
  }

  // ----- what an order event changes -----

  /** The figure moves by this share of the way to the sample, and takes it whole from zero. */
  predicate Averages(before: real, after: real, sample: real, share: real) {
    if before == 0.0 then after == sample else after - before == Times(share, sample - before)
  }

  /**
   An order event sets status and slippage; its flag sets the contest and the adverse figure, which otherwise decays
   by 8%; the markout degradation moves 16% of the way to the event's own, which lies between 0 and 1.
   */
  lemma EventMoves(t: Terms, c: Controller, e: ExecutionEvent)
    requires c.adverse >= 0.0
    ensures var d := OnExecution(t, c, e);
            && d.status == e.status && d.lastSlippageBps == e.slippageBps && d.strategy == c.strategy
            && (e.flag == NoFlag ==> d.queue.competition == c.queue.competition
                                     && d.adverse == 0.92 * c.adverse)
            && (e.flag != NoFlag ==> d.queue.competition != Normal && d.adverse >= 0.35)
            && (d.queue.competition == Saturated
                <==> e.flag in {RepeatedOutbid, PartialFillToxicity}
                     || (e.flag == NoFlag && c.queue.competition == Saturated))
            && exists own :: 0.0 <= own <= 1.0 && Averages(c.markoutDegradation, d.markoutDegradation, own, 0.16)
                             && (e.slippageBps <= 0.0 ==> own == MinR(d.adverse, 1.0))
  {
    hide FillProbability, OnFill;
    FillKeepsRest(t, c.(status := e.status, lastSlippageBps := e.slippageBps,
                        queue := c.queue.(competition := FlagState(e.flag, c.queue.competition)),
                        adverse := FlagAdverse(e.flag, c.adverse)), e);
    var own := Clamp(MaxR(e.slippageBps, 0.0) * 0.08 + FlagAdverse(e.flag, c.adverse), 0.0, 1.0);
    EwmaAverages(c.markoutDegradation, own, 0.16);
    assert Averages(c.markoutDegradation, OnExecution(t, c, e).markoutDegradation, own, 0.16);
  }

  /**
   Of all flags only the toxic partial fill brings the adverse figure over the bar at which a filled order is
   left.
   */
  lemma ToxicFlagExits(t: Terms, c: Controller, e: ExecutionEvent)
    requires e.flag != NoFlag
    ensures var d := OnExecution(t, c, e);
            && (d.adverse > 0.75 <==> e.flag == PartialFillToxicity)
            && (e.flag == PartialFillToxicity && d.filled > EPSILON ==> ShouldExit(d))
            && (e.flag == RepeatedOutbid ==> d.adverse > FlagAdverse(SlowFill, 0.0) > FlagAdverse(CancelLatency, 0.0))
  {
    hide FillProbability, Ewma;
  }

  lemma EwmaAverages(current: real, sample: real, share: real)
    ensures Averages(current, Ewma(current, sample, share), sample, share)
  {
  }

  lemma FillKeepsRest(t: Terms, c: Controller, e: ExecutionEvent)
    ensures var d := OnFill(t, c, e);
            && d.status == c.status && d.lastSlippageBps == c.lastSlippageBps && d.strategy == c.strategy
            && d.queue.competition == c.queue.competition && d.adverse == c.adverse
            && d.markoutDegradation == c.markoutDegradation
  {
    hide FillProbability, Ewma;
  }

  /**
   A fill moves the capture 12% of the way to its fill ratio less a half, and the execution alpha 15% of the way to
   minus its slippage and twice the adverse figure; the streak grows exactly while the capture is negative.
   */
  lemma FillMoves(t: Terms, c: Controller, e: ExecutionEvent)
    ensures var d := OnFill(t, c, e);
            && Averages(c.captureRatio, d.captureRatio, e.partialFillRatio - 0.5, 0.12)
            && Averages(c.alphaMean, d.alphaMean, -MaxR(e.slippageBps, 0.0) - 2.0 * c.adverse, 0.15)
            && (d.captureRatio < 0.0 && c.streak < U64_MAX ==> d.streak == c.streak + 1)
            && (d.captureRatio >= 0.0 ==> d.streak == if c.streak == 0 then 0 else c.streak - 1)
  {
    hide FillProbability, Ewma;
    EwmaAverages(c.captureRatio, e.partialFillRatio - 0.5, 0.12);
    EwmaAverages(c.alphaMean, -MaxR(e.slippageBps, 0.0) - c.adverse * 2.0, 0.15);
  }
}

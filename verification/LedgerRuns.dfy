/**
 Laws of the account over every run of fills and marks, any number of symbols: conservation,
 the size of what the cut-off loses, net quantity, mark-to-market, and FIFO against LIFO.
 */
module LedgerRuns {
  import opened Numeric
  import opened Domain
  import opened Ledger
  import opened LedgerConservation

  // ----- totals over symbols -----

  ghost function TotalAmount(open: map<string, seq<Lot>>): Amount
    decreases |open|
  {
    if open == map[] then ZERO
    else
      var k :| k in open;
      LotsAmount(open[k]).Plus(TotalAmount(open - {k}))
  }

  lemma PlusSwap(a: Amount, b: Amount, c: Amount)
    ensures a.Plus(b.Plus(c)) == b.Plus(a.Plus(c))
  {
  }

  lemma {:induction false} TotalPick(open: map<string, seq<Lot>>, k: string)
    requires k in open
    ensures TotalAmount(open) == LotsAmount(open[k]).Plus(TotalAmount(open - {k}))
    decreases |open|
  {
    hide LotsAmount;
    var p :| p in open && TotalAmount(open) == LotsAmount(open[p]).Plus(TotalAmount(open - {p}));
    if p != k {
      TotalPick(open - {p}, k);
      TotalPick(open - {k}, p);
      assert open - {p} - {k} == open - {k} - {p};
      assert (open - {p})[k] == open[k] && (open - {k})[p] == open[p];
      PlusSwap(LotsAmount(open[p]), LotsAmount(open[k]), TotalAmount(open - {p} - {k}));
    }
  }

  lemma NoLots()
    ensures LotsAmount([]) == ZERO
  {
  }

  lemma TotalUpdate(open: map<string, seq<Lot>>, k: string, lots: seq<Lot>)
    ensures TotalAmount(open[k := lots]).Plus(LotsAmount(LotsOf(open, k))) == TotalAmount(open).Plus(LotsAmount(lots))
  {
    hide LotsAmount, TotalAmount;
    TotalPick(open[k := lots], k);
    assert open[k := lots] - {k} == open - {k};
    if k in open {
      TotalPick(open, k);
    } else {
      assert open - {k} == open;
      NoLots();
    }
  }

  // ----- conservation over runs -----

  /** Realized entries plus everything still open. */
  ghost function Wealth(a: Account): Amount {
    EntriesAmount(a.realizedEntries).Plus(TotalAmount(a.open))
  }

  ghost predicate AccountAbove(a: Account, eps: real) {
    forall k :: k in a.open ==> LotsAbove(a.open[k], eps)
  }

  lemma ApplyKeepsAbove(a: Account, f: Fill, how: Matching, eps: real)
    requires 0.0 <= eps && AccountAbove(a, eps)
    ensures AccountAbove(ApplyFill(a, f, how, eps), eps)
    ensures LotsAbove(LotsOf(a.open, f.symbol), eps)
  {
    hide FillLots;
    FillKeepsAbove(LotsOf(a.open, f.symbol), f, how, eps);
  }

  lemma {:induction false} RunAbove(events: seq<Event>, how: Matching, eps: real)
    requires 0.0 <= eps
    ensures AccountAbove(Run(events, how, eps), eps)
  {
    hide ApplyFill, AccountAbove;
    if events == [] {
      EmptyAbove(eps);
    } else {
      var before := Run(events[..|events|-1], how, eps);
      RunAbove(events[..|events|-1], how, eps);
      match events[|events|-1]
      case Traded(f) => ApplyKeepsAbove(before, f, how, eps);
      case Marked(symbol, price) => MarkKeepsAbove(before, symbol, price, eps);
    }
  }

  lemma EmptyAbove(eps: real)
    ensures AccountAbove(EMPTY, eps)
  {
  }

  lemma MarkKeepsAbove(a: Account, symbol: string, price: real, eps: real)
    requires AccountAbove(a, eps)
    ensures AccountAbove(MarkToMarket(a, symbol, price), eps)
  {
  }

  ghost function EventLoss(a: Account, e: Event, how: Matching, eps: real): Amount
    requires 0.0 <= eps && AccountAbove(a, eps)
  {
    match e
    case Traded(f) => ApplyKeepsAbove(a, f, how, eps); FillLoss(LotsOf(a.open, f.symbol), f, how, eps)
    case Marked(_, _) => ZERO
  }

  /** Everything the run's cut-offs and clamps dropped. */
  ghost function RunLoss(events: seq<Event>, how: Matching, eps: real): Amount
    requires 0.0 <= eps
  {
    if events == [] then ZERO
    else
      var past := events[..|events|-1];
      RunAbove(past, how, eps);
      RunLoss(past, how, eps).Plus(EventLoss(Run(past, how, eps), events[|events|-1], how, eps))
  }

  function EventFlow(e: Event): Amount {
    match e
    case Traded(f) => FillAmount(f)
    case Marked(_, _) => ZERO
  }

  /** What the fills brought, a function of the fills alone. */
  function Flow(events: seq<Event>): Amount {
    if events == [] then ZERO else Flow(events[..|events|-1]).Plus(EventFlow(events[|events|-1]))
  }

  lemma ApplyConserves(a: Account, f: Fill, how: Matching, eps: real)
    requires 0.0 <= eps && AccountAbove(a, eps)
    ensures Wealth(ApplyFill(a, f, how, eps)).Plus(EventLoss(a, Traded(f), how, eps)) == Wealth(a).Plus(FillAmount(f))
  {
    hide LotsAmount, EntriesAmount, FillAmount, FillLots, FillLoss, TotalAmount, LotsOf, AccountAbove, LotsAbove;
    ApplyKeepsAbove(a, f, how, eps);
    var lots := LotsOf(a.open, f.symbol);
    var r := FillLots(lots, f, how, eps);
    FillConserves(lots, f, how, eps);
    TotalUpdate(a.open, f.symbol, r.lots);
    EntriesAmountAppend(a.realizedEntries, r.entries);
  }

  lemma MarkConserves(a: Account, symbol: string, price: real, how: Matching, eps: real)
    requires 0.0 <= eps && AccountAbove(a, eps)
    ensures Wealth(MarkToMarket(a, symbol, price)).Plus(EventLoss(a, Marked(symbol, price), how, eps))
            == Wealth(a).Plus(EventFlow(Marked(symbol, price)))
  {
  }

  lemma PlusStep(w: Amount, l: Amount, f: Amount, w': Amount, l': Amount, f': Amount)
    requires w.Plus(l) == f && w'.Plus(l') == w.Plus(f')
    ensures w'.Plus(l.Plus(l')) == f.Plus(f')
  {
  }

  lemma EmptyWealth()
    ensures Wealth(EMPTY).Plus(ZERO) == ZERO
  {
  }

  /** Conservation: realized entries, open lots and the tracked loss always add up to what the fills brought. */
  lemma {:induction false} RunConserves(events: seq<Event>, how: Matching, eps: real)
    requires 0.0 <= eps
    ensures Wealth(Run(events, how, eps)).Plus(RunLoss(events, how, eps)) == Flow(events)
  {
    hide ApplyFill, FillAmount, EventLoss, AccountAbove, MarkToMarket, Wealth, Amount.Plus;
    if events == [] {
      EmptyWealth();
    } else {
      var past := events[..|events|-1];
      RunConserves(past, how, eps);
      RunAbove(past, how, eps);
      match events[|events|-1] {
        case Traded(f) => ApplyConserves(Run(past, how, eps), f, how, eps);
        case Marked(symbol, price) => MarkConserves(Run(past, how, eps), symbol, price, how, eps);
      }
      PlusStep(Wealth(Run(past, how, eps)), RunLoss(past, how, eps), Flow(past), Wealth(Run(events, how, eps)),
               EventLoss(Run(past, how, eps), events[|events|-1], how, eps), EventFlow(events[|events|-1]));
    }
  }

  // ----- the running totals -----

  /** The account's own totals are those of its entries and of the fills. */
  lemma {:induction false} TotalsAgree(events: seq<Event>, how: Matching, eps: real)
    requires 0.0 <= eps
    ensures var a := Run(events, how, eps);
            && a.realizedTotal == SumPnl(a.realizedEntries) == EntriesAmount(a.realizedEntries).Net()
            && a.feeTotal - a.rebateTotal == Flow(events).fees
            && a.fundingTotal == Flow(events).funding
  {
    hide EntriesAmount, FillLots, Amount.Net;
    var a := Run(events, how, eps);
    if events != [] {
      var past := events[..|events|-1];
      TotalsAgree(past, how, eps);
      match events[|events|-1]
      case Traded(f) =>
        var before := Run(past, how, eps);
        EntriesAmountAppend(before.realizedEntries, FillLots(LotsOf(before.open, f.symbol), f, how, eps).entries);
      case Marked(_, _) =>
    }
    PnlIsNet(a.realizedEntries);
  }

  /**
   Realized PnL, less the open lots' signed cost, less their unrealized fees and funding, plus
   their rebates, is the fills' net cash less the tracked loss.
   */
  lemma CashLaw(events: seq<Event>, how: Matching, eps: real)
    requires 0.0 <= eps
    ensures var a := Run(events, how, eps);
            a.realizedTotal + TotalAmount(a.open).Net() + RunLoss(events, how, eps).Net() == Flow(events).Net()
  {
    hide RunLoss, TotalAmount, EntriesAmount, Flow, Run;
    RunConserves(events, how, eps);
    TotalsAgree(events, how, eps);
  }

  // ----- how much can be lost -----

  ghost predicate SoundRun(events: seq<Event>, bound: real) {
    forall k :: 0 <= k < |events| && events[k].Traded? ==> Sound(events[k].fill, bound)
  }

  ghost predicate AccountOk(a: Account, bound: real) {
    forall k :: k in a.open ==> LotsOk(a.open[k], bound)
  }

  function Fills(events: seq<Event>): nat {
    if events == [] then 0 else Fills(events[..|events|-1]) + if events[|events|-1].Traded? then 1 else 0
  }

  lemma UnitBound(f: Fill, eps: real, bound: real)
    requires 0.0 <= eps < f.quantity && Sound(f, bound)
    ensures AbsR(UnitAmount(f, RatesOf(f, eps)).Net()) <= bound
  {
    hide UnitAmount, RatesOf, FillAmount;
    var unit := UnitAmount(f, RatesOf(f, eps)).Net();
    WholeFillAmount(f, eps);
    assert FillAmount(f).Net() == f.quantity * unit;
    DivideBound(unit, f.quantity, bound);
  }

  lemma DivideBound(u: real, q: real, bound: real)
    requires q > 0.0 && AbsR(q * u) <= bound * q
    ensures AbsR(u) <= bound
  {
    if u > bound {
      assert q * u > q * bound;
    }
    if -u > bound {
      assert q * -u > q * bound;
    }
  }

  lemma NewLotOk(f: Fill, left: real, eps: real, bound: real)
    requires 0.0 <= eps < f.quantity && 0.0 < left && Sound(f, bound)
    ensures LotOk(NewLot(f, left, eps), bound)
  {
    hide UnitAmount, RatesOf, LotAmount, Amount.Net, NonNegative, AbsR;
    UnitBound(f, eps, bound);
    NewLotAmount(f, left, eps);
    ScaleBound(UnitAmount(f, RatesOf(f, eps)), left, bound, 1.0);
    NewLotNonNegative(f, left, eps);
    assert left * 1.0 == left;
  }

  lemma NewLotNonNegative(f: Fill, left: real, eps: real)
    requires 0.0 <= eps < f.quantity && 0.0 < left && f.fee >= 0.0 && f.rebate >= 0.0 && f.funding >= 0.0
    ensures NonNegative(NewLot(f, left, eps))
  {
  }

  /** A fill at or below the cut-off matches nothing and opens nothing, whatever it carries. */
  lemma FillKeepsOk(lots: seq<Lot>, f: Fill, how: Matching, eps: real, bound: real)
    requires 0.0 <= eps && LotsAbove(lots, eps) && LotsOk(lots, bound) && (f.quantity > eps ==> Sound(f, bound))
    ensures LotsOk(FillLots(lots, f, how, eps).lots, bound)
  {
    hide LotOk, NewLot, Sound, MatchFrom;
    var q := MaxR(f.quantity, 0.0);
    if q <= eps {
      IgnoredFill(lots, f, how, eps);
      return;
    }
    MatchKeepsOk(lots, f, q, 0, how, eps, bound);
    NothingToMatch(lots, f, q, how, eps);
    var m := MatchFrom(lots, f, q, 0, how, eps);
    if m.left > eps {
      NewLotOk(f, m.left, eps, bound);
    }
  }

  lemma IgnoredFill(lots: seq<Lot>, f: Fill, how: Matching, eps: real)
    requires 0.0 <= eps && f.quantity <= eps
    ensures FillLots(lots, f, how, eps) == Matched(lots, MaxR(f.quantity, 0.0), [])
  {
  }

  lemma FillLossBound(lots: seq<Lot>, f: Fill, how: Matching, eps: real, bound: real)
    requires 0.0 <= eps && 0.0 <= bound && LotsAbove(lots, eps) && LotsOk(lots, bound) && Sound(f, bound)
    ensures AbsR(FillLoss(lots, f, how, eps).Net()) <= eps * bound
  {
    hide FillAmount, Lost, LotsOk, LotsAbove, Amount.Net;
    if f.quantity <= eps {
      MulMono(bound, MaxR(f.quantity, 0.0), eps);
    } else {
      UnitBound(f, eps, bound);
      LostNet(lots, f, f.quantity, 0, how, eps, bound);
    }
  }

  lemma ApplyKeepsOk(a: Account, f: Fill, how: Matching, eps: real, bound: real)
    requires 0.0 <= eps && AccountAbove(a, eps) && AccountOk(a, bound) && (f.quantity > eps ==> Sound(f, bound))
    ensures AccountOk(ApplyFill(a, f, how, eps), bound) && LotsOk(LotsOf(a.open, f.symbol), bound)
  {
    hide FillLots, Sound, LotOk;
    ApplyKeepsAbove(a, f, how, eps);
    FillKeepsOk(LotsOf(a.open, f.symbol), f, how, eps, bound);
  }

  lemma SoundPast(events: seq<Event>, bound: real)
    requires SoundRun(events, bound) && events != []
    ensures SoundRun(events[..|events|-1], bound)
    ensures events[|events|-1].Traded? ==> Sound(events[|events|-1].fill, bound)
  {
    hide Sound;
  }

  /** Only the fills that match or open a lot need be sound. */
  ghost predicate SoundAbove(events: seq<Event>, eps: real, bound: real) {
    forall k :: 0 <= k < |events| && events[k].Traded? && events[k].fill.quantity > eps ==> Sound(events[k].fill, bound)
  }

  lemma SoundAbovePast(events: seq<Event>, eps: real, bound: real)
    requires SoundAbove(events, eps, bound) && events != []
    ensures SoundAbove(events[..|events|-1], eps, bound)
    ensures var e := events[|events|-1]; e.Traded? && e.fill.quantity > eps ==> Sound(e.fill, bound)
  {
    hide Sound;
  }

  lemma SoundIsSoundAbove(events: seq<Event>, eps: real, bound: real)
    requires SoundRun(events, bound)
    ensures SoundAbove(events, eps, bound)
  {
    hide Sound;
  }

  lemma {:induction false} RunOk(events: seq<Event>, how: Matching, eps: real, bound: real)
    requires 0.0 <= eps && SoundAbove(events, eps, bound)
    ensures AccountOk(Run(events, how, eps), bound)
  {
    hide ApplyFill, AccountAbove, LotsOk, Sound, SoundAbove;
    if events != [] {
      var past := events[..|events|-1];
      SoundAbovePast(events, eps, bound);
      RunOk(past, how, eps, bound);
      RunAbove(past, how, eps);
      match events[|events|-1] {
        case Traded(f) => ApplyKeepsOk(Run(past, how, eps), f, how, eps, bound);
        case Marked(_, _) =>
      }
    }
  }

  /** Over a run of fills with no negative amounts, the cut-off loses at most `eps` units' worth of cash per fill. */
  lemma {:induction false} RunLossBound(events: seq<Event>, how: Matching, eps: real, bound: real)
    requires 0.0 <= eps && 0.0 <= bound && SoundRun(events, bound)
    ensures AbsR(RunLoss(events, how, eps).Net()) <= Fills(events) as real * (eps * bound)
  {
    hide Run, AccountAbove, AccountOk, Sound, SoundRun, EventLoss, LotsOk, LotsAbove, LotsOf, Amount.Net, Amount.Plus,
         AbsR;
    if events == [] {
      Accumulate(0.0, 0.0, 0, eps * bound, false);
      ZeroNet();
    } else {
      var past := events[..|events|-1];
      SoundPast(events, bound);
      RunLossBound(past, how, eps, bound);
      RunAbove(past, how, eps);
      SoundIsSoundAbove(past, eps, bound);
      RunOk(past, how, eps, bound);
      EventLossBound(Run(past, how, eps), events[|events|-1], how, eps, bound);
      var loss, more := RunLoss(past, how, eps), EventLoss(Run(past, how, eps), events[|events|-1], how, eps);
      NetPlus(loss, more);
      Accumulate(loss.Net(), more.Net(), Fills(past), eps * bound, events[|events|-1].Traded?);
    }
  }

  lemma NetPlus(a: Amount, b: Amount)
    ensures a.Plus(b).Net() == a.Net() + b.Net()
  {
  }

  /** One more term of size at most `per` keeps a sum of n such terms within n + 1 of them. */
  lemma Accumulate(x: real, y: real, n: nat, per: real, one: bool)
    ensures AbsR(0.0) <= 0 as real * per
    ensures AbsR(x) <= n as real * per && AbsR(y) <= (if one then per else 0.0)
            ==> AbsR(x + y) <= (n + if one then 1 else 0) as real * per
  {
    var m := n as real;
    assert (n + 1) as real == m + 1.0;
    assert (m + 1.0) * per == m * per + per;
    if one {
      Triangle(x, y, m * per, per);
    } else {
      Triangle(x, y, m * per, 0.0);
    }
  }

  lemma Triangle(x: real, y: real, a: real, b: real)
    ensures AbsR(x) <= a && AbsR(y) <= b ==> AbsR(x + y) <= a + b
  {
  }

  lemma EventLossBound(a: Account, e: Event, how: Matching, eps: real, bound: real)
    requires 0.0 <= eps && 0.0 <= bound && AccountAbove(a, eps) && AccountOk(a, bound)
    requires e.Traded? ==> Sound(e.fill, bound)
    ensures AbsR(EventLoss(a, e, how, eps).Net()) <= if e.Traded? then eps * bound else 0.0
  {
    hide Sound, FillLoss, LotsAbove, Amount.Net, AccountAbove, AccountOk;
    if e.Traded? {
      ApplyKeepsAbove(a, e.fill, how, eps);
      ApplyKeepsOk(a, e.fill, how, eps, bound);
      FillLossBound(LotsOf(a.open, e.fill.symbol), e.fill, how, eps, bound);
    } else {
      assert EventLoss(a, e, how, eps) == ZERO;
      ZeroNet();
    }
  }

  /** What the fills at or below the cut-off carry: the same for every matching order. */
  function Ignored(events: seq<Event>, eps: real): Amount {
    if events == [] then ZERO
    else
      var e := events[|events|-1];
      Ignored(events[..|events|-1], eps).Plus(if e.Traded? && e.fill.quantity <= eps then FillAmount(e.fill) else ZERO)
  }

  /** Beyond what such fills carry, a run loses at most `eps` units' worth of cash per fill. */
  lemma {:induction false} LossBeyondIgnored(events: seq<Event>, how: Matching, eps: real, bound: real)
    requires 0.0 <= eps && 0.0 <= bound && SoundAbove(events, eps, bound)
    ensures AbsR(RunLoss(events, how, eps).Net() - Ignored(events, eps).Net()) <= Fills(events) as real * (eps * bound)
  {
    hide Run, AccountAbove, AccountOk, Sound, SoundAbove, EventLoss, LotsOk, LotsAbove, LotsOf, FillAmount,
         Amount.Net, Amount.Plus, AbsR;
    if events == [] {
      Accumulate(0.0, 0.0, 0, eps * bound, false);
      ZeroNet();
    } else {
      var past, e := events[..|events|-1], events[|events|-1];
      SoundAbovePast(events, eps, bound);
      LossBeyondIgnored(past, how, eps, bound);
      RunAbove(past, how, eps);
      RunOk(past, how, eps, bound);
      EventLossBeyond(Run(past, how, eps), e, how, eps, bound);
      var loss, more := RunLoss(past, how, eps), EventLoss(Run(past, how, eps), e, how, eps);
      var ignored := Ignored(past, eps);
      var skipped := if e.Traded? && e.fill.quantity <= eps then FillAmount(e.fill) else ZERO;
      NetPlus(loss, more);
      NetPlus(ignored, skipped);
      Accumulate(loss.Net() - ignored.Net(), more.Net() - skipped.Net(), Fills(past), eps * bound, e.Traded?);
    }
  }

  lemma EventLossBeyond(a: Account, e: Event, how: Matching, eps: real, bound: real)
    requires 0.0 <= eps && 0.0 <= bound && AccountAbove(a, eps) && AccountOk(a, bound)
    requires e.Traded? && e.fill.quantity > eps ==> Sound(e.fill, bound)
    ensures var skipped := if e.Traded? && e.fill.quantity <= eps then FillAmount(e.fill) else ZERO;
            AbsR(EventLoss(a, e, how, eps).Net() - skipped.Net()) <= if e.Traded? then eps * bound else 0.0
  {
    hide Sound, LotsAbove, Lost, FillAmount, Amount.Net, AccountAbove, AccountOk;
    ZeroNet();
    if e.Traded? && e.fill.quantity > eps {
      EventLossBound(a, e, how, eps, bound);
    } else if e.Traded? {
      ApplyKeepsAbove(a, e.fill, how, eps);
      MulMono(bound, eps, eps);
    }
  }

  lemma ZeroNet()
    ensures ZERO.Net() == 0.0
  {
  }

  // ----- net quantity -----

  function SymbolFlow(events: seq<Event>, symbol: string): real {
    if events == [] then 0.0
    else
      var e := events[|events|-1];
      SymbolFlow(events[..|events|-1], symbol) +
      if e.Traded? && e.fill.symbol == symbol then Sign(e.fill.side) * MaxR(e.fill.quantity, 0.0) else 0.0
  }

  function SymbolFills(events: seq<Event>, symbol: string): nat {
    if events == [] then 0
    else
      var e := events[|events|-1];
      SymbolFills(events[..|events|-1], symbol) + if e.Traded? && e.fill.symbol == symbol then 1 else 0
  }

  ghost function NetQuantity(a: Account, symbol: string): real {
    LotsAmount(LotsOf(a.open, symbol)).qty
  }

  lemma {:induction false} EntriesHoldNothing(entries: seq<RealizedEntry>)
    ensures EntriesAmount(entries).qty == 0.0
  {
    if entries != [] {
      EntriesHoldNothing(entries[..|entries|-1]);
    }
  }

  /** One fill changes the net quantity by its signed size, up to the cut-off. */
  lemma FillNetQuantity(lots: seq<Lot>, f: Fill, how: Matching, eps: real)
    requires 0.0 <= eps && LotsAbove(lots, eps)
    ensures AbsR(LotsAmount(FillLots(lots, f, how, eps).lots).qty
                 - LotsAmount(lots).qty - Sign(f.side) * MaxR(f.quantity, 0.0)) <= eps
  {
    hide Lost, FillLots, LotsAmount, EntriesAmount, LotsAbove;
    FillConserves(lots, f, how, eps);
    EntriesHoldNothing(FillLots(lots, f, how, eps).entries);
    assert FillAmount(f).qty == Sign(f.side) * MaxR(f.quantity, 0.0);
    if f.quantity > eps {
      LostQuantity(lots, f, f.quantity, 0, how, eps);
    }
  }

  /** After n fills of a symbol its net quantity is within n cut-offs of their signed sum, whatever the fees. */
  lemma {:induction false} NetQuantityTracks(events: seq<Event>, symbol: string, how: Matching, eps: real)
    requires 0.0 <= eps
    ensures AbsR(NetQuantity(Run(events, how, eps), symbol) - SymbolFlow(events, symbol))
            <= SymbolFills(events, symbol) as real * eps
  {
    hide NetQuantity, AbsR, AccountAbove, ApplyFill, MarkToMarket;
    if events == [] {
      EmptyNet(symbol);
      Accumulate(0.0, 0.0, 0, eps, false);
    } else {
      var past := events[..|events|-1];
      var e, before := events[|events|-1], Run(past, how, eps);
      NetQuantityTracks(past, symbol, how, eps);
      RunAbove(past, how, eps);
      var x := NetQuantity(before, symbol) - SymbolFlow(past, symbol);
      var y := NetQuantity(Run(events, how, eps), symbol) - SymbolFlow(events, symbol) - x;
      match e {
        case Traded(f) => ApplyNetQuantity(before, f, symbol, how, eps);
        case Marked(s, p) => MarkNetQuantity(before, s, p, symbol);
      }
      Accumulate(x, y, SymbolFills(past, symbol), eps, e.Traded? && e.fill.symbol == symbol);
    }
  }

  lemma EmptyNet(symbol: string)
    ensures NetQuantity(EMPTY, symbol) == 0.0
  {
  }

  lemma ApplyNetQuantity(a: Account, f: Fill, symbol: string, how: Matching, eps: real)
    requires 0.0 <= eps && AccountAbove(a, eps)
    ensures AbsR(NetQuantity(ApplyFill(a, f, how, eps), symbol) - NetQuantity(a, symbol)
                 - if f.symbol == symbol then Sign(f.side) * MaxR(f.quantity, 0.0) else 0.0)
            <= if f.symbol == symbol then eps else 0.0
  {
    hide FillLots, LotsAmount, AccountAbove, LotsAbove;
    ApplyKeepsAbove(a, f, how, eps);
    FillNetQuantity(LotsOf(a.open, f.symbol), f, how, eps);
  }

  lemma MarkNetQuantity(a: Account, s: string, price: real, symbol: string)
    ensures NetQuantity(MarkToMarket(a, s, price), symbol) == NetQuantity(a, symbol)
    ensures AbsR(0.0) == 0.0
  {
  }
}

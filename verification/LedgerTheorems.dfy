/** What the account's holder can rely on: one-sided books, mark-to-market totals, FIFO against LIFO. */
module LedgerTheorems {
  import opened Numeric
  import opened Domain
  import opened Ledger
  import opened LedgerConservation
  import opened LedgerRuns

  // ----- every symbol's lots are on one side -----

  ghost predicate OneSided(lots: seq<Lot>) {
    forall i, j :: 0 <= i < |lots| && 0 <= j < |lots| ==> lots[i].side == lots[j].side
  }

  function Gross(lots: seq<Lot>): real {
    if lots == [] then 0.0 else Gross(lots[..|lots|-1]) + lots[|lots|-1].remaining
  }

  /** A fill still unmatched after the loop met no lot of the other side. */
  lemma {:induction false} MatchKeepsSides(lots: seq<Lot>, f: Fill, left: real, index: nat, how: Matching, eps: real)
    requires 0.0 <= eps && OneSided(lots)
    ensures var r := MatchFrom(lots, f, left, index, how, eps);
            && OneSided(r.lots)
            && (r.left > eps ==> forall k :: 0 <= k < |r.lots| ==> r.lots[k].side == f.side)
    decreases Work(lots, left, eps)
  {
    hide MatchOne, Work, OneSided, AfterMatch, OppositeIndex;
    if left > eps && OppositeIndex(lots, f.side, how).Some? {
      var i := OppositeIndex(lots, f.side, how).value;
      var m := MatchOne(lots[i], f, left, index, eps);
      MatchKeepsSide(lots[i], f, left, index, eps);
      AfterMatchOneSided(lots, i, m.lot, eps);
      WorkDecreases(lots, i, f, left, index, eps);
      MatchKeepsSides(AfterMatch(lots, i, m.lot, eps), f, left - m.quantity, index + 1, how, eps);
    }
  }

  lemma AfterMatchOneSided(lots: seq<Lot>, i: nat, lot: Lot, eps: real)
    requires OneSided(lots) && i < |lots| && lot.side == lots[i].side
    ensures OneSided(AfterMatch(lots, i, lot, eps))
  {
  }

  lemma MatchKeepsSide(lot: Lot, f: Fill, left: real, index: nat, eps: real)
    requires 0.0 <= eps
    ensures MatchOne(lot, f, left, index, eps).lot.side == lot.side
  {
  }

  lemma FillKeepsOneSided(lots: seq<Lot>, f: Fill, how: Matching, eps: real)
    requires 0.0 <= eps && OneSided(lots)
    ensures OneSided(FillLots(lots, f, how, eps).lots)
  {
    hide MatchFrom;
    MatchKeepsSides(lots, f, MaxR(f.quantity, 0.0), 0, how, eps);
  }

  lemma {:induction false} RunOneSided(events: seq<Event>, how: Matching, eps: real)
    requires 0.0 <= eps
    ensures forall k :: k in Run(events, how, eps).open ==> OneSided(Run(events, how, eps).open[k])
  {
    hide FillLots, OneSided;
    if events != [] {
      var past := events[..|events|-1];
      RunOneSided(past, how, eps);
      match events[|events|-1] {
        case Traded(f) =>
          EmptyOneSided();
          FillKeepsOneSided(LotsOf(Run(past, how, eps).open, f.symbol), f, how, eps);
        case Marked(_, _) =>
      }
    }
  }

  lemma EmptyOneSided()
    ensures OneSided([])
  {
  }

  lemma {:induction false} NetIsGross(lots: seq<Lot>, side: Side)
    requires forall k :: 0 <= k < |lots| ==> lots[k].side == side && lots[k].remaining >= 0.0
    ensures LotsAmount(lots).qty == Sign(side) * Gross(lots) && Gross(lots) >= 0.0
  {
    if lots != [] {
      NetIsGross(lots[..|lots|-1], side);
    }
  }

  /**
   In every reachable account a symbol's lots are on one side with more than the cut-off left, so a
   search for an opposite lot stops at the first (FIFO) or last (LIFO) lot or finds none, and net
   quantity is gross quantity up to sign.
   */
  lemma ReachableBook(events: seq<Event>, symbol: string, side: Side, how: Matching, eps: real)
    requires 0.0 <= eps
    ensures var lots := LotsOf(Run(events, how, eps).open, symbol);
            && OneSided(lots) && LotsAbove(lots, eps)
            && OppositeIndex(lots, side, how)
               == (if lots == [] || lots[0].side == side then None
                   else if how == Fifo then Some(0) else Some(|lots| - 1))
            && AbsR(LotsAmount(lots).qty) == Gross(lots)
  {
    hide Run, LotsAmount;
    var lots := LotsOf(Run(events, how, eps).open, symbol);
    RunAbove(events, how, eps);
    RunOneSided(events, how, eps);
    if lots == [] {
      NoLots();
    } else {
      NetIsGross(lots, lots[0].side);
    }
  }

  // ----- mark to market -----

  lemma {:induction false} UnrealizedIsQuantityAndCost(lots: seq<Lot>, mark: real)
    ensures UnrealizedOf(lots, mark) == PositionValue(lots, mark) + LotsAmount(lots).cost
  {
    if lots != [] {
      var rest, last := lots[..|lots|-1], lots[|lots|-1];
      UnrealizedIsQuantityAndCost(rest, mark);
      OneUnrealized(last, mark);
      var a, b := LotsAmount(rest).qty, LotAmount(last).qty;
      assert (a + b) * mark == a * mark + b * mark;
    }
  }

  lemma OneUnrealized(lot: Lot, mark: real)
    ensures Unrealized(lot, mark) == LotAmount(lot).qty * mark + LotAmount(lot).cost
  {
    assert (mark - lot.entryPrice) * lot.remaining == mark * lot.remaining - lot.entryPrice * lot.remaining;
  }

  function PositionValue(lots: seq<Lot>, mark: real): real {
    LotsAmount(lots).qty * mark
  }

  /** Net quantity times mark, over the marked symbols. */
  ghost function MarkValue(open: map<string, seq<Lot>>, marks: map<string, real>): real
    decreases |marks|
  {
    if marks == map[] then 0.0
    else
      var k :| k in marks;
      PositionValue(LotsOf(open, k), marks[k]) + MarkValue(open, marks - {k})
  }

  lemma {:induction false} MarkValuePick(open: map<string, seq<Lot>>, marks: map<string, real>, k: string)
    requires k in marks
    ensures MarkValue(open, marks) == PositionValue(LotsOf(open, k), marks[k]) + MarkValue(open, marks - {k})
    decreases |marks|
  {
    hide PositionValue, LotsOf;
    var p :|
      p in marks
      && MarkValue(open, marks) == PositionValue(LotsOf(open, p), marks[p]) + MarkValue(open, marks - {p});
    if p != k {
      MarkValuePick(open, marks - {p}, k);
      MarkValuePick(open, marks - {k}, p);
      assert marks - {p} - {k} == marks - {k} - {p};
    }
  }

  lemma {:induction false} TotalUnrealizedPick(open: map<string, seq<Lot>>, marks: map<string, real>, k: string)
    requires k in marks
    ensures TotalUnrealized(open, marks) == UnrealizedOf(LotsOf(open, k), marks[k]) + TotalUnrealized(open, marks - {k})
    decreases |marks|
  {
    hide UnrealizedOf, LotsOf;
    var p :|
      p in marks
      && TotalUnrealized(open, marks) == UnrealizedOf(LotsOf(open, p), marks[p]) + TotalUnrealized(open, marks - {p});
    if p != k {
      TotalUnrealizedPick(open, marks - {p}, k);
      TotalUnrealizedPick(open, marks - {k}, p);
      assert marks - {p} - {k} == marks - {k} - {p};
    }
  }

  /** Every symbol with open lots has a mark. */
  ghost predicate Covered(open: map<string, seq<Lot>>, marks: map<string, real>) {
    forall k :: k in open && open[k] != [] ==> k in marks
  }

  lemma {:induction false} NoOpenLots(open: map<string, seq<Lot>>)
    requires forall k :: k in open ==> open[k] == []
    ensures TotalAmount(open) == ZERO
    decreases |open|
  {
    if open != map[] {
      var k :| k in open && TotalAmount(open) == LotsAmount(open[k]).Plus(TotalAmount(open - {k}));
      NoOpenLots(open - {k});
    }
  }

  lemma {:induction false} UnrealizedSplits(open: map<string, seq<Lot>>, marks: map<string, real>)
    requires Covered(open, marks)
    ensures TotalUnrealized(open, marks) == MarkValue(open, marks) + TotalAmount(open).cost
    decreases |marks|
  {
    hide UnrealizedOf, LotsAmount, PositionValue, TotalUnrealized, MarkValue, TotalAmount;
    if marks == map[] {
      NoOpenLots(open);
      NoMarks(open);
    } else {
      var k :| k in marks;
      var lots := LotsOf(open, k);
      TotalUnrealizedPick(open, marks, k);
      MarkValuePick(open, marks, k);
      UnrealizedIsQuantityAndCost(lots, marks[k]);
      UnrealizedSplits(open - {k}, marks - {k});
      ElsewhereUnrealized(open, marks - {k}, k);
      NoLots();
      if k in open {
        TotalPick(open, k);
      } else {
        assert open - {k} == open;
      }
    }
  }

  lemma NoMarks(open: map<string, seq<Lot>>)
    ensures TotalUnrealized(open, map[]) == MarkValue(open, map[]) == 0.0
  {
  }

  lemma {:induction false} ElsewhereUnrealized(open: map<string, seq<Lot>>, marks: map<string, real>, k: string)
    requires k !in marks
    ensures TotalUnrealized(open - {k}, marks) == TotalUnrealized(open, marks)
    ensures MarkValue(open - {k}, marks) == MarkValue(open, marks)
    decreases |marks|
  {
    hide UnrealizedOf, LotsAmount, PositionValue;
    if marks != map[] {
      var p :| p in marks;
      TotalUnrealizedPick(open, marks, p);
      TotalUnrealizedPick(open - {k}, marks, p);
      MarkValuePick(open, marks, p);
      MarkValuePick(open - {k}, marks, p);
      assert LotsOf(open - {k}, p) == LotsOf(open, p);
      ElsewhereUnrealized(open, marks - {p}, k);
    }
  }

  /**
   Right after a mark, with every open symbol marked: realized plus unrealized PnL is the fills' net
   cash plus the positions at their marks plus the fees and funding still on open lots, less the loss.
   */
  lemma MarkedTotal(events: seq<Event>, symbol: string, price: real, how: Matching, eps: real)
    requires 0.0 <= eps
    requires var a := Run(events + [Marked(symbol, price)], how, eps); Covered(a.open, a.marks)
    ensures var all := events + [Marked(symbol, price)];
            var a := Run(all, how, eps);
            a.realizedTotal + a.unrealized
            == Flow(all).Net() + MarkValue(a.open, a.marks)
               + TotalAmount(a.open).fees + TotalAmount(a.open).funding - RunLoss(all, how, eps).Net()
  {
    hide RunLoss, MarkValue, TotalAmount, Flow, TotalUnrealized;
    var all := events + [Marked(symbol, price)];
    var a := Run(all, how, eps);
    assert all[..|all|-1] == events;
    CashLaw(all, how, eps);
    UnrealizedSplits(a.open, a.marks);
  }

  /**
   A fill, unlike a mark, stores only its own symbol's unrealized PnL: that is the account's total
   exactly when the symbol has no mark yet or the other marked symbols add up to nothing.
   */
  lemma FillStoresTotalIff(a: Account, f: Fill, how: Matching, eps: real)
    requires 0.0 <= eps
    ensures var b := ApplyFill(a, f, how, eps);
            b.unrealized == TotalUnrealized(b.open, b.marks)
            <==> f.symbol !in a.marks || TotalUnrealized(a.open, a.marks - {f.symbol}) == 0.0
  {
    hide FillLots, UnrealizedOf;
    if f.symbol in a.marks {
      var b := ApplyFill(a, f, how, eps);
      TotalUnrealizedPick(b.open, b.marks, f.symbol);
      ElsewhereUnrealized(b.open, a.marks - {f.symbol}, f.symbol);
      ElsewhereUnrealized(a.open, a.marks - {f.symbol}, f.symbol);
      assert b.open - {f.symbol} == a.open - {f.symbol};
    }
  }

  // ----- FIFO against LIFO -----

  /**
   The same events under FIFO and LIFO, whatever they carry: net quantities differ by at most two cut-offs per
   fill.
   */
  lemma FifoLifoQuantity(events: seq<Event>, symbol: string, eps: real)
    requires 0.0 <= eps
    ensures AbsR(NetQuantity(Run(events, Fifo, eps), symbol) - NetQuantity(Run(events, Lifo, eps), symbol))
            <= 2.0 * (SymbolFills(events, symbol) as real * eps)
  {
    hide Run, NetQuantity, SymbolFlow, SymbolFills;
    NetQuantityTracks(events, symbol, Fifo, eps);
    NetQuantityTracks(events, symbol, Lifo, eps);
  }

  /**
   Net worth (realized PnL with open cost, fees and funding) differs at most by what the cut-offs lose,
   at every prefix.  Only fills above the cut-off need be sound: what the others carry is ignored alike.
   */
  lemma FifoLifoAgree(events: seq<Event>, eps: real, bound: real)
    requires 0.0 <= eps && 0.0 <= bound && SoundAbove(events, eps, bound)
    ensures var x, y := Run(events, Fifo, eps), Run(events, Lifo, eps);
            AbsR((x.realizedTotal + TotalAmount(x.open).Net()) - (y.realizedTotal + TotalAmount(y.open).Net()))
            <= 2.0 * (Fills(events) as real * (eps * bound))
  {
    hide Run, SoundAbove, TotalAmount, RunLoss, Amount.Net, Flow, Fills, Ignored;
    LossBeyondIgnored(events, Fifo, eps, bound);
    LossBeyondIgnored(events, Lifo, eps, bound);
    CashLaw(events, Fifo, eps);
    CashLaw(events, Lifo, eps);
  }

  /** Fills that trade something carry no negative amounts. */
  ghost predicate NoReceipts(events: seq<Event>) {
    forall k :: 0 <= k < |events| && events[k].Traded? && events[k].fill.quantity > 0.0 ==>
                  events[k].fill.fee >= 0.0 && events[k].fill.rebate >= 0.0 && events[k].fill.funding >= 0.0
  }

  /** Finitely many such fills have a common bound on their cash per unit. */
  lemma {:induction false} SomeBound(events: seq<Event>) returns (bound: real)
    requires NoReceipts(events)
    ensures bound >= 0.0 && SoundAbove(events, 0.0, bound)
  {
    hide FillAmount;
    if events == [] {
      bound := 0.0;
    } else {
      var past, e := events[..|events|-1], events[|events|-1];
      var before := SomeBound(past);
      bound := before;
      if e.Traded? && e.fill.quantity > 0.0 {
        var cash := AbsR(FillAmount(e.fill).Net());
        bound := MaxR(before, cash / e.fill.quantity);
        UnderBound(cash, e.fill.quantity, bound);
      }
      forall k | 0 <= k < |past| && past[k].Traded? && past[k].fill.quantity > 0.0 ensures Sound(past[k].fill, bound) {
        WiderBound(past[k].fill, before, bound);
      }
    }
  }

  lemma UnderBound(cash: real, quantity: real, bound: real)
    requires quantity > 0.0 && cash / quantity <= bound
    ensures cash <= bound * quantity
  {
    var per := cash / quantity;
    assert per * quantity == cash;
    ProductSign(bound - per, quantity);
  }

  lemma WiderBound(f: Fill, before: real, bound: real)
    requires Sound(f, before) && before <= bound
    ensures Sound(f, bound)
  {
    hide FillAmount;
    ProductSign(bound - before, MaxR(f.quantity, 0.0));
  }

  /** With no cut-off a symbol is flat under FIFO exactly when it is under LIFO. */
  lemma FlatTogether(events: seq<Event>, symbol: string)
    ensures LotsOf(Run(events, Fifo, 0.0).open, symbol) == [] <==> LotsOf(Run(events, Lifo, 0.0).open, symbol) == []
  {
    hide Run, Gross;
    FifoLifoQuantity(events, symbol, 0.0);
    FlatIff(events, symbol, Fifo);
    FlatIff(events, symbol, Lifo);
  }

  lemma FlatIff(events: seq<Event>, symbol: string, how: Matching)
    ensures LotsOf(Run(events, how, 0.0).open, symbol) == [] <==> NetQuantity(Run(events, how, 0.0), symbol) == 0.0
  {
    hide Run, LotsAmount;
    var lots := LotsOf(Run(events, how, 0.0).open, symbol);
    ReachableBook(events, symbol, Buy, how, 0.0);
    NoLots();
    if lots != [] {
      GrossPositive(lots);
    }
  }

  lemma {:induction false} GrossPositive(lots: seq<Lot>)
    requires LotsAbove(lots, 0.0) && lots != []
    ensures Gross(lots) > 0.0
  {
    if |lots| > 1 {
      GrossPositive(lots[..|lots|-1]);
    } else {
      assert Gross([]) == 0.0;
    }
  }

  /**
   With no cut-off and no receipts on fills that trade, FIFO and LIFO agree exactly at every prefix, and
   once every position is flat under one of them their realized totals are equal.
   */
  lemma FifoLifoFlat(events: seq<Event>, symbol: string)
    requires NoReceipts(events)
    ensures var x, y := Run(events, Fifo, 0.0), Run(events, Lifo, 0.0);
            && NetQuantity(x, symbol) == NetQuantity(y, symbol)
            && x.realizedTotal + TotalAmount(x.open).Net() == y.realizedTotal + TotalAmount(y.open).Net()
            && ((forall k :: k in x.open ==> x.open[k] == []) ==> x.realizedTotal == y.realizedTotal)
  {
    hide Run, NetQuantity, SoundAbove, NoReceipts, TotalAmount, Amount.Net;
    var x, y := Run(events, Fifo, 0.0), Run(events, Lifo, 0.0);
    FifoLifoQuantity(events, symbol, 0.0);
    var bound := SomeBound(events);
    FifoLifoAgree(events, 0.0, bound);
    ZeroNet();
    if forall k :: k in x.open ==> x.open[k] == [] {
      forall k | k in y.open ensures y.open[k] == [] {
        FlatTogether(events, k);
      }
      NoOpenLots(x.open);
      NoOpenLots(y.open);
    }
  }

  /** Whatever the fills carry, the two agree exactly when they lose the same. */
  lemma FifoLifoAgreeIff(events: seq<Event>, eps: real)
    requires 0.0 <= eps
    ensures var x, y := Run(events, Fifo, eps), Run(events, Lifo, eps);
            x.realizedTotal + TotalAmount(x.open).Net() == y.realizedTotal + TotalAmount(y.open).Net()
            <==> RunLoss(events, Fifo, eps).Net() == RunLoss(events, Lifo, eps).Net()
  {
    hide Run, TotalAmount, RunLoss, Amount.Net, Flow;
    CashLaw(events, Fifo, eps);
    CashLaw(events, Lifo, eps);
  }

  /**
   With funding received they may not, even on one symbol with no cut-off: of a lot of 2 that received 10 and a plain
   lot of 2, selling 1 halves the first under FIFO and the second under LIFO, and only FIFO loses 5.
   */
  lemma ReceiptsDisagree(plain: Lot, funded: Lot, f: Fill)
    requires plain == Lot(Buy, 100.0, 2.0, 2.0, 0.0, 0.0, 0.0, 0.0) && funded == plain.(funding := -10.0)
    requires f.side == Sell && f.price == 100.0 && f.quantity == 1.0 && f.fee == f.rebate == f.funding == 0.0
    ensures var x, y := FillLots([funded, plain], f, Fifo, 0.0), FillLots([funded, plain], f, Lifo, 0.0);
            && SumPnl(x.entries) + LotsAmount(x.lots).Net() == LotsAmount([funded, plain]).Net() - 5.0 + 100.0
            && SumPnl(y.entries) + LotsAmount(y.lots).Net() == LotsAmount([funded, plain]).Net() + 100.0
  {
    hide MatchOne, LotsAmount, LotAmount, FillLots, Amount.Net, SumPnl;
    HalfMatched(funded, f);
    HalfMatched(plain, f);
    FirstOfTwo(funded, plain, f);
    LastOfTwo(funded, plain, f);
    var a, b := MatchOne(funded, f, 1.0, 0, 0.0), MatchOne(plain, f, 1.0, 0, 0.0);
    TwoLots(funded, plain);
    TwoLots(a.lot, plain);
    TwoLots(funded, b.lot);
    OneEntry(a.entry);
    OneEntry(b.entry);
  }

  lemma OneEntry(e: RealizedEntry)
    ensures SumPnl([e]) == e.pnl
  {
    assert [e][..0] == [];
  }

  lemma HalfMatched(lot: Lot, f: Fill)
    requires lot.side == Buy && lot.entryPrice == 100.0 && lot.remaining == 2.0 && lot.fee == lot.rebate == 0.0
    requires lot.funding <= 0.0
    requires f.side == Sell && f.price == 100.0 && f.quantity == 1.0 && f.fee == f.rebate == f.funding == 0.0
    ensures var m := MatchOne(lot, f, 1.0, 0, 0.0);
            && m.quantity == 1.0 && m.lot.remaining == 1.0 && m.entry.pnl == -0.5 * lot.funding
            && LotAmount(m.lot).Net() == -100.0 && LotAmount(lot).Net() == -200.0 - lot.funding
  {
    assert MatchRatio(lot, 1.0) == 0.5;
    NoRates(f);
    KeepNothing(lot.funding);
    hide MatchRatio, RatesOf, Keep;
  }

  lemma NoRates(f: Fill)
    requires f.quantity == 1.0 && f.fee == f.rebate == f.funding == 0.0
    ensures RatesOf(f, 0.0) == Rates(0.0, 0.0, 0.0)
  {
  }

  lemma KeepNothing(funding: real)
    requires funding <= 0.0
    ensures Keep(funding, 0.5) == 0.0 && Keep(0.0, 0.5) == 0.0
  {
  }

  lemma FirstOfTwo(a: Lot, b: Lot, f: Fill)
    requires a.side != f.side && f.quantity == 1.0
    requires var m := MatchOne(a, f, 1.0, 0, 0.0); m.quantity == 1.0 && m.lot.remaining == 1.0
    ensures var m := MatchOne(a, f, 1.0, 0, 0.0); FillLots([a, b], f, Fifo, 0.0) == Matched([m.lot, b], 0.0, [m.entry])
  {
    hide MatchOne;
    var m := MatchOne(a, f, 1.0, 0, 0.0);
    assert OppositeIndex([a, b], f.side, Fifo) == Some(0);
    assert AfterMatch([a, b], 0, m.lot, 0.0) == [m.lot, b];
    assert MatchFrom([m.lot, b], f, 0.0, 1, Fifo, 0.0) == Matched([m.lot, b], 0.0, []);
    assert MatchFrom([a, b], f, 1.0, 0, Fifo, 0.0).entries == [m.entry];
  }

  lemma LastOfTwo(a: Lot, b: Lot, f: Fill)
    requires b.side != f.side && f.quantity == 1.0
    requires var m := MatchOne(b, f, 1.0, 0, 0.0); m.quantity == 1.0 && m.lot.remaining == 1.0
    ensures var m := MatchOne(b, f, 1.0, 0, 0.0); FillLots([a, b], f, Lifo, 0.0) == Matched([a, m.lot], 0.0, [m.entry])
  {
    hide MatchOne;
    var m := MatchOne(b, f, 1.0, 0, 0.0);
    assert OppositeIndex([a, b], f.side, Lifo) == Some(1);
    assert AfterMatch([a, b], 1, m.lot, 0.0) == [a, m.lot];
    assert MatchFrom([a, m.lot], f, 0.0, 1, Lifo, 0.0) == Matched([a, m.lot], 0.0, []);
    assert MatchFrom([a, b], f, 1.0, 0, Lifo, 0.0).entries == [m.entry];
  }

  lemma TwoLots(a: Lot, b: Lot)
    ensures LotsAmount([a, b]).Net() == LotAmount(a).Net() + LotAmount(b).Net()
  {
    assert [a, b] == [a] + [b];
    SumByAppend([a], [b], LotAmount);
    SumByOne(a, LotAmount);
    SumByOne(b, LotAmount);
  }

  /**
   A reachable account in which a fill forgets another symbol, for any two symbols: after buying one of a at 100
   and marking it at 110, buying one of b at its mark of 50 stores 0 where the total is 10.
   */
  lemma FillForgetsOtherSymbol(a: Fill, b: Fill, how: Matching)
    requires a.symbol != b.symbol && a.side == b.side == Buy && a.quantity == b.quantity == 1.0
    requires a.price == 100.0 && b.price == 50.0
    ensures var events := [Traded(a)] + [Marked(a.symbol, 110.0)] + [Marked(b.symbol, 50.0)] + [Traded(b)];
            var r := Run(events, how, CUTOFF);
            r.unrealized == 0.0 && TotalUnrealized(r.open, r.marks) == 10.0
  {
    hide Run, FillLots, UnrealizedOf, TotalUnrealized, ApplyFill;
    var e1 := [Traded(a)];
    var e2 := e1 + [Marked(a.symbol, 110.0)];
    var e3 := e2 + [Marked(b.symbol, 50.0)];
    RunSnoc(e3, Traded(b), how);
    ForgetsAt(Run(e3, how, CUTOFF), a, b, how) by {
      RunSnoc([], Traded(a), how);
      assert [] + [Traded(a)] == e1;
      FirstFill(a, how);
      RunSnoc(e1, Marked(a.symbol, 110.0), how);
      RunSnoc(e2, Marked(b.symbol, 50.0), how);
    }
  }

  lemma FirstFill(f: Fill, how: Matching)
    ensures var r := ApplyFill(EMPTY, f, how, CUTOFF);
            r.open == map[f.symbol := FillLots([], f, how, CUTOFF).lots] && r.marks == map[]
  {
    hide FillLots, UnrealizedOf, TotalUnrealized;
  }

  lemma ForgetsAt(r: Account, a: Fill, b: Fill, how: Matching)
    requires a.symbol != b.symbol && a.side == b.side == Buy && a.quantity == b.quantity == 1.0
    requires a.price == 100.0 && b.price == 50.0
    requires r.open == map[a.symbol := FillLots([], a, how, CUTOFF).lots]
    requires r.marks == map[a.symbol := 110.0, b.symbol := 50.0]
    ensures var t := ApplyFill(r, b, how, CUTOFF); t.unrealized == 0.0 && TotalUnrealized(t.open, t.marks) == 10.0
  {
    hide FillLots, UnrealizedOf, TotalUnrealized;
    var t := ApplyFill(r, b, how, CUTOFF);
    OpensOneLot(a, how, 110.0);
    OpensOneLot(b, how, 50.0);
    TotalUnrealizedPick(t.open, t.marks, a.symbol);
    TotalUnrealizedPick(t.open, t.marks - {a.symbol}, b.symbol);
    assert t.marks - {a.symbol} - {b.symbol} == map[];
    NoMarks(t.open);
  }

  lemma RunSnoc(events: seq<Event>, e: Event, how: Matching)
    ensures Run([], how, CUTOFF) == EMPTY
    ensures Run(events + [e], how, CUTOFF)
            == (if e.Traded? then ApplyFill(Run(events, how, CUTOFF), e.fill, how, CUTOFF)
                else MarkToMarket(Run(events, how, CUTOFF), e.symbol, e.price))
  {
    assert (events + [e])[..|events|] == events;
  }

  lemma OpensOneLot(f: Fill, how: Matching, mark: real)
    requires f.side == Buy && f.quantity == 1.0
    ensures UnrealizedOf(FillLots([], f, how, CUTOFF).lots, mark) == mark - f.price
  {
    hide NewLot, MatchOne;
    var lot := NewLot(f, 1.0, CUTOFF);
    assert [lot][..0] == [];
    NewLotFields(f);
  }

  lemma NewLotFields(f: Fill)
    ensures var lot := NewLot(f, 1.0, CUTOFF); lot.side == f.side && lot.entryPrice == f.price && lot.remaining == 1.0
  {
  }

  // ----- where the clamps bite -----

  /**
   The clamps keep cash exactly when the lot is matched whole or its negative amounts balance: a
   partly matched lot with funding received (a negative funding amount) loses the rest of it.
   */
  lemma ClampsKeepCashIff(lot: Lot, f: Fill, left: real, index: nat, eps: real)
    requires 0.0 <= eps < left && eps < lot.remaining && lot.side != f.side
    ensures var m := MatchOne(lot, f, left, index, eps);
            m.entry.pnl + LotAmount(m.lot).Net()
            == LotAmount(lot).Net() + UnitAmount(f, RatesOf(f, eps)).Scale(m.quantity).Net()
            <==> lot.remaining <= left || Negative(lot.rebate) == Negative(lot.fee) + Negative(lot.funding)
  {
    hide LotAmount, UnitAmount, RatesOf, Settle, MatchRatio, ClampLoss, Amount.Scale;
    var m := MatchOne(lot, f, left, index, eps);
    var ratio := MatchRatio(lot, left);
    SettleConserves(lot, f, RatesOf(f, eps), MinR(left, lot.remaining), ratio, index) by {
      MatchRatioFacts(lot, left);
      MinBound(left, lot.remaining);
    }
    SettleQuantity(lot, f, RatesOf(f, eps), MinR(left, lot.remaining), ratio, index);
    ClampNetZeroIff(lot, left);
  }

  lemma ClampNetZeroIff(lot: Lot, left: real)
    requires 0.0 < left && 0.0 < lot.remaining
    ensures ClampLoss(lot, MatchRatio(lot, left)).Net() == 0.0
            <==> lot.remaining <= left || Negative(lot.rebate) == Negative(lot.fee) + Negative(lot.funding)
  {
    hide MatchRatio, Negative, Amount.Scale;
    var whole := Amount(0.0, 0.0, Negative(lot.rebate) - Negative(lot.fee), -Negative(lot.funding));
    RatioOneIff(lot, left);
    ScaleNet(whole, 1.0 - MatchRatio(lot, left));
    ProductZero(1.0 - MatchRatio(lot, left), whole.Net());
  }

  lemma RatioOneIff(lot: Lot, left: real)
    requires 0.0 < left && 0.0 < lot.remaining
    ensures MatchRatio(lot, left) == 1.0 <==> lot.remaining <= left
  {
    hide MatchRatio;
    MatchRatioFacts(lot, left);
  }

  lemma ScaleNet(a: Amount, k: real)
    ensures a.Scale(k).Net() == k * a.Net()
  {
  }

  lemma ProductZero(a: real, b: real)
    ensures a * b == 0.0 <==> a == 0.0 || b == 0.0
  {
  }
}

/** The accounting engine as the program runs it: an object whose fields each call updates. */
module LedgerEngine {
  import opened Numeric
  import opened Domain
  import opened Ledger
  import opened LedgerConservation
  import opened LedgerTheorems

  datatype Exposure = Exposure(
    netQuantity: real, avgEntryPrice: real, openLots: nat, realizedPnl: real, unrealizedPnl: real)

  class AccountingEngine {
    const how: Matching
    var openPositions: map<string, seq<Lot>>
    var realizedTotal: real
    var unrealized: real
    var feeTotal: real
    var fundingTotal: real
    var rebateTotal: real
    var ledgerEntries: seq<Fill>
    var realizedEntries: seq<RealizedEntry>
    var markPrices: map<string, real>

    ghost function View(): Account
      reads this
    {
      Account(openPositions, realizedTotal, unrealized, feeTotal, fundingTotal, rebateTotal,
              ledgerEntries, realizedEntries, markPrices)
    }

    constructor (how: Matching)
      ensures View() == EMPTY && this.how == how
    {
      this.how := how;
      openPositions := map[];
      realizedTotal, unrealized, feeTotal, fundingTotal, rebateTotal := 0.0, 0.0, 0.0, 0.0, 0.0;
      ledgerEntries, realizedEntries, markPrices := [], [], map[];
    }

    /** The match loop, editing the symbol's lots and the realized total as it goes. */
    method ApplyFillInternal(entry: Fill) returns (realized: seq<RealizedEntry>)
      modifies this`openPositions, this`realizedTotal
      ensures var m := FillLots(LotsOf(old(openPositions), entry.symbol), entry, how, CUTOFF);
              && realized == m.entries
              && openPositions == old(openPositions)[entry.symbol := m.lots]
              && realizedTotal == old(realizedTotal) + SumPnl(m.entries)
    {
      hide MatchFrom, MatchOne, Work, SumPnl, OppositeIndex, NewLot;
      var lots := LotsOf(openPositions, entry.symbol);
      var qtyLeft := MaxR(entry.quantity, 0.0);
      ghost var lots0, left0, total0 := lots, qtyLeft, realizedTotal;
      realized := [];
      NoPnl();
      while qtyLeft > CUTOFF
        invariant var rest := MatchFrom(lots, entry, qtyLeft, |realized|, how, CUTOFF);
                  MatchFrom(lots0, entry, left0, 0, how, CUTOFF)
                  == Matched(rest.lots, rest.left, realized + rest.entries)
        invariant openPositions == old(openPositions) && realizedTotal == total0 + SumPnl(realized)
        decreases Work(lots, qtyLeft, CUTOFF)
      {
        ghost var rest := MatchFrom(lots, entry, qtyLeft, |realized|, how, CUTOFF);
        MatchStep(lots, entry, qtyLeft, |realized|);
        var found := OppositeIndex(lots, entry.side, how);
        if found.None? {
          break;
        }
        var index := found.value;
        var m := MatchOne(lots[index], entry, qtyLeft, |realized|, CUTOFF);
        WorkDecreases(lots, index, entry, qtyLeft, |realized|, CUTOFF);
        OneMoreEntry(realized, m.entry, rest.entries);
        realizedTotal := realizedTotal + m.entry.pnl;
        realized := realized + [m.entry];
        qtyLeft := qtyLeft - m.quantity;
        if m.lot.remaining <= CUTOFF {
          lots := lots[..index] + lots[index+1..];
        } else {
          lots := lots[index := m.lot];
        }
      }
      MatchStep(lots, entry, qtyLeft, |realized|);
      if qtyLeft > CUTOFF {
        lots := lots + [NewLot(entry, qtyLeft, CUTOFF)];
      }
      openPositions := openPositions[entry.symbol := lots];
    }

    /** One turn of the loop, as the specification has it. */
    lemma MatchStep(lots: seq<Lot>, f: Fill, left: real, index: nat)
      ensures var found, m := OppositeIndex(lots, f.side, how), MatchFrom(lots, f, left, index, how, CUTOFF);
              if left <= CUTOFF || found.None? then m == Matched(lots, left, [])
              else
                var one := MatchOne(lots[found.value], f, left, index, CUTOFF);
                var rest := MatchFrom(AfterMatch(lots, found.value, one.lot, CUTOFF), f, left - one.quantity, index + 1,
                                      how, CUTOFF);
                m == Matched(rest.lots, rest.left, [one.entry] + rest.entries)
    {
      hide MatchOne, OppositeIndex, AfterMatch;
    }

    lemma NoPnl()
      ensures SumPnl([]) == 0.0
    {
    }

    lemma OneMoreEntry(done: seq<RealizedEntry>, row: RealizedEntry, rest: seq<RealizedEntry>)
      ensures SumPnl(done + [row]) == SumPnl(done) + row.pnl
      ensures rest != [] && rest[0] == row ==> done + rest == done + [row] + rest[1..]
    {
      assert (done + [row])[..|done|] == done;
    }

    method ApplyFill(entry: Fill) returns (batch: seq<Fill>)
      modifies this
      ensures batch == [entry]
      ensures View() == Ledger.ApplyFill(old(View()), entry, how, CUTOFF)
    {
      hide FillLots, UnrealizedOf, TotalUnrealized, SumPnl;
      feeTotal := feeTotal + entry.fee;
      fundingTotal := fundingTotal + entry.funding;
      rebateTotal := rebateTotal + entry.rebate;
      ledgerEntries := ledgerEntries + [entry];
      var matched := ApplyFillInternal(entry);
      realizedEntries := realizedEntries + matched;
      if entry.symbol in markPrices {
        unrealized := UnrealizedOf(LotsOf(openPositions, entry.symbol), markPrices[entry.symbol]);
      } else {
        unrealized := DeriveUnrealizedTotal();
      }
      batch := [entry];
    }

    /** Walks the marks in whatever order the map gives them. */
    method DeriveUnrealizedTotal() returns (total: real)
      ensures total == TotalUnrealized(openPositions, markPrices)
    {
      total := 0.0;
      var todo := markPrices;
      while todo != map[]
        invariant total + TotalUnrealized(openPositions, todo) == TotalUnrealized(openPositions, markPrices)
        invariant forall k :: k in todo ==> k in markPrices && todo[k] == markPrices[k]
        decreases |todo|
      {
        var k :| k in todo;
        TotalUnrealizedPick(openPositions, todo, k);
        total := total + UnrealizedOf(LotsOf(openPositions, k), todo[k]);
        todo := todo - {k};
      }
    }

    method MarkToMarket(symbol: string, price: real) returns (total: real)
      modifies this`markPrices, this`unrealized
      ensures View() == Ledger.MarkToMarket(old(View()), symbol, price)
      ensures total == unrealized
    {
      markPrices := markPrices[symbol := price];
      unrealized := DeriveUnrealizedTotal();
      total := unrealized;
    }

    /** Exposure of one symbol: its net quantity, and an average price that recovers the open cost (0 when flat). */
    method PositionExposure(symbol: string) returns (e: Exposure)
      ensures var lots := LotsOf(openPositions, symbol);
              && e.netQuantity == LotsAmount(lots).qty
              && e.openLots == |lots|
              && (if Gross(lots) > 0.0 then e.avgEntryPrice * Gross(lots) == Notional(lots) else e.avgEntryPrice == 0.0)
              && (Gross(lots) > 0.0 && OneSided(lots) ==>
                    e.avgEntryPrice * Gross(lots) == OpenCost(lots))
              && e.unrealizedPnl == (if symbol in markPrices then UnrealizedOf(lots, markPrices[symbol]) else 0.0)
              && e.realizedPnl == if symbol in openPositions then realizedTotal else 0.0
    {
      if symbol !in openPositions {
        return Exposure(0.0, 0.0, 0, 0.0, 0.0);
      }
      hide LotsAmount, OpenCost, Gross, Notional, UnrealizedOf, Unrealized, OneSided, Sign, Times;
      var lots := openPositions[symbol];
      var signedQty, grossQty, grossNotional, total := 0.0, 0.0, 0.0, 0.0;
      ghost var mark := if symbol in markPrices then markPrices[symbol] else 0.0;
      EmptySums(mark);
      for i := 0 to |lots|
        invariant signedQty == LotsAmount(lots[..i]).qty
        invariant grossQty == Gross(lots[..i])
        invariant grossNotional == Notional(lots[..i])
        invariant total == if symbol in markPrices then UnrealizedOf(lots[..i], mark) else 0.0
      {
        OneMoreLot(lots, i, mark);
        signedQty := signedQty + if lots[i].side == Buy then lots[i].remaining else -lots[i].remaining;
        grossQty := grossQty + lots[i].remaining;
        grossNotional := grossNotional + Times(lots[i].entryPrice, lots[i].remaining);
        if symbol in markPrices {
          total := total + Unrealized(lots[i], markPrices[symbol]);
        }
      }
      assert lots[..|lots|] == lots;
      var average := if grossQty > 0.0 then grossNotional / grossQty else 0.0;
      AverageRecovers(lots, average);
      e := Exposure(signedQty, average, |lots|, realizedTotal, total);
    }
  }

  /** The average of the open lots times their quantity is their notional, which is their cost on a one-sided book. */
  lemma AverageRecovers(lots: seq<Lot>, average: real)
    requires average == if Gross(lots) > 0.0 then Notional(lots) / Gross(lots) else 0.0
    ensures if Gross(lots) > 0.0 then average * Gross(lots) == Notional(lots) else average == 0.0
    ensures Gross(lots) > 0.0 && OneSided(lots) ==> average * Gross(lots) == OpenCost(lots)
  {
    hide OpenCost, Notional, OneSided;
    if Gross(lots) > 0.0 {
      Undivide(Notional(lots), Gross(lots));
      assert lots != [];
      if OneSided(lots) {
        NotionalIsCost(lots);
      }
    }
  }

  function Notional(lots: seq<Lot>): real {
    if lots == [] then 0.0
    else Notional(lots[..|lots|-1]) + Times(lots[|lots|-1].entryPrice, lots[|lots|-1].remaining)
  }

  lemma EmptySums(mark: real)
    ensures LotsAmount([]).qty == Gross([]) == Notional([]) == UnrealizedOf([], mark) == 0.0
  {
  }

  lemma OneMoreLot(lots: seq<Lot>, i: nat, mark: real)
    requires i < |lots|
    ensures LotsAmount(lots[..i+1]).qty
            == LotsAmount(lots[..i]).qty + if lots[i].side == Buy then lots[i].remaining else -lots[i].remaining
    ensures Gross(lots[..i+1]) == Gross(lots[..i]) + lots[i].remaining
    ensures Notional(lots[..i+1]) == Notional(lots[..i]) + Times(lots[i].entryPrice, lots[i].remaining)
    ensures UnrealizedOf(lots[..i+1], mark) == UnrealizedOf(lots[..i], mark) + Unrealized(lots[i], mark)
  {
    hide Unrealized;
    assert lots[..i+1][..i] == lots[..i];
  }

  /** What a one-sided book cost to open: its signed cost, turned positive. */
  function OpenCost(lots: seq<Lot>): real {
    if lots == [] then 0.0 else -Sign(lots[0].side) * LotsAmount(lots).cost
  }

  lemma {:induction false} NotionalIsCost(lots: seq<Lot>)
    requires OneSided(lots) && lots != []
    ensures Notional(lots) == OpenCost(lots)
  {
    var rest, last := lots[..|lots|-1], lots[|lots|-1];
    assert last.side == lots[0].side;
    assert -Sign(last.side) * LotAmount(last).cost == last.entryPrice * last.remaining;
    if rest != [] {
      NotionalIsCost(rest);
    } else {
      assert LotsAmount(rest) == ZERO;
    }
    Distribute(-Sign(last.side), LotsAmount(rest).cost, -LotAmount(last).cost);
  }

  /**
   A lot that received 10 of funding, half closed at its own price: 5 of the funding is realized and
   the other 5 vanish in the clamp, so realized PnL plus what stays open falls 5 short.
   */
  lemma FundingReceivedIsLost()
    ensures var lot := Lot(Buy, 100.0, 2.0, 2.0, 0.0, 0.0, 0.0, -10.0);
            var f := Fill("o", "f", "s", Sell, 100.0, 1.0, 0.0, 0.0, 0.0, 0);
            var m := MatchOne(lot, f, 1.0, 0, CUTOFF);
            && m.entry.pnl == 5.0 && m.lot.funding == 0.0
            && m.entry.pnl + LotAmount(m.lot).Net() == LotAmount(lot).Net() + FillAmount(f).Net() - 5.0
  {
  }
}

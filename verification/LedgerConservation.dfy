/**
 What the match loop conserves.  Holdings, realized entries and fills are all measured by the
 same vector (quantity, cash from prices, fees net of rebates, funding); a fill only moves it
 from one place to another, except for what the cut-offs drop and the clamps lose.
 */
module LedgerConservation {
  import opened Numeric
  import opened Domain
  import opened Ledger

  datatype Amount = Amount(qty: real, cost: real, fees: real, funding: real) {
    function Plus(o: Amount): Amount {
      Amount(qty + o.qty, cost + o.cost, fees + o.fees, funding + o.funding)
    }

    function Scale(k: real): Amount {
      Amount(k * qty, k * cost, k * fees, k * funding)
    }

    /** Cash effect: what prices brought in, less fees and funding. */
    function Net(): real {
      cost - fees - funding
    }
  }

  const ZERO: Amount := Amount(0.0, 0.0, 0.0, 0.0)

  // ----- measures -----

  /** An open lot: quantity held, cash paid for it, fees and funding not yet realized. */
  function LotAmount(l: Lot): Amount {
    Amount(Sign(l.side) * l.remaining, -Sign(l.side) * l.entryPrice * l.remaining, l.fee - l.rebate, l.funding)
  }

  function SumBy(lots: seq<Lot>, g: Lot -> Amount): Amount {
    if lots == [] then ZERO else SumBy(lots[..|lots|-1], g).Plus(g(lots[|lots|-1]))
  }

  function LotsAmount(lots: seq<Lot>): Amount {
    SumBy(lots, LotAmount)
  }

  /** A realized entry holds no quantity; its gross is its pnl before fees and funding. */
  function EntryAmount(e: RealizedEntry): Amount {
    Amount(0.0, e.pnl + e.fees + e.funding, e.fees, e.funding)
  }

  function EntriesAmount(entries: seq<RealizedEntry>): Amount {
    if entries == [] then ZERO else EntriesAmount(entries[..|entries|-1]).Plus(EntryAmount(entries[|entries|-1]))
  }

  /** The whole fill. */
  function FillAmount(f: Fill): Amount {
    var q := MaxR(f.quantity, 0.0);
    Amount(Sign(f.side) * q, -Sign(f.side) * f.price * q, f.fee - f.rebate, f.funding)
  }

  /** One unit of the fill, at the given per-unit fee rates. */
  function UnitAmount(f: Fill, rates: Rates): Amount {
    Amount(Sign(f.side), -Sign(f.side) * f.price, rates.fee - rates.rebate, rates.funding)
  }

  // ----- what is lost -----

  function Negative(v: real): real {
    MaxR(-v, 0.0)
  }

  /** What the `.max(0.0)` clamps take out of a partly matched lot: nothing unless an amount is negative. */
  function ClampLoss(l: Lot, ratio: real): Amount {
    Amount(0.0, 0.0, Negative(l.rebate) - Negative(l.fee), -Negative(l.funding)).Scale(1.0 - ratio)
  }

  ghost predicate LotsAbove(lots: seq<Lot>, eps: real) {
    forall k :: 0 <= k < |lots| ==> lots[k].remaining > eps
  }

  /** Everything the loop drops: clamped amounts, lots at the cut-off, and an unmatched rest at the cut-off. */
  ghost function Lost(lots: seq<Lot>, f: Fill, left: real, index: nat, how: Matching, eps: real): Amount
    requires 0.0 <= eps && LotsAbove(lots, eps)
    decreases Work(lots, left, eps)
  {
    if left <= eps then UnitAmount(f, RatesOf(f, eps)).Scale(left)
    else
      match OppositeIndex(lots, f.side, how)
      case None => ZERO
      case Some(i) =>
        var m := MatchOne(lots[i], f, left, index, eps);
        StepLoss(lots[i], left, m.lot, eps).Plus(
          Lost(AfterMatch(lots, i, m.lot, eps), f, left - m.quantity, index + 1, how, eps))
  }

  ghost function FillLoss(lots: seq<Lot>, f: Fill, how: Matching, eps: real): Amount
    requires 0.0 <= eps && LotsAbove(lots, eps)
  {
    if f.quantity <= eps then FillAmount(f) else Lost(lots, f, f.quantity, 0, how, eps)
  }

  // ----- sums -----

  lemma {:induction false} SumByAppend(a: seq<Lot>, b: seq<Lot>, g: Lot -> Amount)
    ensures SumBy(a + b, g) == SumBy(a, g).Plus(SumBy(b, g))
  {
    if b == [] {
      assert a + b == a;
    } else {
      var n := |b| - 1;
      assert (a + b)[..|a| + n] == a + b[..n];
      SumByAppend(a, b[..n], g);
    }
  }

  lemma SumBySplit(a: seq<Lot>, lot: Lot, b: seq<Lot>, g: Lot -> Amount)
    ensures SumBy(a + [lot] + b, g) == SumBy(a + b, g).Plus(g(lot))
  {
    SumByAppend(a + [lot], b, g);
    SumByAppend(a, [lot], g);
    SumByAppend(a, b, g);
    assert [lot][..0] == [];
  }

  /** Editing or removing one lot moves the sum by exactly that lot's change. */
  lemma SumByAfterMatch(lots: seq<Lot>, i: nat, lot: Lot, eps: real, g: Lot -> Amount)
    requires i < |lots|
    ensures SumBy(lots, g) == SumBy(lots[..i] + lots[i+1..], g).Plus(g(lots[i]))
    ensures SumBy(AfterMatch(lots, i, lot, eps), g)
            == SumBy(lots[..i] + lots[i+1..], g).Plus(if lot.remaining <= eps then ZERO else g(lot))
  {
    var a, b := lots[..i], lots[i+1..];
    SplitAt(lots, i, lot);
    SumBySplit(a, lots[i], b, g);
    SumBySplit(a, lot, b, g);
  }

  lemma SplitAt<T>(s: seq<T>, i: nat, v: T)
    requires i < |s|
    ensures s == s[..i] + [s[i]] + s[i+1..]
    ensures s[i := v] == s[..i] + [v] + s[i+1..]
  {
  }

  lemma {:induction false} EntriesAmountAppend(a: seq<RealizedEntry>, b: seq<RealizedEntry>)
    ensures EntriesAmount(a + b) == EntriesAmount(a).Plus(EntriesAmount(b))
    ensures SumPnl(a + b) == SumPnl(a) + SumPnl(b)
  {
    if b == [] {
      assert a + b == a;
    } else {
      var n := |b| - 1;
      assert (a + b)[..|a| + n] == a + b[..n];
      EntriesAmountAppend(a, b[..n]);
    }
  }

  lemma EntriesAmountEmpty()
    ensures EntriesAmount([]) == ZERO
  {
  }

  lemma EntriesAmountCons(e: RealizedEntry, es: seq<RealizedEntry>)
    ensures EntriesAmount([e] + es) == EntryAmount(e).Plus(EntriesAmount(es))
  {
    EntriesAmountAppend([e], es);
    assert EntriesAmount([e]) == EntryAmount(e);
  }

  lemma {:induction false} PnlIsNet(entries: seq<RealizedEntry>)
    ensures SumPnl(entries) == EntriesAmount(entries).Net()
  {
    if entries != [] {
      PnlIsNet(entries[..|entries|-1]);
    }
  }

  // ----- one match -----

  lemma MatchRatioFacts(lot: Lot, left: real)
    requires 0.0 < left && 0.0 < lot.remaining
    ensures var r := MatchRatio(lot, left);
            0.0 <= r <= 1.0 && r * lot.remaining == MinR(left, lot.remaining) && (left >= lot.remaining ==> r == 1.0)
  {
    var matched := MinR(left, lot.remaining);
    assert matched / lot.remaining * lot.remaining == matched;
  }

  lemma ClampExact(a: real, ratio: real)
    requires 0.0 <= ratio <= 1.0
    ensures Keep(a, ratio) == a - a * ratio + (1.0 - ratio) * Negative(a)
  {
    assert a - a * ratio == a * (1.0 - ratio);
    if a < 0.0 {
      assert a * (1.0 - ratio) <= 0.0;
    } else {
      assert a * (1.0 - ratio) >= 0.0;
    }
  }

  lemma GrossConserves(lot: Lot, f: Fill, q: real)
    requires lot.side != f.side
    ensures RealizedGross(lot.side, lot.entryPrice, f.price, q) - Sign(lot.side) * lot.entryPrice * (lot.remaining - q)
            == -Sign(lot.side) * lot.entryPrice * lot.remaining + q * (-Sign(f.side) * f.price)
  {
    var e, r := lot.entryPrice, lot.remaining;
    assert e * (r - q) == e * r - e * q;
    assert (f.price - e) * q == f.price * q - e * q;
    assert (e - f.price) * q == e * q - f.price * q;
  }

  /** One kind of fee: the shares realized on entry and exit, and what stays on the lot. */
  lemma ShareConserves(amount: real, rate: real, ratio: real, q: real)
    requires 0.0 <= ratio <= 1.0
    ensures amount * ratio + rate * q + Keep(amount, ratio) == amount + rate * q + (1.0 - ratio) * Negative(amount)
  {
    ClampExact(amount, ratio);
  }

  /** Quantity, and cash from prices. */
  lemma SettleCash(lot: Lot, f: Fill, rates: Rates, q: real, ratio: real, index: nat)
    requires lot.side != f.side && q <= lot.remaining
    ensures var m := Settle(lot, f, rates, q, ratio, index);
            && LotAmount(m.lot).qty == LotAmount(lot).qty + UnitAmount(f, rates).Scale(q).qty
            && EntryAmount(m.entry).cost + LotAmount(m.lot).cost
               == LotAmount(lot).cost + UnitAmount(f, rates).Scale(q).cost
  {
    var m := Settle(lot, f, rates, q, ratio, index);
    assert EntryAmount(m.entry).cost == RealizedGross(lot.side, lot.entryPrice, f.price, q);
    GrossConserves(lot, f, q);
  }

  lemma Distribute(k: real, a: real, b: real)
    ensures k * (a - b) == k * a - k * b
  {
  }

  lemma SettleFees(lot: Lot, f: Fill, rates: Rates, q: real, ratio: real, index: nat)
    requires 0.0 <= ratio <= 1.0
    ensures var m := Settle(lot, f, rates, q, ratio, index);
            && m.entry.fees + LotAmount(m.lot).fees + ClampLoss(lot, ratio).fees
               == LotAmount(lot).fees + UnitAmount(f, rates).Scale(q).fees
  {
    hide Keep, Negative, RealizedGross, Sign;
    ShareConserves(lot.fee, rates.fee, ratio, q);
    ShareConserves(lot.rebate, rates.rebate, ratio, q);
    Distribute(1.0 - ratio, Negative(lot.rebate), Negative(lot.fee));
    Distribute(q, rates.fee, rates.rebate);
  }

  lemma SettleFunding(lot: Lot, f: Fill, rates: Rates, q: real, ratio: real, index: nat)
    requires 0.0 <= ratio <= 1.0
    ensures var m := Settle(lot, f, rates, q, ratio, index);
            && m.entry.funding + LotAmount(m.lot).funding + ClampLoss(lot, ratio).funding
               == LotAmount(lot).funding + UnitAmount(f, rates).Scale(q).funding
  {
    hide Keep, Negative, RealizedGross, Sign;
    ShareConserves(lot.funding, rates.funding, ratio, q);
  }

  /** The heart of the matter: one settlement neither creates nor destroys cash, fees or funding. */
  lemma SettleConserves(lot: Lot, f: Fill, rates: Rates, q: real, ratio: real, index: nat)
    requires lot.side != f.side && q <= lot.remaining && 0.0 <= ratio <= 1.0
    ensures var m := Settle(lot, f, rates, q, ratio, index);
            && EntryAmount(m.entry).Plus(LotAmount(m.lot)).Plus(ClampLoss(lot, ratio))
               == LotAmount(lot).Plus(UnitAmount(f, rates).Scale(q))
  {
    SettleCash(lot, f, rates, q, ratio, index);
    SettleFees(lot, f, rates, q, ratio, index);
    SettleFunding(lot, f, rates, q, ratio, index);
  }

  // ----- the match loop -----

  lemma ScaleSplit(a: Amount, x: real, y: real)
    ensures a.Scale(x + y) == a.Scale(x).Plus(a.Scale(y))
  {
  }

  lemma LotsAboveAfterMatch(lots: seq<Lot>, i: nat, lot: Lot, eps: real)
    requires i < |lots| && LotsAbove(lots, eps)
    ensures LotsAbove(AfterMatch(lots, i, lot, eps), eps)
  {
  }

  /** What one match drops: clamped amounts, and the matched lot if it falls to the cut-off. */
  function StepLoss(lot: Lot, left: real, after: Lot, eps: real): Amount {
    ClampLoss(lot, MatchRatio(lot, left)).Plus(if after.remaining <= eps then LotAmount(after) else ZERO)
  }

  lemma StepConserves(lots: seq<Lot>, i: nat, f: Fill, left: real, index: nat, eps: real)
    requires 0.0 <= eps < left && LotsAbove(lots, eps) && i < |lots| && lots[i].side != f.side
    ensures var m := MatchOne(lots[i], f, left, index, eps);
            && EntryAmount(m.entry).Plus(LotsAmount(AfterMatch(lots, i, m.lot, eps)))
                 .Plus(StepLoss(lots[i], left, m.lot, eps))
               == LotsAmount(lots).Plus(UnitAmount(f, RatesOf(f, eps)).Scale(m.quantity))
  {
    hide MatchRatio, RatesOf, LotAmount, UnitAmount, Amount.Scale, EntryAmount;
    var m := MatchOne(lots[i], f, left, index, eps);
    MatchRatioFacts(lots[i], left);
    SettleConserves(lots[i], f, RatesOf(f, eps), m.quantity, MatchRatio(lots[i], left), index);
    SumByAfterMatch(lots, i, m.lot, eps, LotAmount);
  }

  /** Adds one balanced step to a balanced rest. */
  lemma Chain(e: Amount, es: Amount, l0: Amount, l1: Amount, l2: Amount, loss: Amount, rest: Amount,
              uq: Amount, ul: Amount, tail: Amount)
    requires e.Plus(l1).Plus(loss) == l0.Plus(uq)
    requires es.Plus(l2).Plus(rest).Plus(tail) == l1.Plus(ul)
    ensures e.Plus(es).Plus(l2).Plus(loss.Plus(rest)).Plus(tail) == l0.Plus(uq.Plus(ul))
  {
  }

  /** What is left of the fill opens a lot. */
  ghost function Opened(f: Fill, left: real, eps: real): Amount
    requires 0.0 <= eps
  {
    if left > eps then UnitAmount(f, RatesOf(f, eps)).Scale(left) else ZERO
  }

  lemma WorkDecreases(lots: seq<Lot>, i: nat, f: Fill, left: real, index: nat, eps: real)
    requires 0.0 <= eps < left && i < |lots|
    ensures var m := MatchOne(lots[i], f, left, index, eps);
            Work(AfterMatch(lots, i, m.lot, eps), left - m.quantity, eps) < Work(lots, left, eps)
  {
  }

  lemma {:induction false} MatchKeepsAbove(lots: seq<Lot>, f: Fill, left: real, index: nat, how: Matching, eps: real)
    requires 0.0 <= eps && LotsAbove(lots, eps)
    ensures LotsAbove(MatchFrom(lots, f, left, index, how, eps).lots, eps)
    decreases Work(lots, left, eps)
  {
    hide OppositeIndex, MatchOne, AfterMatch, Work, LotsAbove;
    if left > eps && OppositeIndex(lots, f.side, how).Some? {
      var i := OppositeIndex(lots, f.side, how).value;
      var m := MatchOne(lots[i], f, left, index, eps);
      LotsAboveAfterMatch(lots, i, m.lot, eps);
      WorkDecreases(lots, i, f, left, index, eps);
      MatchKeepsAbove(AfterMatch(lots, i, m.lot, eps), f, left - m.quantity, index + 1, how, eps);
    }
  }

  lemma {:induction false} MatchConserves(lots: seq<Lot>, f: Fill, left: real, index: nat, how: Matching, eps: real)
    requires 0.0 <= eps && LotsAbove(lots, eps)
    ensures var r := MatchFrom(lots, f, left, index, how, eps);
            EntriesAmount(r.entries).Plus(LotsAmount(r.lots)).Plus(Lost(lots, f, left, index, how, eps))
            .Plus(Opened(f, r.left, eps))
            == LotsAmount(lots).Plus(UnitAmount(f, RatesOf(f, eps)).Scale(left))
    decreases Work(lots, left, eps)
  {
    hide LotAmount, UnitAmount, MatchOne, EntryAmount, Amount.Scale, StepLoss, AfterMatch, Work, SumBy, RatesOf,
         OppositeIndex, EntriesAmount, LotsAbove;
    if left <= eps || OppositeIndex(lots, f.side, how).None? {
      EntriesAmountEmpty();
      return;
    }
    var i := OppositeIndex(lots, f.side, how).value;
    var m := MatchOne(lots[i], f, left, index, eps);
    var rest := AfterMatch(lots, i, m.lot, eps);
    var r := MatchFrom(rest, f, left - m.quantity, index + 1, how, eps);
    var unit := UnitAmount(f, RatesOf(f, eps));
    LotsAboveAfterMatch(lots, i, m.lot, eps);
    WorkDecreases(lots, i, f, left, index, eps);
    StepConserves(lots, i, f, left, index, eps);
    MatchConserves(rest, f, left - m.quantity, index + 1, how, eps);
    Chain(EntryAmount(m.entry), EntriesAmount(r.entries), LotsAmount(lots), LotsAmount(rest), LotsAmount(r.lots),
          StepLoss(lots[i], left, m.lot, eps), Lost(rest, f, left - m.quantity, index + 1, how, eps),
          unit.Scale(m.quantity), unit.Scale(left - m.quantity), Opened(f, r.left, eps));
    ScaleSplit(unit, m.quantity, left - m.quantity);
    EntriesAmountCons(m.entry, r.entries);
  }

  // ----- one fill -----

  lemma NewLotAmount(f: Fill, left: real, eps: real)
    requires 0.0 <= eps
    ensures LotAmount(NewLot(f, left, eps)) == UnitAmount(f, RatesOf(f, eps)).Scale(left)
  {
    Distribute(left, RatesOf(f, eps).fee, RatesOf(f, eps).rebate);
  }

  lemma WholeFillAmount(f: Fill, eps: real)
    requires 0.0 <= eps < f.quantity
    ensures UnitAmount(f, RatesOf(f, eps)).Scale(f.quantity) == FillAmount(f)
  {
    var q := f.quantity;
    Distribute(q, f.fee / q, f.rebate / q);
  }

  lemma FillKeepsAbove(lots: seq<Lot>, f: Fill, how: Matching, eps: real)
    requires 0.0 <= eps && LotsAbove(lots, eps)
    ensures LotsAbove(FillLots(lots, f, how, eps).lots, eps)
  {
    MatchKeepsAbove(lots, f, MaxR(f.quantity, 0.0), 0, how, eps);
  }

  lemma NothingToMatch(lots: seq<Lot>, f: Fill, left: real, how: Matching, eps: real)
    requires 0.0 <= eps
    ensures left <= eps ==> MatchFrom(lots, f, left, 0, how, eps) == Matched(lots, left, [])
  {
  }

  /** A fill moves amounts between fill, lots and realized entries; only FillLoss goes missing. */
  lemma FillConserves(lots: seq<Lot>, f: Fill, how: Matching, eps: real)
    requires 0.0 <= eps && LotsAbove(lots, eps)
    ensures var r := FillLots(lots, f, how, eps);
            EntriesAmount(r.entries).Plus(LotsAmount(r.lots)).Plus(FillLoss(lots, f, how, eps))
            == LotsAmount(lots).Plus(FillAmount(f))
  {
    hide LotAmount, UnitAmount, EntryAmount, FillAmount, Amount.Scale, Lost, RatesOf, MatchFrom, OppositeIndex,
      EntriesAmount, SumBy, NewLot, LotsAbove, PerUnit;
    var q := MaxR(f.quantity, 0.0);
    var m := MatchFrom(lots, f, q, 0, how, eps);
    NothingToMatch(lots, f, q, how, eps);
    EntriesAmountEmpty();
    if f.quantity > eps {
      MatchConserves(lots, f, q, 0, how, eps);
      WholeFillAmount(f, eps);
      if m.left > eps {
        NewLotAmount(f, m.left, eps);
        SumByAppend(m.lots, [NewLot(f, m.left, eps)], LotAmount);
        SumByOne(NewLot(f, m.left, eps), LotAmount);
      }
    }
  }

  lemma SumByOne(lot: Lot, g: Lot -> Amount)
    ensures SumBy([lot], g) == g(lot)
  {
    assert [lot][..0] == [];
  }

  // ----- the size of the loss -----

  ghost predicate NonNegative(l: Lot) {
    l.fee >= 0.0 && l.rebate >= 0.0 && l.funding >= 0.0
  }

  /** The realized field is not measured. */
  lemma SettleReduces(lot: Lot, f: Fill, rates: Rates, q: real, ratio: real, index: nat)
    ensures var after := Settle(lot, f, rates, q, ratio, index).lot;
            && LotAmount(after) == LotAmount(Reduce(lot, q, ratio))
            && (NonNegative(after) <==> NonNegative(Reduce(lot, q, ratio)))
            && after.remaining == Reduce(lot, q, ratio).remaining
  {
    hide Reduce, RealizedGross;
  }

  /** With no negative amounts, a settlement takes the same share of everything on the lot. */
  lemma ReduceScales(lot: Lot, q: real, ratio: real)
    requires NonNegative(lot) && 0.0 <= ratio <= 1.0 && ratio * lot.remaining == q <= lot.remaining
    ensures NonNegative(Reduce(lot, q, ratio)) && LotAmount(Reduce(lot, q, ratio)) == LotAmount(lot).Scale(1.0 - ratio)
    ensures ClampLoss(lot, ratio) == ZERO
  {
    var k := 1.0 - ratio;
    ClampExact(lot.fee, ratio);
    ClampExact(lot.rebate, ratio);
    ClampExact(lot.funding, ratio);
    KeepScales(lot.fee, ratio);
    KeepScales(lot.rebate, ratio);
    KeepScales(lot.funding, ratio);
    assert lot.remaining - q == k * lot.remaining;
    Distribute(k, lot.fee, lot.rebate);
    Commute(Sign(lot.side) * lot.entryPrice, k, lot.remaining);
  }

  lemma KeepScales(a: real, ratio: real)
    requires 0.0 <= ratio <= 1.0 && 0.0 <= a
    ensures Keep(a, ratio) == (1.0 - ratio) * a >= 0.0
  {
    assert a - a * ratio == (1.0 - ratio) * a;
    ProductSign(1.0 - ratio, a);
  }

  lemma ReduceWhole(lot: Lot)
    requires 0.0 <= lot.remaining
    ensures LotAmount(Reduce(lot, lot.remaining, 1.0)) == ZERO && Reduce(lot, lot.remaining, 1.0).remaining == 0.0
    ensures ClampLoss(lot, 1.0) == ZERO
  {
  }

  lemma Commute(a: real, k: real, b: real)
    ensures -a * (k * b) == k * (-a * b)
    ensures a * (k * b) == k * (a * b)
  {
  }

  /** A match either empties the lot and loses nothing, or uses the fill up. */
  lemma StepEnds(lot: Lot, f: Fill, left: real, index: nat, eps: real)
    requires 0.0 <= eps < left && eps < lot.remaining
    ensures var m := MatchOne(lot, f, left, index, eps);
            if left < lot.remaining then m.quantity == left
            else StepLoss(lot, left, m.lot, eps) == ZERO && m.lot.remaining == 0.0 && m.quantity == lot.remaining
  {
    hide MatchRatio, RatesOf, Settle, Reduce, ClampLoss, LotAmount;
    SettleQuantity(lot, f, RatesOf(f, eps), MinR(left, lot.remaining), MatchRatio(lot, left), index);
    if left >= lot.remaining {
      MatchRatioFacts(lot, left);
      ReduceWhole(lot);
      SettleReduces(lot, f, RatesOf(f, eps), lot.remaining, 1.0, index);
    }
  }

  lemma SettleQuantity(lot: Lot, f: Fill, rates: Rates, q: real, ratio: real, index: nat)
    ensures Settle(lot, f, rates, q, ratio, index).quantity == q
  {
  }

  /** The rest of a used-up fill loses nothing more. */
  lemma LostAtZero(lots: seq<Lot>, f: Fill, index: nat, how: Matching, eps: real)
    requires 0.0 <= eps && LotsAbove(lots, eps)
    ensures Lost(lots, f, 0.0, index, how, eps) == ZERO
  {
    Commute(0.0, 0.0, 0.0);
  }

  /** Whatever the fees, one fill loses at most the cut-off in quantity. */
  lemma {:induction false} LostQuantity(lots: seq<Lot>, f: Fill, left: real, index: nat, how: Matching, eps: real)
    requires 0.0 <= eps && 0.0 <= left && LotsAbove(lots, eps)
    ensures AbsR(Lost(lots, f, left, index, how, eps).qty) <= eps
    decreases Work(lots, left, eps)
  {
    hide OppositeIndex, Settle, UnitAmount, RatesOf, AfterMatch, Work, LotsAbove, MatchRatio;
    if left <= eps {
      UnitQuantity(f, left, eps);
    } else if OppositeIndex(lots, f.side, how).Some? {
      var i := OppositeIndex(lots, f.side, how).value;
      var m := MatchOne(lots[i], f, left, index, eps);
      var rest := AfterMatch(lots, i, m.lot, eps);
      InstantiateAbove(lots, i, eps);
      LotsAboveAfterMatch(lots, i, m.lot, eps);
      StepEnds(lots[i], f, left, index, eps);
      WorkDecreases(lots, i, f, left, index, eps);
      if left < lots[i].remaining {
        LostAtZero(rest, f, index + 1, how, eps);
        StepQuantity(lots[i], f, left, index, eps);
      } else {
        LostQuantity(rest, f, left - m.quantity, index + 1, how, eps);
      }
    }
  }

  lemma InstantiateAbove(lots: seq<Lot>, i: nat, eps: real)
    requires LotsAbove(lots, eps) && i < |lots|
    ensures lots[i].remaining > eps
  {
  }

  lemma UnitQuantity(f: Fill, left: real, eps: real)
    requires 0.0 <= left <= eps
    ensures AbsR(UnitAmount(f, RatesOf(f, eps)).Scale(left).qty) <= eps
  {
  }

  lemma StepQuantity(lot: Lot, f: Fill, left: real, index: nat, eps: real)
    requires 0.0 <= eps < left < lot.remaining
    ensures AbsR(StepLoss(lot, left, MatchOne(lot, f, left, index, eps).lot, eps).qty) <= eps
  {
  }

  // ----- the cash value of the loss -----

  /** `bound` bounds the cash each unit of the lot stands for, its open fees included. */
  ghost predicate LotOk(l: Lot, bound: real) {
    NonNegative(l) && AbsR(LotAmount(l).Net()) <= bound * l.remaining
  }

  ghost predicate LotsOk(lots: seq<Lot>, bound: real) {
    forall k :: 0 <= k < |lots| ==> LotOk(lots[k], bound)
  }

  /** A fill with no negative amounts, whose cash per unit is at most `bound`. */
  ghost predicate Sound(f: Fill, bound: real) {
    f.fee >= 0.0 && f.rebate >= 0.0 && f.funding >= 0.0
    && AbsR(FillAmount(f).Net()) <= bound * MaxR(f.quantity, 0.0)
  }

  lemma ScaleBound(a: Amount, k: real, bound: real, size: real)
    requires 0.0 <= k && AbsR(a.Net()) <= bound * size
    ensures AbsR(a.Scale(k).Net()) <= bound * (k * size)
  {
    assert a.Scale(k).Net() == k * a.Net();
    assert k * AbsR(a.Net()) <= k * (bound * size);
  }

  lemma StepOk(lot: Lot, f: Fill, left: real, index: nat, eps: real, bound: real)
    requires 0.0 <= eps < left && eps < lot.remaining && LotOk(lot, bound)
    ensures LotOk(MatchOne(lot, f, left, index, eps).lot, bound)
    ensures ClampLoss(lot, MatchRatio(lot, left)) == ZERO
  {
    hide LotAmount, ClampLoss, Settle, MatchRatio, RatesOf, Amount.Scale, Amount.Net, Reduce, NonNegative, MinR, AbsR;
    var ratio := MatchRatio(lot, left);
    MatchRatioFacts(lot, left);
    MinBound(left, lot.remaining);
    ReduceScales(lot, MinR(left, lot.remaining), ratio);
    SettleReduces(lot, f, RatesOf(f, eps), MinR(left, lot.remaining), ratio, index);
    ScaleBound(LotAmount(lot), 1.0 - ratio, bound, lot.remaining);
    AfterRemaining(lot, f, left, index, eps);
  }

  lemma MinBound(a: real, b: real)
    ensures MinR(a, b) <= b
  {
  }

  lemma StepLossBound(lot: Lot, f: Fill, left: real, index: nat, eps: real, bound: real)
    requires 0.0 <= eps < left && eps < lot.remaining && LotOk(lot, bound) && 0.0 <= bound
    ensures AbsR(StepLoss(lot, left, MatchOne(lot, f, left, index, eps).lot, eps).Net()) <= eps * bound
  {
    hide LotAmount, ClampLoss, MatchOne, MatchRatio, NonNegative, Amount.Net, AbsR, Amount.Plus;
    StepOk(lot, f, left, index, eps, bound);
    var after := MatchOne(lot, f, left, index, eps).lot;
    MulMono(bound, after.remaining, eps);
    ZeroPlus(LotAmount(after));
    ZeroPlus(ZERO);
  }

  lemma ZeroPlus(a: Amount)
    ensures ZERO.Plus(a) == a && AbsR(ZERO.Net()) == 0.0
  {
  }

  lemma MulMono(bound: real, a: real, eps: real)
    requires 0.0 <= bound && 0.0 <= eps
    ensures 0.0 <= eps * bound
    ensures a <= eps ==> bound * a <= eps * bound
  {
  }

  lemma AfterRemaining(lot: Lot, f: Fill, left: real, index: nat, eps: real)
    requires 0.0 <= eps < left && eps < lot.remaining
    ensures MatchOne(lot, f, left, index, eps).lot.remaining == (1.0 - MatchRatio(lot, left)) * lot.remaining
  {
    hide MatchRatio, RatesOf;
    MatchRatioFacts(lot, left);
  }

  lemma LotsOkAfterMatch(lots: seq<Lot>, i: nat, lot: Lot, eps: real, bound: real)
    requires i < |lots| && LotsOk(lots, bound) && LotOk(lot, bound)
    ensures LotsOk(AfterMatch(lots, i, lot, eps), bound)
  {
    hide LotOk;
  }

  lemma InstantiateOk(lots: seq<Lot>, i: nat, bound: real)
    requires LotsOk(lots, bound) && i < |lots|
    ensures LotOk(lots[i], bound)
  {
  }

  lemma UnitNet(f: Fill, left: real, eps: real, bound: real)
    requires 0.0 <= left <= eps && 0.0 <= bound && AbsR(UnitAmount(f, RatesOf(f, eps)).Net()) <= bound
    ensures AbsR(UnitAmount(f, RatesOf(f, eps)).Scale(left).Net()) <= eps * bound
  {
    hide UnitAmount, RatesOf;
    ScaleBound(UnitAmount(f, RatesOf(f, eps)), left, bound, 1.0);
    assert bound * left <= bound * eps;
  }

  lemma {:induction false} MatchKeepsOk(lots: seq<Lot>, f: Fill, left: real, index: nat, how: Matching, eps: real,
                                        bound: real)
    requires 0.0 <= eps && LotsAbove(lots, eps) && LotsOk(lots, bound)
    ensures LotsOk(MatchFrom(lots, f, left, index, how, eps).lots, bound)
    decreases Work(lots, left, eps)
  {
    hide OppositeIndex, MatchOne, AfterMatch, Work, LotsAbove, LotsOk, LotOk;
    if left > eps && OppositeIndex(lots, f.side, how).Some? {
      var i := OppositeIndex(lots, f.side, how).value;
      var m := MatchOne(lots[i], f, left, index, eps);
      InstantiateAbove(lots, i, eps);
      InstantiateOk(lots, i, bound);
      LotsAboveAfterMatch(lots, i, m.lot, eps);
      StepOk(lots[i], f, left, index, eps, bound);
      LotsOkAfterMatch(lots, i, m.lot, eps, bound);
      WorkDecreases(lots, i, f, left, index, eps);
      MatchKeepsOk(AfterMatch(lots, i, m.lot, eps), f, left - m.quantity, index + 1, how, eps, bound);
    }
  }

  /** With no negative amounts, one fill loses at most the cash that `eps` units stand for. */
  lemma {:induction false} LostNet(lots: seq<Lot>, f: Fill, left: real, index: nat, how: Matching, eps: real,
                                   bound: real)
    requires 0.0 <= eps && 0.0 <= left && 0.0 <= bound && LotsAbove(lots, eps) && LotsOk(lots, bound)
    requires AbsR(UnitAmount(f, RatesOf(f, eps)).Net()) <= bound
    ensures AbsR(Lost(lots, f, left, index, how, eps).Net()) <= eps * bound
    decreases Work(lots, left, eps)
  {
    hide OppositeIndex, MatchOne, UnitAmount, RatesOf, AfterMatch, Work, LotsAbove, LotsOk, LotOk, StepLoss,
         Amount.Scale;
    assert 0.0 <= eps * bound;
    if left <= eps {
      UnitNet(f, left, eps, bound);
    } else if OppositeIndex(lots, f.side, how).Some? {
      var i := OppositeIndex(lots, f.side, how).value;
      var m := MatchOne(lots[i], f, left, index, eps);
      var rest := AfterMatch(lots, i, m.lot, eps);
      InstantiateAbove(lots, i, eps);
      InstantiateOk(lots, i, bound);
      LotsAboveAfterMatch(lots, i, m.lot, eps);
      StepEnds(lots[i], f, left, index, eps);
      if left < lots[i].remaining {
        LostAtZero(rest, f, index + 1, how, eps);
        StepLossBound(lots[i], f, left, index, eps, bound);
      } else {
        StepOk(lots[i], f, left, index, eps, bound);
        LotsOkAfterMatch(lots, i, m.lot, eps, bound);
        WorkDecreases(lots, i, f, left, index, eps);
        LostNet(rest, f, left - m.quantity, index + 1, how, eps, bound);
      }
    }
  }
}

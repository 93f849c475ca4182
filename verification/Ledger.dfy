/**
 Lot accounting: the pure effect of one fill on the open lots of one symbol, and on the
 account.  `eps` is the quantity below which the program drops a remainder; the running
 program uses CUTOFF.
 */
module Ledger {
  import opened Numeric
  import opened Domain

  const CUTOFF: real := 0.000000000001

  datatype Matching = Fifo | Lifo

  datatype Fill = Fill(
    orderId: string, fillId: string, symbol: string, side: Side,
    price: real, quantity: real, fee: real, rebate: real, funding: real, eventTime: nat)

  datatype Lot = Lot(
    side: Side, entryPrice: real, quantity: real, remaining: real, realized: real,
    fee: real, rebate: real, funding: real)

  datatype RealizedEntry = RealizedEntry(
    orderId: string, fillId: string, matchIndex: nat,
    pnl: real, fees: real, funding: real, timestamp: nat)

  function PerUnit(total: real, quantity: real, eps: real): real
    requires 0.0 <= eps
  {
    if quantity <= eps then 0.0 else total / quantity
  }

  function RealizedGross(side: Side, entry: real, exit: real, quantity: real): real {
    match side
    case Buy => (exit - entry) * quantity
    case Sell => (entry - exit) * quantity
  }

  function Unrealized(lot: Lot, mark: real): real {
    match lot.side
    case Buy => (mark - lot.entryPrice) * lot.remaining
    case Sell => (lot.entryPrice - mark) * lot.remaining
  }

  // ----- which lot a fill meets -----

  /** `iter().position(|lot| lot.side != side)`. */
  function FirstOpposite(lots: seq<Lot>, side: Side): (r: Option<nat>)
    ensures r.Some? ==> r.value < |lots| && lots[r.value].side != side
                        && forall k :: 0 <= k < r.value ==> lots[k].side == side
    ensures r.None? ==> forall k :: 0 <= k < |lots| ==> lots[k].side == side
  {
    if lots == [] then None
    else if lots[0].side != side then Some(0)
    else
      match FirstOpposite(lots[1..], side)
      case None => assert forall k :: 1 <= k < |lots| ==> lots[k] == lots[1..][k-1]; None
      case Some(i) => assert forall k :: 1 <= k < |lots| ==> lots[k] == lots[1..][k-1]; Some(i + 1)
  }

  /** `iter().rposition(|lot| lot.side != side)`. */
  function LastOpposite(lots: seq<Lot>, side: Side): (r: Option<nat>)
    ensures r.Some? ==> r.value < |lots| && lots[r.value].side != side
                        && forall k :: r.value < k < |lots| ==> lots[k].side == side
    ensures r.None? ==> forall k :: 0 <= k < |lots| ==> lots[k].side == side
  {
    if lots == [] then None
    else if lots[|lots|-1].side != side then Some(|lots|-1)
    else LastOpposite(lots[..|lots|-1], side)
  }

  function OppositeIndex(lots: seq<Lot>, side: Side, how: Matching): (r: Option<nat>)
    ensures r.Some? ==> r.value < |lots| && lots[r.value].side != side
    ensures r.None? ==> forall k :: 0 <= k < |lots| ==> lots[k].side == side
  {
    match how
    case Fifo => FirstOpposite(lots, side)
    case Lifo => LastOpposite(lots, side)
  }

  // ----- one match -----

  datatype Match = Match(lot: Lot, entry: RealizedEntry, quantity: real)

  /** Share of a lot that a fill of `left` takes. */
  function MatchRatio(lot: Lot, left: real): real {
    if lot.remaining > 0.0 then MinR(left, lot.remaining) / lot.remaining else 0.0
  }

  datatype Rates = Rates(fee: real, rebate: real, funding: real)

  function RatesOf(f: Fill, eps: real): Rates
    requires 0.0 <= eps
  {
    Rates(PerUnit(f.fee, f.quantity, eps), PerUnit(f.rebate, f.quantity, eps), PerUnit(f.funding, f.quantity, eps))
  }

  /** What stays of an amount once its share is realized; the clamp is the program's. */
  function Keep(amount: real, ratio: real): real {
    MaxR(amount - amount * ratio, 0.0)
  }

  function Reduce(lot: Lot, matched: real, ratio: real): Lot {
    lot.(
    remaining := MaxR(lot.remaining - matched, 0.0),
    fee := Keep(lot.fee, ratio), rebate := Keep(lot.rebate, ratio), funding := Keep(lot.funding, ratio))
  }

  function Settle(lot: Lot, f: Fill, rates: Rates, matched: real, ratio: real, index: nat): Match {
    var entryFee, entryRebate, entryFunding := lot.fee * ratio, lot.rebate * ratio, lot.funding * ratio;
    var exitFee, exitRebate, exitFunding := rates.fee * matched, rates.rebate * matched, rates.funding * matched;
    var gross := RealizedGross(lot.side, lot.entryPrice, f.price, matched);
    var net := gross - entryFee - exitFee + entryRebate + exitRebate - entryFunding - exitFunding;
    Match(
      Reduce(lot, matched, ratio).(realized := lot.realized + net),
      RealizedEntry(f.orderId, f.fillId, index, net,
                    entryFee + exitFee - entryRebate - exitRebate, entryFunding + exitFunding, f.eventTime),
      matched)
  }

  function MatchOne(lot: Lot, f: Fill, left: real, index: nat, eps: real): Match
    requires 0.0 <= eps
  {
    Settle(lot, f, RatesOf(f, eps), MinR(left, lot.remaining), MatchRatio(lot, left), index)
  }

  /** The lots after one match: the matched lot is edited in place, or removed at the cut-off. */
  function AfterMatch(lots: seq<Lot>, i: nat, lot: Lot, eps: real): seq<Lot>
    requires i < |lots|
  {
    if lot.remaining <= eps then lots[..i] + lots[i+1..] else lots[i := lot]
  }

  /** Either a lot disappears, or the fill is used up: the loop's variant. */
  function Work(lots: seq<Lot>, left: real, eps: real): nat {
    |lots| + if left > eps then 1 else 0
  }

  // ----- the whole match loop -----

  datatype Matched = Matched(lots: seq<Lot>, left: real, entries: seq<RealizedEntry>)

  function MatchFrom(lots: seq<Lot>, f: Fill, left: real, index: nat, how: Matching, eps: real): (r: Matched)
    requires 0.0 <= eps
    ensures |r.entries| + |r.lots| <= |lots| + 1
    ensures |r.entries| <= |lots|
    decreases Work(lots, left, eps)
  {
    if left <= eps then Matched(lots, left, [])
    else
      match OppositeIndex(lots, f.side, how)
      case None => Matched(lots, left, [])
      case Some(i) =>
        var m := MatchOne(lots[i], f, left, index, eps);
        var rest := MatchFrom(AfterMatch(lots, i, m.lot, eps), f, left - m.quantity, index + 1, how, eps);
        Matched(rest.lots, rest.left, [m.entry] + rest.entries)
  }

  function NewLot(f: Fill, left: real, eps: real): Lot
    requires 0.0 <= eps
  {
    var rates := RatesOf(f, eps);
    Lot(f.side, f.price, left, left, 0.0, rates.fee * left, rates.rebate * left, rates.funding * left)
  }

  /** `apply_fill_internal` on one symbol's lots. */
  function FillLots(lots: seq<Lot>, f: Fill, how: Matching, eps: real): Matched
    requires 0.0 <= eps
  {
    var m := MatchFrom(lots, f, MaxR(f.quantity, 0.0), 0, how, eps);
    if m.left > eps then m.(lots := m.lots + [NewLot(f, m.left, eps)]) else m
  }

  // ----- the account -----

  datatype Account = Account(
    open: map<string, seq<Lot>>, realizedTotal: real, unrealized: real,
    feeTotal: real, fundingTotal: real, rebateTotal: real,
    ledger: seq<Fill>, realizedEntries: seq<RealizedEntry>, marks: map<string, real>)

  const EMPTY: Account := Account(map[], 0.0, 0.0, 0.0, 0.0, 0.0, [], [], map[])

  function LotsOf(open: map<string, seq<Lot>>, symbol: string): seq<Lot> {
    if symbol in open then open[symbol] else []
  }

  function SumPnl(entries: seq<RealizedEntry>): real {
    if entries == [] then 0.0 else SumPnl(entries[..|entries|-1]) + entries[|entries|-1].pnl
  }

  function UnrealizedOf(lots: seq<Lot>, mark: real): real {
    if lots == [] then 0.0 else UnrealizedOf(lots[..|lots|-1], mark) + Unrealized(lots[|lots|-1], mark)
  }

  /** The sum over all marked symbols; the program walks a hash map, so no order is fixed. */
  ghost function TotalUnrealized(open: map<string, seq<Lot>>, marks: map<string, real>): real
    decreases |marks|
  {
    if marks == map[] then 0.0
    else
      var k :| k in marks;
      UnrealizedOf(LotsOf(open, k), marks[k]) + TotalUnrealized(open, marks - {k})
  }

  ghost function ApplyFill(a: Account, f: Fill, how: Matching, eps: real): Account
    requires 0.0 <= eps
  {
    var m := FillLots(LotsOf(a.open, f.symbol), f, how, eps);
    var open := a.open[f.symbol := m.lots];
    a.(open := open,
    realizedTotal := a.realizedTotal + SumPnl(m.entries),
    realizedEntries := a.realizedEntries + m.entries,
    feeTotal := a.feeTotal + f.fee,
    fundingTotal := a.fundingTotal + f.funding,
    rebateTotal := a.rebateTotal + f.rebate,
    ledger := a.ledger + [f],
    unrealized := if f.symbol in a.marks then UnrealizedOf(m.lots, a.marks[f.symbol])
                  else TotalUnrealized(open, a.marks))
  }

  ghost function MarkToMarket(a: Account, symbol: string, price: real): Account {
    var marks := a.marks[symbol := price];
    a.(marks := marks, unrealized := TotalUnrealized(a.open, marks))
  }

  datatype Event = Traded(fill: Fill) | Marked(symbol: string, price: real)

  ghost function Run(events: seq<Event>, how: Matching, eps: real): Account
    requires 0.0 <= eps
  {
    if events == [] then EMPTY
    else
      var before := Run(events[..|events|-1], how, eps);
      match events[|events|-1]
      case Traded(f) => ApplyFill(before, f, how, eps)
      case Marked(symbol, price) => MarkToMarket(before, symbol, price)
  }
}

/** What the account's records say: which fill each realized entry and each open lot comes from. */
module LedgerRecords {
  import opened Numeric
  import opened Ledger
  import opened LedgerConservation
  import opened LedgerRuns

  // ----- the ledger -----

  function FillsOf(events: seq<Event>): seq<Fill> {
    if events == [] then []
    else
      FillsOf(events[..|events|-1])
      + match events[|events|-1] case Traded(f) => [f] case Marked(_, _) => []
  }

  /** The ledger holds every fill of the run, whole and in order. */
  lemma {:induction false} LedgerIsFills(events: seq<Event>, how: Matching, eps: real)
    requires 0.0 <= eps
    ensures Run(events, how, eps).ledger == FillsOf(events)
  {
    hide FillLots;
    if events != [] {
      LedgerIsFills(events[..|events|-1], how, eps);
    }
  }

  // ----- realized entries -----

  /** The entry is match number `index` of the fill, at the fill's time. */
  predicate Labels(e: RealizedEntry, f: Fill, index: nat) {
    e.orderId == f.orderId && e.fillId == f.fillId && e.timestamp == f.eventTime && e.matchIndex == index
  }

  /** What a match realizes on its lot is what its entry records, and the lot stays the one that was opened. */
  lemma MatchRecords(lot: Lot, f: Fill, left: real, index: nat, eps: real)
    requires 0.0 <= eps
    ensures var m := MatchOne(lot, f, left, index, eps);
            && Labels(m.entry, f, index) && m.lot.realized == lot.realized + m.entry.pnl
            && m.lot.side == lot.side && m.lot.entryPrice == lot.entryPrice && m.lot.quantity == lot.quantity
  {
  }

  /** The entries are the fill's matches number `index`, `index` + 1 and so on. */
  predicate AllLabelled(entries: seq<RealizedEntry>, f: Fill, index: nat) {
    forall k :: 0 <= k < |entries| ==> Labels(entries[k], f, index + k)
  }

  lemma {:induction false} MatchLabels(lots: seq<Lot>, f: Fill, left: real, index: nat, how: Matching, eps: real)
    requires 0.0 <= eps
    ensures AllLabelled(MatchFrom(lots, f, left, index, how, eps).entries, f, index)
    decreases Work(lots, left, eps)
  {
    hide MatchOne, Work, AfterMatch, OppositeIndex, AllLabelled, Labels;
    if left > eps && OppositeIndex(lots, f.side, how).Some? {
      var i := OppositeIndex(lots, f.side, how).value;
      var m := MatchOne(lots[i], f, left, index, eps);
      MatchRecords(lots[i], f, left, index, eps);
      WorkDecreases(lots, i, f, left, index, eps);
      MatchLabels(AfterMatch(lots, i, m.lot, eps), f, left - m.quantity, index + 1, how, eps);
      LabelledCons(
        m.entry, MatchFrom(AfterMatch(lots, i, m.lot, eps), f, left - m.quantity, index + 1, how, eps).entries, f,
        index);
    } else {
      NoneLabelled(f, index);
    }
  }

  lemma LabelledCons(e: RealizedEntry, rest: seq<RealizedEntry>, f: Fill, index: nat)
    requires Labels(e, f, index) && AllLabelled(rest, f, index + 1)
    ensures AllLabelled([e] + rest, f, index)
  {
  }

  lemma NoneLabelled(f: Fill, index: nat)
    ensures AllLabelled([], f, index)
  {
  }

  /**
   `owner` says which fill each entry comes from: entries follow the fills' order, carry the label of their fill, and
   the entries of one fill are numbered from 0 without a gap.
   */
  ghost predicate Attributed(fills: seq<Fill>, entries: seq<RealizedEntry>, owner: seq<nat>) {
    && |owner| == |entries|
    && (forall i :: 0 <= i < |owner| ==>
          owner[i] < |fills| && Labels(entries[i], fills[owner[i]], entries[i].matchIndex))
    && (forall i, j :: 0 <= i < j < |owner| ==> owner[i] <= owner[j])
    && (forall i, j :: 0 <= i < j < |owner| && owner[i] == owner[j] ==>
          entries[j].matchIndex == entries[i].matchIndex + (j - i))
    && (forall j :: 0 <= j < |owner| ==> entries[j].matchIndex <= j && owner[j - entries[j].matchIndex] == owner[j])
  }

  lemma AttributedMore(fills: seq<Fill>, entries: seq<RealizedEntry>, owner: seq<nat>, f: Fill,
                       more: seq<RealizedEntry>) returns (next: seq<nat>)
    requires Attributed(fills, entries, owner) && AllLabelled(more, f, 0)
    ensures Attributed(fills + [f], entries + more, next)
  {
    next := owner + seq(|more|, i => |fills|);
  }

  lemma {:induction false} RunAttributed(events: seq<Event>, how: Matching, eps: real) returns (owner: seq<nat>)
    requires 0.0 <= eps
    ensures var a := Run(events, how, eps); Attributed(a.ledger, a.realizedEntries, owner)
  {
    hide MatchFrom, Attributed, AllLabelled;
    owner := [];
    if events == [] {
      NoneAttributed();
    } else {
      var past := events[..|events|-1];
      owner := RunAttributed(past, how, eps);
      match events[|events|-1] {
        case Traded(f) =>
          var a := Run(past, how, eps);
          var lots := LotsOf(a.open, f.symbol);
          MatchLabels(lots, f, MaxR(f.quantity, 0.0), 0, how, eps);
          var entries := FillLots(lots, f, how, eps).entries;
          owner := AttributedMore(a.ledger, a.realizedEntries, owner, f, entries);
        case Marked(_, _) =>
      }
    }
  }

  lemma NoneAttributed()
    ensures Attributed([], [], [])
  {
  }

  /** When no two fills share order and fill id, no two realized entries share order, fill id and match number. */
  lemma EntriesDistinct(events: seq<Event>, how: Matching, eps: real, i: nat, j: nat)
    requires 0.0 <= eps && i < j < |Run(events, how, eps).realizedEntries|
    requires var fills := FillsOf(events);
             forall p, q :: 0 <= p < q < |fills| ==>
               fills[p].orderId != fills[q].orderId || fills[p].fillId != fills[q].fillId
    ensures var e, e' := Run(events, how, eps).realizedEntries[i], Run(events, how, eps).realizedEntries[j];
            e.orderId != e'.orderId || e.fillId != e'.fillId || e.matchIndex != e'.matchIndex
  {
    hide Run, FillsOf;
    var owner := RunAttributed(events, how, eps);
    LedgerIsFills(events, how, eps);
    assert owner[i] <= owner[j];
  }

  // ----- open lots -----

  /** The lot is what is left of a lot the fill opened. */
  predicate OpenedBy(lot: Lot, f: Fill, symbol: string) {
    && f.symbol == symbol && f.side == lot.side && f.price == lot.entryPrice
    && lot.remaining <= lot.quantity <= f.quantity
  }

  ghost predicate OpenedByOne(lot: Lot, fills: seq<Fill>, symbol: string) {
    exists j :: 0 <= j < |fills| && OpenedBy(lot, fills[j], symbol)
  }

  ghost predicate AllOpened(lots: seq<Lot>, fills: seq<Fill>, symbol: string) {
    forall k :: 0 <= k < |lots| ==> OpenedByOne(lots[k], fills, symbol)
  }

  lemma MatchShrinks(lot: Lot, f: Fill, left: real, index: nat, eps: real, symbol: string, opener: Fill)
    requires 0.0 <= eps < left && lot.remaining > eps && OpenedBy(lot, opener, symbol)
    ensures OpenedBy(MatchOne(lot, f, left, index, eps).lot, opener, symbol)
    ensures MatchOne(lot, f, left, index, eps).quantity > 0.0
  {
  }

  lemma AfterMatchOpened(lots: seq<Lot>, i: nat, lot: Lot, eps: real, fills: seq<Fill>, symbol: string)
    requires i < |lots| && AllOpened(lots, fills, symbol)
    requires OpenedByOne(lot, fills, symbol)
    ensures AllOpened(AfterMatch(lots, i, lot, eps), fills, symbol)
  {
    hide OpenedByOne;
  }

  lemma {:induction false} MatchKeepsOpened(
    lots: seq<Lot>, f: Fill, left: real, index: nat, how: Matching, eps: real, fills: seq<Fill>, symbol: string)
    requires 0.0 <= eps && LotsAbove(lots, eps) && AllOpened(lots, fills, symbol)
    ensures var r := MatchFrom(lots, f, left, index, how, eps);
            AllOpened(r.lots, fills, symbol) && r.left <= left
    decreases Work(lots, left, eps)
  {
    hide MatchOne, Work, AfterMatch, OppositeIndex, OpenedBy;
    if left > eps && OppositeIndex(lots, f.side, how).Some? {
      var i := OppositeIndex(lots, f.side, how).value;
      var m := MatchOne(lots[i], f, left, index, eps);
      assert OpenedByOne(lots[i], fills, symbol);
      var j :| 0 <= j < |fills| && OpenedBy(lots[i], fills[j], symbol);
      InstantiateAbove(lots, i, eps);
      MatchShrinks(lots[i], f, left, index, eps, symbol, fills[j]);
      AfterMatchOpened(lots, i, m.lot, eps, fills, symbol);
      LotsAboveAfterMatch(lots, i, m.lot, eps);
      WorkDecreases(lots, i, f, left, index, eps);
      MatchKeepsOpened(AfterMatch(lots, i, m.lot, eps), f, left - m.quantity, index + 1, how, eps, fills, symbol);
    }
  }

  lemma MoreFills(lots: seq<Lot>, fills: seq<Fill>, f: Fill, symbol: string)
    requires AllOpened(lots, fills, symbol)
    ensures AllOpened(lots, fills + [f], symbol)
  {
    hide OpenedBy;
    forall k | 0 <= k < |lots| ensures OpenedByOne(lots[k], fills + [f], symbol) {
      assert OpenedByOne(lots[k], fills, symbol);
      var j :| 0 <= j < |fills| && OpenedBy(lots[k], fills[j], symbol);
      assert (fills + [f])[j] == fills[j];
    }
  }

  lemma FillOpens(lots: seq<Lot>, f: Fill, how: Matching, eps: real, fills: seq<Fill>)
    requires 0.0 <= eps && LotsAbove(lots, eps) && AllOpened(lots, fills, f.symbol)
    ensures AllOpened(FillLots(lots, f, how, eps).lots, fills + [f], f.symbol)
  {
    hide MatchFrom, RatesOf;
    MatchKeepsOpened(lots, f, MaxR(f.quantity, 0.0), 0, how, eps, fills, f.symbol);
    var m := MatchFrom(lots, f, MaxR(f.quantity, 0.0), 0, how, eps);
    MoreFills(m.lots, fills, f, f.symbol);
    assert (fills + [f])[|fills|] == f;
  }

  /**
   Every lot open after any run is what is left of one of the run's fills: of its symbol, on its side, entered at its
   price, opened for at most its quantity, and with no more remaining than it was opened for.
   */
  lemma {:induction false} LotsTraceToFills(events: seq<Event>, symbol: string, how: Matching, eps: real)
    requires 0.0 <= eps
    ensures var a := Run(events, how, eps); AllOpened(LotsOf(a.open, symbol), FillsOf(events), symbol)
  {
    hide FillLots, AllOpened;
    if events == [] {
      NoLotsOpened(symbol);
    } else {
      var past := events[..|events|-1];
      LotsTraceToFills(past, symbol, how, eps);
      match events[|events|-1] {
        case Traded(f) =>
          var a := Run(past, how, eps);
          RunAbove(past, how, eps);
          if f.symbol == symbol {
            FillOpens(LotsOf(a.open, symbol), f, how, eps, FillsOf(past));
          } else {
            MoreFills(LotsOf(a.open, symbol), FillsOf(past), f, symbol);
          }
        case Marked(_, _) => assert FillsOf(events) == FillsOf(past);
      }
    }
  }

  lemma NoLotsOpened(symbol: string)
    ensures AllOpened([], [], symbol)
  {
  }
}

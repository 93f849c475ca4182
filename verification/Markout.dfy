/**
 The execution-truth tracker: real fills wait in a queue until the market has been seen five
 seconds past them, collecting one price per markout horizon on the way.
 */
module Markout {
  import opened Numeric
  import opened Domain
  import L = Ledger

  datatype TruthFill = TruthFill(
    side: Side, price: real, filledSize: real, fee: real, rebate: real, funding: real, timestamp: nat, simulated: bool)

  datatype Update =
    | Trade(timestamp: nat, price: real)
    | Book(timestamp: nat, bid: Option<real>, ask: Option<real>)

  datatype Event = Fill(fill: TruthFill) | Market(update: Update)

  datatype Pending = Pending(
    fill: TruthFill, createdAt: nat,
    price100: Option<real>, price500: Option<real>, price1s: Option<real>, price5s: Option<real>)

  datatype Curve = Curve(pnl100: real, pnl500: real, pnl1s: real, pnl5s: real)

  datatype Finalized = Finalized(fill: TruthFill, curve: Curve)

  const GRACE: nat := 250

  function Horizon(h: nat): nat
    requires h < 4
  {
    [100, 500, 1000, 5000][h]
  }

  function Slot(p: Pending, h: nat): Option<real>
    requires h < 4
  {
    [p.price100, p.price500, p.price1s, p.price5s][h]
  }

  /** The usable price of an update, if any. */
  function MarketPrice(u: Update): Option<real> {
    match u
    case Trade(_, price) => if price > 0.0 then Some(price) else None
    case Book(_, bid, ask) =>
      if bid.Some? && ask.Some? && bid.value > 0.0 && ask.value > 0.0 then Some((bid.value + ask.value) * 0.5) else None
  }

  function Fresh(f: TruthFill): Pending {
    Pending(f, f.timestamp, None, None, None, None)
  }

  function Fix(slot: Option<real>, reached: bool, price: real): Option<real> {
    if reached && slot.None? then Some(price) else slot
  }

  function Observe(p: Pending, ts: nat, price: real): Pending {
    var elapsed := SatSub(ts, p.createdAt);
    p.(price100 := Fix(p.price100, elapsed >= 100, price), price500 := Fix(p.price500, elapsed >= 500, price),
    price1s := Fix(p.price1s, elapsed >= 1000, price), price5s := Fix(p.price5s, elapsed >= 5000, price))
  }

  function ObserveAll(ps: seq<Pending>, ts: nat, price: real): seq<Pending> {
    seq(|ps|, i requires 0 <= i < |ps| => Observe(ps[i], ts, price))
  }

  function Ready(p: Pending, ts: nat): bool {
    p.price5s.Some? || SatSub(ts, p.createdAt) > 5000 + GRACE
  }

  /** How many items leave the front of the queue. */
  function ReadyCount(ps: seq<Pending>, ts: nat): (n: nat)
    ensures n <= |ps|
    ensures forall k :: 0 <= k < n ==> Ready(ps[k], ts)
    ensures n < |ps| ==> !Ready(ps[n], ts)
  {
    if ps == [] || !Ready(ps[0], ts) then 0
    else
      assert forall k :: 1 <= k < |ps| ==> ps[k] == ps[1..][k-1];
      1 + ReadyCount(ps[1..], ts)
  }

  function MarkoutPnl(f: TruthFill, price: real): real {
    (price - f.price) * f.filledSize * Sign(f.side) - f.fee + f.rebate - f.funding
  }

  function OrFillPrice(slot: Option<real>, f: TruthFill): real {
    if slot.Some? then slot.value else f.price
  }

  /** `finalized_event`, with its fall-back to the fill's own price. */
  function Finalize(p: Pending): Finalized {
    var f := p.fill;
    Finalized(f, Curve(MarkoutPnl(f, OrFillPrice(p.price100, f)), MarkoutPnl(f, OrFillPrice(p.price500, f)),
                       MarkoutPnl(f, OrFillPrice(p.price1s, f)), MarkoutPnl(f, OrFillPrice(p.price5s, f))))
  }

  datatype Tracker = Tracker(popped: seq<Pending>, pending: seq<Pending>)

  function Step(t: Tracker, e: Event): Tracker {
    match e
    case Fill(f) => if f.simulated then t else t.(pending := t.pending + [Fresh(f)])
    case Market(u) =>
      match MarketPrice(u) {
        case None => t
        case Some(price) =>
          var seen := ObserveAll(t.pending, u.timestamp, price);
          var n := ReadyCount(seen, u.timestamp);
          Tracker(t.popped + seen[..n], seen[n..])
      }
  }

  function Run(events: seq<Event>): Tracker {
    if events == [] then Tracker([], []) else Step(Run(events[..|events|-1]), events[|events|-1])
  }

  // ----- what a horizon should hold -----

  /** The price of the first usable update from index `from` on that is at least `h` after `created`. */
  function FirstReach(events: seq<Event>, from: nat, created: nat, h: nat): Option<real> {
    if |events| <= from then None
    else
      match FirstReach(events[..|events|-1], from, created, h)
      case Some(price) => Some(price)
      case None =>
        var e := events[|events|-1];
        if e.Market? && MarketPrice(e.update).Some? && SatSub(e.update.timestamp, created) >= h
        then MarketPrice(e.update) else None
  }

  /** Where the real fills arrived. */
  function Arrivals(events: seq<Event>): (r: seq<nat>)
    ensures forall k :: 0 <= k < |r| ==> r[k] < |events| && events[r[k]].Fill? && !events[r[k]].fill.simulated
  {
    if events == [] then []
    else
      var past, e := Arrivals(events[..|events|-1]), events[|events|-1];
      if e.Fill? && !e.fill.simulated then past + [|events|-1] else past
  }

  /** An item is exactly what the events after its fill's arrival make it. */
  ghost predicate TrueTo(p: Pending, events: seq<Event>, at: nat)
    requires at < |events| && events[at].Fill?
  {
    && p.fill == events[at].fill && p.createdAt == p.fill.timestamp
    && forall h :: 0 <= h < 4 ==> Slot(p, h) == FirstReach(events, at + 1, p.createdAt, Horizon(h))
  }

  ghost predicate Complete(p: Pending) {
    p.price100.Some? && p.price500.Some? && p.price1s.Some? && p.price5s.Some?
  }

  ghost predicate Tracks(t: Tracker, events: seq<Event>) {
    var all, at := t.popped + t.pending, Arrivals(events);
    && |all| == |at|
    && (forall k :: 0 <= k < |all| ==> TrueTo(all[k], events, at[k]))
    && (forall k :: 0 <= k < |t.popped| ==> Complete(t.popped[k]))
  }

  /** A later horizon is reached no sooner than an earlier one. */
  lemma {:induction false} ReachOrdered(events: seq<Event>, from: nat, created: nat, h: nat, h': nat)
    requires h <= h' && FirstReach(events, from, created, h').Some?
    ensures FirstReach(events, from, created, h).Some?
  {
    if FirstReach(events[..|events|-1], from, created, h').Some? {
      ReachOrdered(events[..|events|-1], from, created, h, h');
    }
  }

  lemma FiveSecondsCompletes(p: Pending, events: seq<Event>, at: nat)
    requires at < |events| && events[at].Fill? && TrueTo(p, events, at) && p.price5s.Some?
    ensures Complete(p)
  {
    hide FirstReach;
    assert Slot(p, 3) == p.price5s;
    forall h | 0 <= h < 3 ensures Slot(p, h).Some? {
      ReachOrdered(events, at + 1, p.createdAt, Horizon(h), Horizon(3));
    }
    assert Slot(p, 0).Some? && Slot(p, 1).Some? && Slot(p, 2).Some?;
  }

  lemma ReachStep(events: seq<Event>, e: Event, from: nat, created: nat, h: nat)
    requires from <= |events|
    ensures FirstReach(events + [e], from, created, h) ==
            Fix(FirstReach(events, from, created, h),
                e.Market? && MarketPrice(e.update).Some? && SatSub(e.update.timestamp, created) >= h,
                if e.Market? && MarketPrice(e.update).Some? then MarketPrice(e.update).value else 0.0)
  {
    assert (events + [e])[..|events|] == events;
  }

  /** One more event: an unusable one leaves an item true, a usable one is observed. */
  lemma TrueToStep(p: Pending, events: seq<Event>, at: nat, e: Event)
    requires at < |events| && events[at].Fill? && TrueTo(p, events, at)
    ensures e.Market? && MarketPrice(e.update).Some? ==>
              TrueTo(Observe(p, e.update.timestamp, MarketPrice(e.update).value), events + [e], at)
    ensures !(e.Market? && MarketPrice(e.update).Some?) || Complete(p) ==> TrueTo(p, events + [e], at)
  {
    hide FirstReach;
    assert (events + [e])[at] == events[at];
    forall h | 0 <= h < 4
      ensures e.Market? && MarketPrice(e.update).Some? ==>
                Slot(Observe(p, e.update.timestamp, MarketPrice(e.update).value), h)
                == FirstReach(events + [e], at + 1, p.createdAt, Horizon(h))
      ensures !(e.Market? && MarketPrice(e.update).Some?) || Complete(p) ==>
                Slot(p, h) == FirstReach(events + [e], at + 1, p.createdAt, Horizon(h))
    {
      ReachStep(events, e, at + 1, p.createdAt, Horizon(h));
      assert h == 0 || h == 1 || h == 2 || h == 3;
    }
  }

  lemma NewItemTrue(events: seq<Event>, f: TruthFill)
    requires !f.simulated
    ensures TrueTo(Fresh(f), events + [Fill(f)], |events|)
  {
    forall h | 0 <= h < 4 ensures Slot(Fresh(f), h).None? {
      assert h == 0 || h == 1 || h == 2 || h == 3;
    }
  }

  lemma ArrivalsStep(events: seq<Event>, e: Event)
    ensures Arrivals(events + [e])
            == if e.Fill? && !e.fill.simulated then Arrivals(events) + [|events|] else Arrivals(events)
  {
    assert (events + [e])[..|events|] == events;
  }

  lemma ObservedReadyCompletes(p: Pending, ts: nat, price: real, events: seq<Event>, at: nat)
    requires at < |events| && events[at].Fill? && TrueTo(Observe(p, ts, price), events, at)
    requires Ready(Observe(p, ts, price), ts)
    ensures Complete(Observe(p, ts, price))
  {
    hide FirstReach;
    assert Observe(p, ts, price).createdAt == p.createdAt;
    assert Observe(p, ts, price).price5s.Some?;
    FiveSecondsCompletes(Observe(p, ts, price), events, at);
  }

  lemma StepTracks(t: Tracker, events: seq<Event>, e: Event)
    requires Tracks(t, events)
    ensures Tracks(Step(t, e), events + [e])
  {
    hide TrueTo, Arrivals, Observe, Complete, Ready;
    var all, at, t', events' := t.popped + t.pending, Arrivals(events), Step(t, e), events + [e];
    ArrivalsStep(events, e);
    forall k | 0 <= k < |at|
      ensures at[k] < |events| && events[at[k]].Fill?
      ensures e.Market? && MarketPrice(e.update).Some? ==>
                TrueTo(Observe(all[k], e.update.timestamp, MarketPrice(e.update).value), events', at[k])
      ensures !(e.Market? && MarketPrice(e.update).Some?) || Complete(all[k]) ==> TrueTo(all[k], events', at[k])
    {
      TrueToStep(all[k], events, at[k], e);
    }
    match e
    case Fill(f) =>
      if f.simulated {
        assert t' == t;
      } else {
        NewItemTrue(events, f);
        assert t'.popped + t'.pending == all + [Fresh(f)];
      }
    case Market(u) =>
      if MarketPrice(u).None? {
        assert t' == t;
      } else {
        MarketTracks(t, events, u);
      }
  }

  lemma MarketTracks(t: Tracker, events: seq<Event>, u: Update)
    requires Tracks(t, events) && MarketPrice(u).Some?
    ensures Tracks(Step(t, Market(u)), events + [Market(u)])
  {
    hide TrueTo, Arrivals, Observe, Complete, Ready, ReadyCount;
    var e := Market(u);
    var all, at, t', events' := t.popped + t.pending, Arrivals(events), Step(t, e), events + [e];
    var all' := t'.popped + t'.pending;
    var price, m := MarketPrice(u).value, |t.popped|;
    var seen := ObserveAll(t.pending, u.timestamp, price);
    ArrivalsStep(events, e);
    assert all' == t.popped + seen;
    forall k | 0 <= k < |all'| ensures TrueTo(all'[k], events', at[k]) {
      TrueToStep(all[k], events, at[k], e);
    }
    forall k | 0 <= k < |t'.popped| ensures Complete(t'.popped[k]) {
      if k >= m {
        assert t'.popped[k] == Observe(t.pending[k-m], u.timestamp, price) == all'[k];
        ObservedReadyCompletes(t.pending[k-m], u.timestamp, price, events', at[k]);
      }
    }
  }

  lemma {:induction false} RunTracks(events: seq<Event>)
    ensures Tracks(Run(events), events)
  {
    hide Step, Tracks;
    if events == [] {
      EmptyTracks();
    } else {
      RunTracks(events[..|events|-1]);
      StepTracks(Run(events[..|events|-1]), events[..|events|-1], events[|events|-1]);
      assert events == events[..|events|-1] + [events[|events|-1]];
    }
  }

  lemma EmptyTracks()
    ensures Tracks(Tracker([], []), [])
  {
  }

  // ----- the guarantees -----

  /**
   Under every interleaving of fills and updates, the emitted events followed by the queue are the
   real fills in arrival order, and every emitted event's curve is taken at the first usable price that
   reached each horizon after the fill: the fall-back to the fill's own price never happens.
   */
  lemma EmittedInOrderAndComplete(events: seq<Event>, k: nat)
    requires k < |Run(events).popped + Run(events).pending|
    ensures var t, at := Run(events), Arrivals(events);
            && |t.popped + t.pending| == |at| && at[k] < |events| && events[at[k]].Fill?
            && (t.popped + t.pending)[k].fill == events[at[k]].fill
    ensures k < |Run(events).popped| ==>
              var f, at := Run(events).popped[k].fill, Arrivals(events);
              && FirstReach(events, at[k] + 1, f.timestamp, 100).Some?
                 && FirstReach(events, at[k] + 1, f.timestamp, 500).Some?
              && FirstReach(events, at[k] + 1, f.timestamp, 1000).Some?
                 && FirstReach(events, at[k] + 1, f.timestamp, 5000).Some?
              && Finalize(Run(events).popped[k]) == Finalized(f, Curve(
                 MarkoutPnl(f, FirstReach(events, at[k] + 1, f.timestamp, 100).value),
                 MarkoutPnl(f, FirstReach(events, at[k] + 1, f.timestamp, 500).value),
                 MarkoutPnl(f, FirstReach(events, at[k] + 1, f.timestamp, 1000).value),
                 MarkoutPnl(f, FirstReach(events, at[k] + 1, f.timestamp, 5000).value)))
  {
    hide FirstReach, Run, Arrivals, MarkoutPnl;
    RunTracks(events);
    var t := Run(events);
    if k < |t.popped| {
      var p := t.popped[k];
      assert p == (t.popped + t.pending)[k] && Complete(p);
      assert Slot(p, 0) == p.price100 && Slot(p, 1) == p.price500 && Slot(p, 2) == p.price1s && Slot(p, 3) == p.price5s;
      forall h | 0 <= h < 4
        ensures FirstReach(events, Arrivals(events)[k] + 1, p.fill.timestamp, Horizon(h)) == Slot(p, h)
                && Slot(p, h).Some?
      {
        assert h == 0 || h == 1 || h == 2 || h == 3;
      }
      assert Horizon(0) == 100 && Horizon(1) == 500 && Horizon(2) == 1000 && Horizon(3) == 5000;
    }
  }

  // ----- what the emitted numbers are -----

  /** The usable price of an update: a positive trade price, or the middle of a book with both sides. */
  lemma MarketPriceMeans(u: Update)
    ensures u.Trade? ==> MarketPrice(u) == if u.price > 0.0 then Some(u.price) else None
    ensures u.Book? ==>
              (MarketPrice(u).Some? <==> u.bid.Some? && u.ask.Some? && u.bid.value > 0.0 && u.ask.value > 0.0)
              && (MarketPrice(u).Some? ==> MarketPrice(u).value - u.bid.value == u.ask.value - MarketPrice(u).value)
    ensures MarketPrice(u).Some? ==> MarketPrice(u).value > 0.0
  {
  }

  /** Once observed, an item is ready exactly when its five-second price is known: the grace period never decides. */
  lemma GraceNeverDecides(p: Pending, ts: nat, price: real)
    ensures Ready(Observe(p, ts, price), ts) <==> Observe(p, ts, price).price5s.Some?
    ensures SatSub(ts, p.createdAt) >= 5000 ==> Observe(p, ts, price).price5s.Some?
  {
  }

  /** At the fill's own price a markout is its costs alone; it gains with the price on a buy and loses on a sell. */
  lemma MarkoutMeans(f: TruthFill, x: real, y: real)
    ensures MarkoutPnl(f, f.price) == -f.fee + f.rebate - f.funding
    ensures f.side == Buy ==> MarkoutPnl(f, x) - MarkoutPnl(f, y) == (x - y) * f.filledSize
    ensures f.side == Sell ==> MarkoutPnl(f, x) - MarkoutPnl(f, y) == (y - x) * f.filledSize
  {
  }

  /** The ledger's round trip: the fill opens a lot, and an opposite fill without costs closes it at a price. */
  ghost predicate RoundTrip(f: TruthFill, x: real, open: L.Fill, close: L.Fill) {
    && open.side == f.side && open.price == f.price && open.quantity == close.quantity == f.filledSize
    && open.fee == f.fee && open.rebate == f.rebate && open.funding == f.funding
    && close.side == Opposite(f.side) && close.price == x && close.fee == close.rebate == close.funding == 0.0
  }

  lemma OpensLot(open: L.Fill, how: L.Matching)
    requires open.quantity > L.CUTOFF
    ensures L.FillLots([], open, how, L.CUTOFF).lots == [L.NewLot(open, open.quantity, L.CUTOFF)]
  {
    hide L.NewLot, L.MatchOne;
  }

  lemma LotCarries(open: L.Fill)
    requires open.quantity > L.CUTOFF
    ensures var lot := L.NewLot(open, open.quantity, L.CUTOFF);
            && lot.side == open.side && lot.entryPrice == open.price && lot.remaining == open.quantity
            && lot.fee == open.fee && lot.rebate == open.rebate && lot.funding == open.funding
  {
    Undivide(open.fee, open.quantity);
    Undivide(open.rebate, open.quantity);
    Undivide(open.funding, open.quantity);
  }

  lemma ClosesLot(lot: L.Lot, close: L.Fill, how: L.Matching)
    requires close.quantity == lot.remaining > L.CUTOFF && close.side == Opposite(lot.side)
    ensures var m := L.MatchOne(lot, close, close.quantity, 0, L.CUTOFF);
            m.quantity == close.quantity && m.lot.remaining == 0.0 ==>
              L.FillLots([lot], close, how, L.CUTOFF) == L.Matched([], 0.0, [m.entry])
  {
    hide L.MatchOne;
    var m := L.MatchOne(lot, close, close.quantity, 0, L.CUTOFF);
    if m.quantity == close.quantity && m.lot.remaining == 0.0 {
      assert L.OppositeIndex([lot], close.side, how) == Some(0);
      assert L.AfterMatch([lot], 0, m.lot, L.CUTOFF) == [];
      assert L.MatchFrom([], close, 0.0, 1, how, L.CUTOFF) == L.Matched([], 0.0, []);
      assert L.MatchFrom([lot], close, close.quantity, 0, how, L.CUTOFF).entries == [m.entry];
    }
  }

  lemma WholeRatio(lot: L.Lot)
    requires lot.remaining > L.CUTOFF
    ensures L.MatchRatio(lot, lot.remaining) == 1.0
  {
    var q := lot.remaining;
    assert q / q == 1.0;
  }

  lemma WholeMatch(lot: L.Lot, close: L.Fill)
    requires close.quantity == lot.remaining > L.CUTOFF && close.fee == close.rebate == close.funding == 0.0
    ensures var m := L.MatchOne(lot, close, close.quantity, 0, L.CUTOFF);
            && m.quantity == close.quantity && m.lot.remaining == 0.0
            && m.entry.pnl == L.RealizedGross(lot.side, lot.entryPrice, close.price, close.quantity)
                              - lot.fee + lot.rebate - lot.funding
  {
    hide L.RealizedGross;
    WholeRatio(lot);
    assert L.RatesOf(close, L.CUTOFF) == L.Rates(0.0, 0.0, 0.0);
    hide L.MatchRatio, L.RatesOf;
  }

  /** A markout is what the ledger would realize, net of all costs, on closing the fill at that price. */
  lemma MarkoutIsRealized(f: TruthFill, x: real, open: L.Fill, close: L.Fill, how: L.Matching)
    requires f.filledSize > L.CUTOFF && RoundTrip(f, x, open, close)
    ensures var r := L.FillLots(L.FillLots([], open, how, L.CUTOFF).lots, close, how, L.CUTOFF);
            r.lots == [] && r.left == 0.0 && L.SumPnl(r.entries) == MarkoutPnl(f, x)
  {
    hide L.NewLot, L.FillLots, L.MatchOne, L.SumPnl, L.RealizedGross, MarkoutPnl;
    OpensLot(open, how);
    LotCarries(open);
    var lot := L.NewLot(open, open.quantity, L.CUTOFF);
    WholeMatch(lot, close);
    ClosesLot(lot, close, how);
    OneEntry(L.MatchOne(lot, close, close.quantity, 0, L.CUTOFF).entry);
    GrossMarkout(f, x);
  }

  lemma OneEntry(e: L.RealizedEntry)
    ensures L.SumPnl([e]) == e.pnl
  {
    assert [e][..0] == [];
  }

  lemma GrossMarkout(f: TruthFill, x: real)
    ensures MarkoutPnl(f, x) == L.RealizedGross(f.side, f.price, x, f.filledSize) - f.fee + f.rebate - f.funding
  {
    assert (x - f.price) * f.filledSize == -((f.price - x) * f.filledSize);
  }

  function CurveAt(c: Curve, h: nat): real
    requires h < 4
  {
    [c.pnl100, c.pnl500, c.pnl1s, c.pnl5s][h]
  }

  /**
   Over every interleaving, each number of an emitted curve is the net PnL the ledger would realize on closing
   that fill at the first usable price its horizon reached.
   */
  lemma EmittedIsRealized(events: seq<Event>, k: nat, h: nat, open: L.Fill, close: L.Fill, how: L.Matching)
    requires k < |Run(events).popped| && h < 4 && Run(events).popped[k].fill.filledSize > L.CUTOFF
    requires k < |Arrivals(events)|
    requires var f := Run(events).popped[k].fill;
             var reached := FirstReach(events, Arrivals(events)[k] + 1, f.timestamp, Horizon(h));
             reached.Some? && RoundTrip(f, reached.value, open, close)
    ensures var r := L.FillLots(L.FillLots([], open, how, L.CUTOFF).lots, close, how, L.CUTOFF);
            r.lots == [] && CurveAt(Finalize(Run(events).popped[k]).curve, h) == L.SumPnl(r.entries)
  {
    hide FirstReach, Run, Arrivals, MarkoutPnl, L.FillLots, L.SumPnl, RoundTrip, Finalize;
    var t := Run(events);
    var f := t.popped[k].fill;
    assert (t.popped + t.pending)[k] == t.popped[k];
    EmittedInOrderAndComplete(events, k);
    assert h == 0 || h == 1 || h == 2 || h == 3;
    MarkoutIsRealized(f, FirstReach(events, Arrivals(events)[k] + 1, f.timestamp, Horizon(h)).value, open, close, how);
  }

  // ----- the tracker as it runs -----

  class ExecutionTruth {
    var pending: seq<Pending>
    var emitted: seq<Finalized>
    ghost var popped: seq<Pending>

    ghost predicate Valid()
      reads this
    {
      |emitted| == |popped| && forall k :: 0 <= k < |popped| ==> emitted[k] == Finalize(popped[k])
    }

    constructor ()
      ensures Valid() && Tracker(popped, pending) == Run([])
    {
      pending, emitted, popped := [], [], [];
    }

    method OnFill(f: TruthFill)
      requires Valid()
      modifies this
      ensures Valid() && Tracker(popped, pending) == Step(old(Tracker(popped, pending)), Fill(f))
    {
      if f.simulated {
        return;
      }
      pending := pending + [Fresh(f)];
    }

    method OnMarket(u: Update)
      requires Valid()
      modifies this
      ensures Valid() && Tracker(popped, pending) == Step(old(Tracker(popped, pending)), Market(u))
    {
      var price := MarketPrice(u);
      if price.Some? {
        UpdatePending(u.timestamp, price.value);
      }
    }

    method UpdatePending(ts: nat, price: real)
      requires Valid()
      modifies this
      ensures Valid()
      ensures var seen := ObserveAll(old(pending), ts, price);
              var n := ReadyCount(seen, ts);
              popped == old(popped) + seen[..n] && pending == seen[n..]
    {
      ObservePending(ts, price);
      PopReady(ts);
    }

    /** Fills the slots of every waiting item in place. */
    method ObservePending(ts: nat, price: real)
      modifies this`pending
      ensures pending == ObserveAll(old(pending), ts, price)
    {
      hide Observe;
      ghost var waiting := pending;
      for i := 0 to |pending|
        invariant |pending| == |waiting|
        invariant forall k :: 0 <= k < i ==> pending[k] == Observe(waiting[k], ts, price)
        invariant forall k :: i <= k < |pending| ==> pending[k] == waiting[k]
      {
        pending := pending[i := Observe(pending[i], ts, price)];
      }
      ObserveAllIs(waiting, pending, ts, price);
    }

    /** Pops from the front, emitting, while the front is ready. */
    method PopReady(ts: nat)
      requires Valid()
      modifies this
      ensures Valid()
      ensures var n := ReadyCount(old(pending), ts);
              popped == old(popped) + old(pending)[..n] && pending == old(pending)[n..]
    {
      hide Ready, Finalize, ReadyCount;
      ghost var seen, popped0, m := pending, popped, 0;
      while pending != [] && Ready(pending[0], ts)
        invariant m <= |seen| && pending == seen[m..] && popped == popped0 + seen[..m] && Valid()
        invariant m + ReadyCount(pending, ts) == ReadyCount(seen, ts)
        decreases |pending|
      {
        var item := pending[0];
        ReadyCountStep(pending, ts);
        assert seen[..m+1] == seen[..m] + [item] && pending[1..] == seen[m+1..];
        pending := pending[1..];
        popped := popped + [item];
        emitted := emitted + [Finalize(item)];
        m := m + 1;
      }
      ReadyCountStep(pending, ts);
    }
  }

  lemma ObserveAllIs(ps: seq<Pending>, qs: seq<Pending>, ts: nat, price: real)
    requires |ps| == |qs| && forall k :: 0 <= k < |ps| ==> qs[k] == Observe(ps[k], ts, price)
    ensures qs == ObserveAll(ps, ts, price)
  {
  }

  lemma ReadyCountStep(ps: seq<Pending>, ts: nat)
    ensures ReadyCount(ps, ts) == if ps == [] || !Ready(ps[0], ts) then 0 else 1 + ReadyCount(ps[1..], ts)
  {
  }
}

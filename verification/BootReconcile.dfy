/** The boot reconciliation pass over the exchange's replies, which are taken as given. */
module BootReconcile {
  import opened Numeric
  import opened Domain
  import opened Store
  import ReconciliationCheck

  datatype Replies = Replies(
    positions: seq<Position>, openOrders: map<string, seq<Order>>, fills: map<string, seq<FillEntry>>)

  datatype Report = Report(matched: bool, missingFills: nat, orphanOrders: nat, positionDrift: nat)

  function OrdersFor(r: Replies, symbol: string): seq<Order> {
    if symbol in r.openOrders then r.openOrders[symbol] else []
  }

  function FillsFor(r: Replies, symbol: string): seq<FillEntry> {
    if symbol in r.fills then r.fills[symbol] else []
  }

  // ----- the pass, step by step -----

  function SetAll(s: State, positions: seq<Position>): State {
    if positions == [] then s else Step(SetAll(s, positions[..|positions|-1]), SetPosition(positions[|positions|-1]))
  }

  function UpsertAll(s: State, orders: seq<Order>): State {
    if orders == [] then s else Step(UpsertAll(s, orders[..|orders|-1]), Upsert(orders[|orders|-1]))
  }

  /** `fallbackID(id, id)`; the clock-based spare is an input. */
  function FallbackId(id: string, spare: string): string {
    if id != "" then id else spare
  }

  function Recovered(fill: FillEntry, spare: string): Order {
    Order(FallbackId(fill.orderId, spare), fill.orderId, fill.orderId, fill.symbol, fill.side, fill.quantity,
          None, Partial, 0.0, 0.0, 0.0, "", "")
  }

  function EventFor(fill: FillEntry): ExecutionEvent {
    ExecutionEvent(fill.orderId, fill.fillId, fill.quantity)
  }

  function BooksNothing(s: State, id: string): bool {
    QtyOf(LedgerSums(s.ledger), id) == 0.0
  }

  function ByExchangeId(s: State, id: string): Option<Order> {
    if id in s.exchangeIds && s.exchangeIds[id] in s.orders then Some(s.orders[s.exchangeIds[id]]) else None
  }

  /** One fill of the reply: booked only when its order has no ledger quantity yet. */
  function ApplyReply(s: State, fill: FillEntry, spare: string): State {
    if !BooksNothing(s, fill.orderId) then s
    else
      match ByExchangeId(s, fill.orderId)
      case Some(order) => Step(s, Fill(order.id, fill, EventFor(fill)))
      case None =>
        var order := Recovered(fill, spare);
        Step(Step(s, Upsert(order)), Fill(order.id, fill, EventFor(fill)))
  }

  function ApplyReplies(s: State, fills: seq<FillEntry>, spare: string): State {
    if fills == [] then s else ApplyReply(ApplyReplies(s, fills[..|fills|-1], spare), fills[|fills|-1], spare)
  }

  function PassSymbol(s: State, r: Replies, symbol: string, spare: string): State {
    ApplyReplies(UpsertAll(s, OrdersFor(r, symbol)), FillsFor(r, symbol), spare)
  }

  function Pass(s: State, r: Replies, symbols: seq<string>, spare: string): State {
    if symbols == [] then s
    else PassSymbol(Pass(s, r, symbols[..|symbols|-1], spare), r, symbols[|symbols|-1], spare)
  }

  function Active(s: State, positions: seq<Position>): set<string> {
    (set p | p in positions :: p.symbol) + (set id | id in s.orders :: s.orders[id].symbol) - {""}
  }

  ghost predicate Covers(symbols: seq<string>, all: set<string>) {
    forall y :: y in symbols <==> y in all
  }

  // ----- one reply -----

  /** The fill can be attributed: it names an order, or no order answers to the empty key. */
  ghost predicate Attributable(s: State, fill: FillEntry) {
    fill.orderId != "" || "" !in s.idempotency
  }

  ghost predicate Ready(s: State) {
    Coherent(s) && (forall x :: x in s.exchangeIds ==> x != "")
  }

  lemma SumsAppend(ledger: seq<FillEntry>, e: FillEntry, id: string)
    ensures QtyOf(LedgerSums(ledger + [e]), id)
            == QtyOf(LedgerSums(ledger), id) + if e.orderId == id then e.quantity else 0.0
  {
    assert (ledger + [e])[..|ledger|] == ledger;
  }

  lemma UpsertLogs(s: State, o: Order)
    ensures var t := Step(s, Upsert(o));
            t.ledger == s.ledger && t.executions == s.executions && t.positions == s.positions
  {
  }

  lemma UpsertReady(s: State, o: Order)
    requires Ready(s)
    ensures Ready(Step(s, Upsert(o))) && ("" !in s.idempotency ==> "" !in Step(s, Upsert(o)).idempotency)
  {
    hide Coherent;
    StepCoherent(s, Upsert(o));
  }

  lemma FillReady(s: State, id: string, e: FillEntry, x: ExecutionEvent)
    requires Ready(s)
    ensures var t := Step(s, Fill(id, e, x)); Ready(t) && t.idempotency == s.idempotency
  {
    hide Coherent, FillOrder, FillPosition, PositionAt, Signed;
    StepCoherent(s, Fill(id, e, x));
  }

  /** After the upsert of a recovered order, its fill finds an order. */
  lemma RecoveredResolves(s: State, fill: FillEntry, spare: string)
    requires Ready(s) && Attributable(s, fill)
    ensures var o := Recovered(fill, spare); var t := Step(s, Upsert(o)); Resolve(t, o.id) in t.orders
  {
    UpsertReady(s, Recovered(fill, spare));
  }

  lemma ReplyReady(s: State, fill: FillEntry, spare: string)
    requires Ready(s)
    ensures var t := ApplyReply(s, fill, spare); Ready(t) && ("" !in s.idempotency ==> "" !in t.idempotency)
  {
    hide Ready, Step, BooksNothing;
    if BooksNothing(s, fill.orderId) {
      match ByExchangeId(s, fill.orderId)
      case Some(order) => FillReady(s, order.id, fill, EventFor(fill));
      case None =>
        var o := Recovered(fill, spare);
        UpsertReady(s, o);
        FillReady(Step(s, Upsert(o)), o.id, fill, EventFor(fill));
    }
  }

  /** A fill whose order has nothing booked is booked in both logs; any other changes nothing. */
  lemma ReplyBooks(s: State, fill: FillEntry, spare: string)
    requires Ready(s) && Attributable(s, fill)
    ensures var t := ApplyReply(s, fill, spare);
            if BooksNothing(s, fill.orderId)
            then t.ledger == s.ledger + [fill] && t.executions == s.executions + [EventFor(fill)]
            else t == s
  {
    hide Step, BooksNothing, LedgerSums;
    if BooksNothing(s, fill.orderId) {
      match ByExchangeId(s, fill.orderId)
      case Some(order) => StepLogs(s, Fill(order.id, fill, EventFor(fill)));
      case None =>
        var o := Recovered(fill, spare);
        UpsertLogs(s, o);
        RecoveredResolves(s, fill, spare);
        StepLogs(Step(s, Upsert(o)), Fill(o.id, fill, EventFor(fill)));
    }
  }

  // ----- a whole reply -----

  ghost predicate AllAttributable(s: State, fills: seq<FillEntry>) {
    forall k :: 0 <= k < |fills| ==> Attributable(s, fills[k])
  }

  ghost predicate Booked(s: State, fills: seq<FillEntry>) {
    forall k :: 0 <= k < |fills| ==> !BooksNothing(s, fills[k].orderId)
  }

  /** What is booked stays booked. */
  ghost predicate Keeps(s: State, t: State) {
    forall id :: !BooksNothing(s, id) ==> !BooksNothing(t, id)
  }

  lemma ReplyKeeps(s: State, fill: FillEntry, spare: string)
    requires Ready(s) && Attributable(s, fill)
    ensures Keeps(s, ApplyReply(s, fill, spare))
    ensures fill.quantity != 0.0 ==> !BooksNothing(ApplyReply(s, fill, spare), fill.orderId)
  {
    hide ApplyReply, LedgerSums;
    ReplyBooks(s, fill, spare);
    if BooksNothing(s, fill.orderId) {
      forall id ensures !BooksNothing(s, id) ==> !BooksNothing(ApplyReply(s, fill, spare), id) {
        SumsAppend(s.ledger, fill, id);
      }
      SumsAppend(s.ledger, fill, fill.orderId);
    }
  }

  lemma {:induction false} RepliesBook(s: State, fills: seq<FillEntry>, spare: string)
    requires Ready(s) && AllAttributable(s, fills)
    requires forall k :: 0 <= k < |fills| ==> fills[k].quantity != 0.0
    ensures var t := ApplyReplies(s, fills, spare);
            && Ready(t) && ("" !in s.idempotency ==> "" !in t.idempotency)
            && Keeps(s, t) && Booked(t, fills)
  {
    hide ApplyReply, BooksNothing, Ready;
    if fills != [] {
      var rest, last := fills[..|fills|-1], fills[|fills|-1];
      var t := ApplyReplies(s, rest, spare);
      assert Attributable(s, last);
      assert AllAttributable(s, rest) by {
        forall k | 0 <= k < |rest| ensures Attributable(s, rest[k]) { assert rest[k] == fills[k]; }
      }
      RepliesBook(s, rest, spare);
      ReplyReady(t, last, spare);
      ReplyKeeps(t, last, spare);
    }
  }

  lemma {:induction false} BookedRepliesChangeNothing(s: State, fills: seq<FillEntry>, spare: string)
    requires Booked(s, fills)
    ensures ApplyReplies(s, fills, spare) == s
  {
    hide BooksNothing;
    if fills != [] {
      BookedRepliesChangeNothing(s, fills[..|fills|-1], spare);
    }
  }

  lemma {:induction false} UpsertsKeepLogs(s: State, orders: seq<Order>)
    requires Ready(s)
    ensures var t := UpsertAll(s, orders);
            && Ready(t) && ("" !in s.idempotency ==> "" !in t.idempotency)
            && t.ledger == s.ledger && t.executions == s.executions && t.positions == s.positions
  {
    hide Step, Ready;
    if orders != [] {
      var rest := orders[..|orders|-1];
      UpsertsKeepLogs(s, rest);
      UpsertLogs(UpsertAll(s, rest), orders[|orders|-1]);
      UpsertReady(UpsertAll(s, rest), orders[|orders|-1]);
    }
  }

  // ----- the whole pass -----

  ghost predicate PassAttributable(s: State, r: Replies, symbols: seq<string>) {
    forall y :: y in symbols ==> AllAttributable(s, FillsFor(r, y))
  }

  ghost predicate NonZeroFills(r: Replies, symbols: seq<string>) {
    forall y :: y in symbols ==> forall k :: 0 <= k < |FillsFor(r, y)| ==> FillsFor(r, y)[k].quantity != 0.0
  }

  ghost predicate PassBooked(s: State, r: Replies, symbols: seq<string>) {
    forall y :: y in symbols ==> Booked(s, FillsFor(r, y))
  }

  lemma StillAttributable(s: State, t: State, fills: seq<FillEntry>)
    requires AllAttributable(s, fills) && ("" !in s.idempotency ==> "" !in t.idempotency)
    ensures AllAttributable(t, fills)
  {
  }

  lemma StillBooked(s: State, t: State, fills: seq<FillEntry>)
    requires Booked(s, fills) && Keeps(s, t)
    ensures Booked(t, fills)
  {
    hide BooksNothing;
  }

  lemma KeepsTransitive(s: State, t: State, u: State)
    requires Keeps(s, t) && Keeps(t, u)
    ensures Keeps(s, u)
  {
    hide BooksNothing;
  }

  lemma SameLedgerKeeps(s: State, t: State)
    requires s.ledger == t.ledger
    ensures Keeps(s, t)
  {
  }

  /** After a pass every fill it went over belongs to an order with non-zero ledger quantity. */
  lemma {:induction false} PassBooks(s: State, r: Replies, symbols: seq<string>, spare: string)
    requires Ready(s) && PassAttributable(s, r, symbols) && NonZeroFills(r, symbols)
    ensures var t := Pass(s, r, symbols, spare);
            && Ready(t) && ("" !in s.idempotency ==> "" !in t.idempotency)
            && Keeps(s, t) && PassBooked(t, r, symbols)
  {
    hide Ready, Keeps, Booked, AllAttributable, UpsertAll, ApplyReplies, FillsFor, OrdersFor;
    if symbols == [] {
      SameLedgerKeeps(s, s);
    } else {
      var rest, y := symbols[..|symbols|-1], symbols[|symbols|-1];
      var t := Pass(s, r, rest, spare);
      var u := UpsertAll(t, OrdersFor(r, y));
      var v := ApplyReplies(u, FillsFor(r, y), spare);
      PassBooks(s, r, rest, spare);
      UpsertsKeepLogs(t, OrdersFor(r, y));
      StillAttributable(s, u, FillsFor(r, y));
      RepliesBook(u, FillsFor(r, y), spare);
      SameLedgerKeeps(t, u);
      KeepsTransitive(t, u, v);
      KeepsTransitive(s, t, v);
      forall z | z in symbols ensures Booked(v, FillsFor(r, z)) {
        if z in rest {
          StillBooked(t, v, FillsFor(r, z));
        }
      }
    }
  }

  /** A pass over fills that are all booked adds nothing to the logs, and leaves positions alone. */
  lemma {:induction false} BookedPassAddsNothing(s: State, r: Replies, symbols: seq<string>, spare: string)
    requires Ready(s) && PassBooked(s, r, symbols)
    ensures var t := Pass(s, r, symbols, spare);
            Ready(t) && t.ledger == s.ledger && t.executions == s.executions && t.positions == s.positions
  {
    hide Ready, Booked, UpsertAll, ApplyReplies, FillsFor, OrdersFor;
    if symbols != [] {
      var rest, y := symbols[..|symbols|-1], symbols[|symbols|-1];
      var t := Pass(s, r, rest, spare);
      var u := UpsertAll(t, OrdersFor(r, y));
      BookedPassAddsNothing(s, r, rest, spare);
      UpsertsKeepLogs(t, OrdersFor(r, y));
      SameLedgerKeeps(s, u);
      StillBooked(s, u, FillsFor(r, y));
      BookedRepliesChangeNothing(u, FillsFor(r, y), spare);
    }
  }

  lemma {:induction false} SetAllKeepsLogs(s: State, positions: seq<Position>)
    requires Ready(s)
    ensures var t := SetAll(s, positions);
            && Ready(t) && t.ledger == s.ledger && t.executions == s.executions
            && t.idempotency == s.idempotency && t.orders == s.orders
  {
    if positions != [] {
      SetAllKeepsLogs(s, positions[..|positions|-1]);
      PositionCoherent(SetAll(s, positions[..|positions|-1]), positions[|positions|-1]);
    }
  }

  ghost predicate DistinctSymbols(positions: seq<Position>) {
    forall i, j :: 0 <= i < j < |positions| ==> positions[i].symbol != positions[j].symbol
  }

  lemma {:induction false} SetAllSets(s: State, positions: seq<Position>, k: nat)
    requires DistinctSymbols(positions) && k < |positions|
    ensures PositionAt(SetAll(s, positions), positions[k].symbol) == positions[k]
  {
    if k < |positions| - 1 {
      SetAllSets(s, positions[..|positions|-1], k);
    }
  }

  /**
   After one pass over fills of non-zero quantity, a second pass with the same replies over symbols the
   first one covered appends nothing to the ledger or the execution log, and leaves every position the
   exchange reports exactly as reported.
   */
  lemma SecondPassAddsNothing(s: State, r: Replies, first: seq<string>, second: seq<string>, spare: string,
                              spare': string)
    requires Ready(s) && PassAttributable(s, r, first) && NonZeroFills(r, first)
    requires forall y :: y in second ==> y in first
    ensures var a := Pass(SetAll(s, r.positions), r, first, spare);
            var b := Pass(SetAll(a, r.positions), r, second, spare');
            && PassBooked(a, r, first)
            && b.ledger == a.ledger && b.executions == a.executions
            && (DistinctSymbols(r.positions) ==>
                  forall k :: 0 <= k < |r.positions| ==> PositionAt(b, r.positions[k].symbol) == r.positions[k])
  {
    hide Ready, Booked, AllAttributable, Pass, FillsFor, SetAll, NonZeroFills, DistinctSymbols, Keeps;
    var s0 := SetAll(s, r.positions);
    SetAllKeepsLogs(s, r.positions);
    forall y | y in first ensures AllAttributable(s0, FillsFor(r, y)) {
      StillAttributable(s, s0, FillsFor(r, y));
    }
    PassBooks(s0, r, first, spare);
    var a := Pass(s0, r, first, spare);
    var a0 := SetAll(a, r.positions);
    SetAllKeepsLogs(a, r.positions);
    SameLedgerKeeps(a, a0);
    forall y | y in second ensures Booked(a0, FillsFor(r, y)) {
      StillBooked(a, a0, FillsFor(r, y));
    }
    BookedPassAddsNothing(a0, r, second, spare');
    if DistinctSymbols(r.positions) {
      forall k | 0 <= k < |r.positions|
        ensures PositionAt(Pass(a0, r, second, spare'), r.positions[k].symbol) == r.positions[k]
      {
        SetAllSets(a, r.positions, k);
      }
    }
  }

  // ----- what the pass appends -----

  /** The two logs record the same fills: order, fill and quantity, in one order. */
  ghost predicate SameFills(s: State) {
    && |s.ledger| == |s.executions|
    && forall k :: 0 <= k < |s.ledger| ==>
         s.ledger[k].orderId == s.executions[k].orderId && s.ledger[k].fillId == s.executions[k].fillId
         && s.ledger[k].quantity == s.executions[k].filledQuantity
  }

  lemma ReplyKeepsSame(s: State, fill: FillEntry, spare: string)
    requires SameFills(s)
    ensures SameFills(ApplyReply(s, fill, spare))
  {
    hide Step, BooksNothing, Resolve, Recovered, ByExchangeId;
    if BooksNothing(s, fill.orderId) {
      match ByExchangeId(s, fill.orderId)
      case Some(order) => StepLogs(s, Fill(order.id, fill, EventFor(fill)));
      case None =>
        var o := Recovered(fill, spare);
        UpsertLogs(s, o);
        StepLogs(Step(s, Upsert(o)), Fill(o.id, fill, EventFor(fill)));
    }
  }

  lemma {:induction false} RepliesKeepSame(s: State, fills: seq<FillEntry>, spare: string)
    requires SameFills(s)
    ensures SameFills(ApplyReplies(s, fills, spare))
  {
    hide ApplyReply, SameFills;
    if fills != [] {
      RepliesKeepSame(s, fills[..|fills|-1], spare);
      ReplyKeepsSame(ApplyReplies(s, fills[..|fills|-1], spare), fills[|fills|-1], spare);
    }
  }

  lemma {:induction false} PassKeepsSame(s: State, r: Replies, symbols: seq<string>, spare: string)
    requires SameFills(s)
    ensures SameFills(Pass(s, r, symbols, spare))
  {
    hide ApplyReplies, UpsertAll, OrdersFor, FillsFor;
    if symbols != [] {
      var rest, y := symbols[..|symbols|-1], symbols[|symbols|-1];
      var t := Pass(s, r, rest, spare);
      PassKeepsSame(s, r, rest, spare);
      UpsertsLeaveLogs(t, OrdersFor(r, y));
      RepliesKeepSame(UpsertAll(t, OrdersFor(r, y)), FillsFor(r, y), spare);
    }
  }

  lemma {:induction false} UpsertsLeaveLogs(s: State, orders: seq<Order>)
    ensures UpsertAll(s, orders).ledger == s.ledger && UpsertAll(s, orders).executions == s.executions
  {
    hide Step;
    if orders != [] {
      UpsertsLeaveLogs(s, orders[..|orders|-1]);
      UpsertLogs(UpsertAll(s, orders[..|orders|-1]), orders[|orders|-1]);
    }
  }

  /** Whatever the exchange replies, a pass over logs that record the same fills leaves a store reported as matched. */
  lemma PassStaysMatched(s: State, r: Replies, symbols: seq<string>, spare: string)
    requires SameFills(s)
    ensures var t := Pass(SetAll(s, r.positions), r, symbols, spare);
            SameFills(t) && Matches(LedgerSums(t.ledger), ExecutionSums(t.executions))
  {
    hide Pass, SetAll, Matches, LedgerSums, ExecutionSums;
    SetAllLeavesLogs(s, r.positions);
    PassKeepsSame(SetAll(s, r.positions), r, symbols, spare);
    var t := Pass(SetAll(s, r.positions), r, symbols, spare);
    ReconciliationCheck.AgreeingSums(t.ledger, t.executions);
    SameSums(LedgerSums(t.ledger), ExecutionSums(t.executions));
  }

  lemma SameSums(a: map<string, real>, b: map<string, real>)
    requires a == b
    ensures Matches(a, b)
  {
  }

  lemma {:induction false} SetAllLeavesLogs(s: State, positions: seq<Position>)
    ensures SetAll(s, positions).ledger == s.ledger && SetAll(s, positions).executions == s.executions
  {
    if positions != [] {
      SetAllLeavesLogs(s, positions[..|positions|-1]);
    }
  }

  // ----- which symbols a second pass covers -----

  function Symbols(s: State): set<string> {
    set id | id in s.orders :: s.orders[id].symbol
  }

  /** The exchange labels what it returns for a symbol with that symbol. */
  ghost predicate Labelled(r: Replies, y: string) {
    && (forall o :: o in OrdersFor(r, y) ==> o.symbol == y)
    && (forall f :: f in FillsFor(r, y) ==> f.symbol == y)
  }

  lemma UpsertSymbols(s: State, o: Order)
    ensures Symbols(Step(s, Upsert(o))) <= Symbols(s) + {o.symbol}
  {
  }

  lemma FillSymbols(s: State, id: string, e: FillEntry, x: ExecutionEvent)
    requires Coherent(s)
    ensures Symbols(Step(s, Fill(id, e, x))) <= Symbols(s)
  {
    hide FillPosition, PositionAt, Signed, FillOrder, Coherent;
    if Resolve(s, id) in s.orders {
      FillKeepsId(s.orders[Resolve(s, id)], e.price, e.quantity);
    }
  }

  lemma ReplySymbols(s: State, fill: FillEntry, spare: string)
    requires Ready(s)
    ensures Symbols(ApplyReply(s, fill, spare)) <= Symbols(s) + {fill.symbol}
  {
    hide Step, BooksNothing, Symbols, Coherent;
    if BooksNothing(s, fill.orderId) {
      match ByExchangeId(s, fill.orderId)
      case Some(order) => FillSymbols(s, order.id, fill, EventFor(fill));
      case None =>
        var o := Recovered(fill, spare);
        UpsertSymbols(s, o);
        UpsertReady(s, o);
        FillSymbols(Step(s, Upsert(o)), o.id, fill, EventFor(fill));
    }
  }

  lemma {:induction false} SymbolPassSymbols(s: State, orders: seq<Order>, fills: seq<FillEntry>, y: string,
                                             spare: string)
    requires Ready(s) && (forall o :: o in orders ==> o.symbol == y) && (forall f :: f in fills ==> f.symbol == y)
    ensures Symbols(UpsertAll(s, orders)) <= Symbols(s) + {y} && Ready(UpsertAll(s, orders))
    ensures Symbols(ApplyReplies(UpsertAll(s, orders), fills, spare)) <= Symbols(s) + {y}
    ensures Ready(ApplyReplies(UpsertAll(s, orders), fills, spare))
    decreases |orders|, |fills|
  {
    hide Step, Ready, Symbols, ApplyReply;
    if fills != [] {
      var rest, last := fills[..|fills|-1], fills[|fills|-1];
      assert last in fills;
      SymbolPassSymbols(s, orders, rest, y, spare);
      ReplySymbols(ApplyReplies(UpsertAll(s, orders), rest, spare), last, spare);
      ReplyReady(ApplyReplies(UpsertAll(s, orders), rest, spare), last, spare);
    } else if orders != [] {
      var rest, last := orders[..|orders|-1], orders[|orders|-1];
      assert last in orders;
      SymbolPassSymbols(s, rest, [], y, spare);
      UpsertSymbols(UpsertAll(s, rest), last);
      UpsertReady(UpsertAll(s, rest), last);
    }
  }

  /** With labelled replies a pass makes no further symbol active, so the next pass covers no new one. */
  lemma {:induction false} PassActivatesNothing(s: State, r: Replies, symbols: seq<string>, spare: string)
    requires Ready(s) && forall y :: y in symbols ==> Labelled(r, y)
    ensures Ready(Pass(s, r, symbols, spare))
    ensures Symbols(Pass(s, r, symbols, spare)) <= Symbols(s) + set y | y in symbols
  {
    hide Ready, Symbols, UpsertAll, ApplyReplies, OrdersFor, FillsFor;
    if symbols != [] {
      var rest, y := symbols[..|symbols|-1], symbols[|symbols|-1];
      PassActivatesNothing(s, r, rest, spare);
      assert Labelled(r, y);
      SymbolPassSymbols(Pass(s, r, rest, spare), OrdersFor(r, y), FillsFor(r, y), y, spare);
    }
  }

  lemma SetAllSymbols(s: State, positions: seq<Position>)
    requires Ready(s)
    ensures Symbols(SetAll(s, positions)) == Symbols(s)
  {
    SetAllKeepsLogs(s, positions);
  }

  /**
   Two passes with the same labelled replies, each over its own active symbols in any order: the second
   appends nothing to either log and restores every reported position.
   */
  lemma RepeatedBootAddsNothing(s: State, r: Replies, first: seq<string>, second: seq<string>, spare: string,
                                spare': string)
    requires Ready(s) && PassAttributable(s, r, first) && NonZeroFills(r, first)
    requires Covers(first, Active(SetAll(s, r.positions), r.positions))
    requires forall y :: y in first ==> Labelled(r, y)
    requires var a := Pass(SetAll(s, r.positions), r, first, spare);
             Covers(second, Active(SetAll(a, r.positions), r.positions))
    ensures var a := Pass(SetAll(s, r.positions), r, first, spare);
            var b := Pass(SetAll(a, r.positions), r, second, spare');
            && b.ledger == a.ledger && b.executions == a.executions
            && (DistinctSymbols(r.positions) ==>
                  forall k :: 0 <= k < |r.positions| ==> PositionAt(b, r.positions[k].symbol) == r.positions[k])
  {
    hide Ready, Pass, SetAll, NonZeroFills, PassAttributable, DistinctSymbols, Labelled, Symbols;
    var s0 := SetAll(s, r.positions);
    var a := Pass(s0, r, first, spare);
    SetAllKeepsLogs(s, r.positions);
    SetAllSymbols(s, r.positions);
    PassActivatesNothing(s0, r, first, spare);
    SetAllSymbols(a, r.positions);
    ActiveIs(s0, r.positions);
    ActiveIs(SetAll(a, r.positions), r.positions);
    SecondPassAddsNothing(s, r, first, second, spare, spare');
  }

  lemma ActiveIs(s: State, positions: seq<Position>)
    ensures Active(s, positions) == (set p | p in positions :: p.symbol) + Symbols(s) - {""}
  {
  }

  lemma StepReady(s: State, op: Op)
    requires Ready(s)
    ensures Ready(Step(s, op))
  {
    hide Coherent, FillOrder, FillPosition, PositionAt, Signed, Terminal;
    StepCoherent(s, op);
  }

  /** Every store built by store steps is ready. */
  lemma {:induction false} RunReady(ops: seq<Op>)
    ensures Ready(Run(EMPTY, ops))
  {
    hide Step, Coherent;
    if ops == [] {
      EmptyCoherent();
    } else {
      RunReady(ops[..|ops|-1]);
      StepReady(Run(EMPTY, ops[..|ops|-1]), ops[|ops|-1]);
    }
  }

  // ----- what the pass fails to recover -----

  function Total(fills: seq<FillEntry>, id: string): real {
    if fills == [] then 0.0
    else Total(fills[..|fills|-1], id) + if fills[|fills|-1].orderId == id then fills[|fills|-1].quantity else 0.0
  }

  function Count(fills: seq<FillEntry>, id: string): nat {
    if fills == [] then 0
    else Count(fills[..|fills|-1], id) + if fills[|fills|-1].orderId == id then 1 else 0
  }

  /** The quantity of the first fill of an order in the reply. */
  function FirstQuantity(fills: seq<FillEntry>, id: string): real {
    if fills == [] then 0.0
    else if Count(fills[..|fills|-1], id) > 0 then FirstQuantity(fills[..|fills|-1], id)
    else if fills[|fills|-1].orderId == id then fills[|fills|-1].quantity
    else 0.0
  }

  lemma {:induction false} FirstAgainstTotal(fills: seq<FillEntry>, id: string)
    requires forall k :: 0 <= k < |fills| ==> fills[k].quantity > 0.0
    ensures FirstQuantity(fills, id) <= Total(fills, id)
    ensures Count(fills, id) > 0 ==> FirstQuantity(fills, id) > 0.0
    ensures Count(fills, id) == 0 ==> FirstQuantity(fills, id) == 0.0
    ensures FirstQuantity(fills, id) == Total(fills, id) <==> Count(fills, id) <= 1
  {
    if fills != [] {
      FirstAgainstTotal(fills[..|fills|-1], id);
    }
  }

  /**
   The pass books only the first fill of an order that had nothing booked: afterwards the ledger holds
   that fill's quantity, which is the order's whole traded quantity exactly when the reply has one fill for it.
   */
  lemma {:induction false} OnlyFirstFillRecovered(s: State, fills: seq<FillEntry>, spare: string, id: string)
    requires Ready(s) && AllAttributable(s, fills) && BooksNothing(s, id)
    requires forall k :: 0 <= k < |fills| ==> fills[k].quantity > 0.0
    ensures var t := ApplyReplies(s, fills, spare);
            && Ready(t) && ("" !in s.idempotency ==> "" !in t.idempotency)
            && QtyOf(LedgerSums(t.ledger), id) == FirstQuantity(fills, id)
            && (QtyOf(LedgerSums(t.ledger), id) == Total(fills, id) <==> Count(fills, id) <= 1)
  {
    hide ApplyReply, LedgerSums, Ready, Attributable, QtyOf;
    FirstAgainstTotal(fills, id);
    if fills != [] {
      var rest, last := fills[..|fills|-1], fills[|fills|-1];
      var t := ApplyReplies(s, rest, spare);
      assert AllAttributable(s, rest) by {
        forall k | 0 <= k < |rest| ensures Attributable(s, rest[k]) { assert rest[k] == fills[k]; }
      }
      OnlyFirstFillRecovered(s, rest, spare, id);
      FirstAgainstTotal(rest, id);
      assert Attributable(s, last);
      AttributableStays(s, t, last);
      ReplyReady(t, last, spare);
      ReplyBooks(t, last, spare);
      SumsAppend(t.ledger, last, id);
    }
  }

  lemma AttributableStays(s: State, t: State, fill: FillEntry)
    requires Attributable(s, fill) && ("" !in s.idempotency ==> "" !in t.idempotency)
    ensures Attributable(t, fill)
  {
  }

  // ----- what the pass does to positions -----

  /** The store at the moment a reply's fill is booked: a fill without an order gets one first. */
  function Prepared(s: State, fill: FillEntry, spare: string): State {
    if ByExchangeId(s, fill.orderId).Some? then s else Step(s, Upsert(Recovered(fill, spare)))
  }

  /** The order a reply's fill is booked to, known or recovered. */
  function BookedTo(s: State, fill: FillEntry, spare: string): Order {
    var known := ByExchangeId(s, fill.orderId);
    var t := Prepared(s, fill, spare);
    OrderAt(t, Resolve(t, if known.Some? then known.value.id else Recovered(fill, spare).id))
  }

  /** The reply is booked to an order of this symbol. */
  predicate Moves(s: State, fill: FillEntry, spare: string, symbol: string) {
    BooksNothing(s, fill.orderId) && BookedTo(s, fill, spare).symbol == symbol
  }

  /** How far it moves that symbol's position. */
  function Move(s: State, fill: FillEntry, spare: string): real {
    Signed(BookedTo(s, fill, spare).side, fill.quantity)
  }

  lemma ReplyPosition(s: State, fill: FillEntry, spare: string, symbol: string)
    requires Ready(s) && Attributable(s, fill)
    ensures var t := ApplyReply(s, fill, spare);
            PositionAt(t, symbol)
            == if Moves(s, fill, spare, symbol)
               then FillPosition(PositionAt(s, symbol), symbol, Move(s, fill, spare), fill.price, fill.quantity)
               else PositionAt(s, symbol)
  {
    hide FillPosition, FillOrder, Signed, BooksNothing, Recovered, Coherent;
    if BooksNothing(s, fill.orderId) {
      var u := Prepared(s, fill, spare);
      var known := ByExchangeId(s, fill.orderId);
      var id := if known.Some? then known.value.id else Recovered(fill, spare).id;
      UpsertLogs(s, Recovered(fill, spare));
      if known.Some? {
        KnownResolves(s, fill);
      } else {
        RecoveredResolves(s, fill, spare);
      }
      FillKeepsId(BookedTo(s, fill, spare), fill.price, fill.quantity);
      assert ApplyReply(s, fill, spare) == Step(u, Fill(id, fill, EventFor(fill)));
      assert u.positions == s.positions;
    }
  }

  lemma KnownResolves(s: State, fill: FillEntry)
    requires Ready(s) && ByExchangeId(s, fill.orderId).Some?
    ensures Resolve(s, ByExchangeId(s, fill.orderId).value.id) in s.orders
  {
  }

  /**
   A missing fill whose order is unknown gets an order of its own.  That order is found again under the fill's order id,
   carries the fill's symbol, side and quantity, and is complete at once; the fill's symbol is the one that moves, by
   the quantity signed with the fill's own side, and no other position changes.
   */
  lemma RecoveredAsFilled(s: State, fill: FillEntry, spare: string, other: string)
    requires Ready(s) && Attributable(s, fill) && BooksNothing(s, fill.orderId) && ByExchangeId(s, fill.orderId).None?
    requires fill.orderId == "" ==> spare !in s.exchangeIds
    ensures var t := ApplyReply(s, fill, spare);
            var id := Resolve(t, if fill.orderId != "" then fill.orderId else spare);
            && id in t.orders
            && var o := t.orders[id];
            && o.exchangeId == o.key == fill.orderId && o.symbol == fill.symbol && o.side == fill.side
            && o.size == o.filled == fill.quantity && o.status == Filled
            && (fill.quantity > 0.0 ==> o.avgFillPrice == fill.price)
    ensures PositionAt(ApplyReply(s, fill, spare), fill.symbol)
            == FillPosition(PositionAt(s, fill.symbol), fill.symbol,
                            if fill.side == Buy then fill.quantity else -fill.quantity, fill.price, fill.quantity)
    ensures other != fill.symbol ==> PositionAt(ApplyReply(s, fill, spare), other) == PositionAt(s, other)
    ensures Move(s, fill, spare) == if fill.side == Buy then fill.quantity else -fill.quantity
  {
    hide FillPosition, FillOrder, Coherent, BooksNothing, Signed;
    var o := Recovered(fill, spare);
    var t := Step(s, Upsert(o));
    UpsertLogs(s, o);
    RecoveredFound(s, fill, spare);
    var found := t.orders[Resolve(t, o.id)];
    FillMeans(found, fill.price, fill.quantity);
    FreshAverage(found, fill.price, fill.quantity);
    SignedQuantity(fill.quantity);
  }

  /** The recovered order is found again under the id its fill will be booked to, as it was recovered. */
  lemma RecoveredFound(s: State, fill: FillEntry, spare: string)
    requires Ready(s) && Attributable(s, fill)
    requires fill.orderId == "" ==> spare !in s.exchangeIds
    ensures var o := Recovered(fill, spare);
            var t := Step(s, Upsert(o));
            var id := Resolve(t, o.id);
            && o.id == (if fill.orderId != "" then fill.orderId else spare)
            && id in t.orders && t.orders[id].id == id && t.orders[id] == o.(id := id)
  {
    RecoveredResolves(s, fill, spare);
  }

  lemma FreshAverage(o: Order, price: real, quantity: real)
    requires o.filled == o.avgFillPrice == 0.0
    ensures quantity > 0.0 ==> FillOrder(o, price, quantity).avgFillPrice == price
  {
    if quantity > 0.0 {
      assert price * quantity / quantity == price;
    }
  }

  /**
   For every reply, whether its order is known or has to be recovered: the position it concerns stays as reported
   exactly when the order had something booked, or the fill is nothing to a position (empty, or within the cut-off
   on a flat one).  Every other missing fill is added on top of the position that already contains it.
   */
  lemma MissingFillCountsTwice(s: State, p: Position, fill: FillEntry, spare: string)
    requires Ready(s) && Attributable(s, fill) && p.symbol == BookedTo(Step(s, SetPosition(p)), fill, spare).symbol
    ensures var t := ApplyReply(Step(s, SetPosition(p)), fill, spare);
            PositionAt(t, p.symbol).size == p.size
            <==> !BooksNothing(s, fill.orderId) || (fill.quantity == 0.0 && AbsR(p.size) >= FLAT)
                 || (p.size == 0.0 && AbsR(fill.quantity) < FLAT)
  {
    hide FillPosition, Coherent, Signed, BookedTo, LedgerSums;
    var u := Step(s, SetPosition(p));
    PositionCoherent(s, p);
    ReplyPosition(u, fill, spare, p.symbol);
    var side := BookedTo(u, fill, spare).side;
    SignedSize(side, fill.quantity);
    FillMovesIff(p, p.symbol, Signed(side, fill.quantity), fill.price, fill.quantity);
  }

  lemma SignedSize(side: Side, quantity: real)
    ensures AbsR(Signed(side, quantity)) == AbsR(quantity) && (Signed(side, quantity) == 0.0 <==> quantity == 0.0)
  {
  }

  lemma FillMovesIff(p: Position, symbol: string, signed: real, price: real, quantity: real)
    ensures FillPosition(p, symbol, signed, price, quantity).size == p.size
            <==> (signed == 0.0 && AbsR(p.size) >= FLAT) || (p.size == 0.0 && AbsR(signed) < FLAT)
  {
  }

  /** The signed sum of what a reply's fills move a symbol's position by, and how many of them do. */
  function MovedBy(s: State, fills: seq<FillEntry>, spare: string, symbol: string): real {
    if fills == [] then 0.0
    else
      var t, last := ApplyReplies(s, fills[..|fills|-1], spare), fills[|fills|-1];
      MovedBy(s, fills[..|fills|-1], spare, symbol)
      + if Moves(t, last, spare, symbol) then Move(t, last, spare) else 0.0
  }

  function MoveCount(s: State, fills: seq<FillEntry>, spare: string, symbol: string): nat {
    if fills == [] then 0
    else
      var t, last := ApplyReplies(s, fills[..|fills|-1], spare), fills[|fills|-1];
      MoveCount(s, fills[..|fills|-1], spare, symbol) + if Moves(t, last, spare, symbol) then 1 else 0
  }

  function PassMovedBy(s: State, r: Replies, symbols: seq<string>, spare: string, symbol: string): real {
    if symbols == [] then 0.0
    else
      var rest, y := symbols[..|symbols|-1], symbols[|symbols|-1];
      PassMovedBy(s, r, rest, spare, symbol)
      + MovedBy(UpsertAll(Pass(s, r, rest, spare), OrdersFor(r, y)), FillsFor(r, y), spare, symbol)
  }

  function PassMoveCount(s: State, r: Replies, symbols: seq<string>, spare: string, symbol: string): nat {
    if symbols == [] then 0
    else
      var rest, y := symbols[..|symbols|-1], symbols[|symbols|-1];
      PassMoveCount(s, r, rest, spare, symbol)
      + MoveCount(UpsertAll(Pass(s, r, rest, spare), OrdersFor(r, y)), FillsFor(r, y), spare, symbol)
  }

  /** A whole number of lots. */
  ghost predicate OnGrid(v: real, lot: real) {
    exists k: int :: v == Lots(k, lot)
  }

  function Lots(k: int, lot: real): real {
    k as real * lot
  }

  lemma GridSum(a: real, b: real, lot: real)
    requires OnGrid(a, lot) && OnGrid(b, lot)
    ensures OnGrid(a + b, lot) && OnGrid(-a, lot) && OnGrid(0.0, lot)
  {
    var j, k :| a == Lots(j, lot) && b == Lots(k, lot);
    assert Lots(j + k, lot) == a + b;
    assert Lots(-j, lot) == -a;
    assert Lots(0, lot) == 0.0;
  }

  /** Lots at least as large as the cut-off are never taken for nothing. */
  lemma GridAboveCut(v: real, lot: real)
    requires OnGrid(v, lot) && FLAT <= lot && AbsR(v) < FLAT
    ensures v == 0.0
  {
    var k :| v == Lots(k, lot);
    LotSize(k, lot);
  }

  lemma LotSize(k: int, lot: real)
    requires lot > 0.0
    ensures if k == 0 then Lots(k, lot) == 0.0 else AbsR(Lots(k, lot)) >= lot
  {
    if k >= 1 {
      ProductSign((k - 1) as real, lot);
      assert Lots(k, lot) == (k - 1) as real * lot + lot;
    } else if k <= -1 {
      ProductSign((-1 - k) as real, lot);
      assert -Lots(k, lot) == (-1 - k) as real * lot + lot;
    }
  }

  /** What is said of a position that started at `from` and was to move by `sum` in `n` fills. */
  ghost predicate Drifted(from: real, to: real, sum: real, n: nat) {
    AbsR(to - from - sum) <= n as real * FLAT
  }

  lemma DriftOne(p: Position, symbol: string, signed: real, price: real, quantity: real, lot: real)
    ensures AbsR(FillPosition(p, symbol, signed, price, quantity).size - p.size - signed) <= FLAT
    ensures FLAT <= lot && OnGrid(p.size, lot) && OnGrid(signed, lot) ==>
              FillPosition(p, symbol, signed, price, quantity).size == p.size + signed
  {
    if FLAT <= lot && OnGrid(p.size, lot) && OnGrid(signed, lot) {
      GridSum(p.size, signed, lot);
      if AbsR(p.size + signed) < FLAT {
        GridAboveCut(p.size + signed, lot);
      }
    }
  }

  lemma DriftChain(from: real, mid: real, to: real, a: real, b: real, m: nat, n: nat)
    requires Drifted(from, mid, a, m) && Drifted(mid, to, b, n)
    ensures Drifted(from, to, a + b, m + n) && Drifted(from, from, 0.0, 0)
  {
    assert (m + n) as real * FLAT == m as real * FLAT + n as real * FLAT;
  }

  lemma ReplyDrifts(s: State, fill: FillEntry, spare: string, symbol: string, lot: real)
    requires Ready(s) && Attributable(s, fill)
    ensures var t := ApplyReply(s, fill, spare);
            var n := if Moves(s, fill, spare, symbol) then 1 else 0;
            var sum := if Moves(s, fill, spare, symbol) then Move(s, fill, spare) else 0.0;
            && Drifted(PositionAt(s, symbol).size, PositionAt(t, symbol).size, sum, n)
            && (FLAT <= lot && OnGrid(PositionAt(s, symbol).size, lot) && OnGrid(fill.quantity, lot) ==>
                  PositionAt(t, symbol).size == PositionAt(s, symbol).size + sum && OnGrid(sum, lot)
                  && OnGrid(PositionAt(t, symbol).size, lot))
  {
    hide Moves, Move, ApplyReply, FillPosition, PositionAt, OnGrid, Ready, Attributable;
    ReplyPosition(s, fill, spare, symbol);
    DriftOne(PositionAt(s, symbol), symbol, Move(s, fill, spare), fill.price, fill.quantity, lot);
    if OnGrid(fill.quantity, lot) && OnGrid(PositionAt(s, symbol).size, lot) {
      MoveOnGrid(s, fill, spare, lot);
      GridSum(PositionAt(s, symbol).size, Move(s, fill, spare), lot);
    }
  }

  lemma MoveOnGrid(s: State, fill: FillEntry, spare: string, lot: real)
    requires OnGrid(fill.quantity, lot)
    ensures OnGrid(Move(s, fill, spare), lot)
  {
    hide OnGrid, BookedTo;
    GridSum(fill.quantity, fill.quantity, lot);
  }

  ghost predicate FillsOnGrid(fills: seq<FillEntry>, lot: real) {
    forall k :: 0 <= k < |fills| ==> OnGrid(fills[k].quantity, lot)
  }

  /** The fills are all attributable and, if the lot is that large, all sizes are whole lots. */
  lemma {:induction false} RepliesDrift(s: State, fills: seq<FillEntry>, spare: string, symbol: string, lot: real)
    requires Ready(s) && AllAttributable(s, fills)
    ensures var t := ApplyReplies(s, fills, spare);
            && Ready(t) && ("" !in s.idempotency ==> "" !in t.idempotency)
            && Drifted(PositionAt(s, symbol).size, PositionAt(t, symbol).size, MovedBy(s, fills, spare, symbol),
                       MoveCount(s, fills, spare, symbol))
            && (FLAT <= lot && OnGrid(PositionAt(s, symbol).size, lot) && FillsOnGrid(fills, lot) ==>
                  PositionAt(t, symbol).size == PositionAt(s, symbol).size + MovedBy(s, fills, spare, symbol)
                  && OnGrid(PositionAt(t, symbol).size, lot))
  {
    hide ApplyReply, Ready, Attributable, PositionAt, Moves, Move, OnGrid, Drifted;
    var from := PositionAt(s, symbol).size;
    DriftNone(from);
    if fills != [] {
      var rest, last := fills[..|fills|-1], fills[|fills|-1];
      var t := ApplyReplies(s, rest, spare);
      assert Attributable(s, last);
      assert AllAttributable(s, rest) by {
        forall k | 0 <= k < |rest| ensures Attributable(s, rest[k]) { assert rest[k] == fills[k]; }
      }
      RepliesDrift(s, rest, spare, symbol, lot);
      AttributableStays(s, t, last);
      ReplyReady(t, last, spare);
      ReplyDrifts(t, last, spare, symbol, lot);
      var moved := Moves(t, last, spare, symbol);
      DriftChain(from, PositionAt(t, symbol).size, PositionAt(ApplyReply(t, last, spare), symbol).size,
                 MovedBy(s, rest, spare, symbol), if moved then Move(t, last, spare) else 0.0,
                 MoveCount(s, rest, spare, symbol), if moved then 1 else 0);
    }
  }

  lemma DriftNone(from: real)
    ensures Drifted(from, from, 0.0, 0)
  {
  }

  ghost predicate PassOnGrid(r: Replies, symbols: seq<string>, lot: real) {
    forall y :: y in symbols ==> FillsOnGrid(FillsFor(r, y), lot)
  }

  lemma {:induction false} PassDrifts(s: State, r: Replies, symbols: seq<string>, spare: string, symbol: string,
                                      lot: real)
    requires Ready(s) && PassAttributable(s, r, symbols)
    ensures var t := Pass(s, r, symbols, spare);
            && Ready(t) && ("" !in s.idempotency ==> "" !in t.idempotency)
            && Drifted(PositionAt(s, symbol).size, PositionAt(t, symbol).size,
                       PassMovedBy(s, r, symbols, spare, symbol), PassMoveCount(s, r, symbols, spare, symbol))
            && (FLAT <= lot && OnGrid(PositionAt(s, symbol).size, lot) && PassOnGrid(r, symbols, lot) ==>
                  PositionAt(t, symbol).size == PositionAt(s, symbol).size + PassMovedBy(s, r, symbols, spare, symbol)
                  && OnGrid(PositionAt(t, symbol).size, lot))
  {
    hide Ready, AllAttributable, UpsertAll, ApplyReplies, FillsFor, OrdersFor, Drifted, OnGrid, FillsOnGrid, MovedBy,
         MoveCount;
    var from := PositionAt(s, symbol).size;
    DriftNone(from);
    if symbols != [] {
      var rest, y := symbols[..|symbols|-1], symbols[|symbols|-1];
      var t := Pass(s, r, rest, spare);
      var u := UpsertAll(t, OrdersFor(r, y));
      PassDrifts(s, r, rest, spare, symbol, lot);
      UpsertsKeepLogs(t, OrdersFor(r, y));
      StillAttributable(s, u, FillsFor(r, y));
      RepliesDrift(u, FillsFor(r, y), spare, symbol, lot);
      DriftChain(from, PositionAt(t, symbol).size, PositionAt(ApplyReplies(u, FillsFor(r, y), spare), symbol).size,
                 PassMovedBy(s, r, rest, spare, symbol), MovedBy(u, FillsFor(r, y), spare, symbol),
                 PassMoveCount(s, r, rest, spare, symbol), MoveCount(u, FillsFor(r, y), spare, symbol));
    }
  }

  /**
   After a whole pass a reported position is off by the signed sum of the missing fills booked to its symbol, within
   one cut-off per fill; with sizes in whole lots it is off by exactly that sum, so it is as reported exactly when
   nothing was missing for it or the missing fills cancel.
   */
  lemma PassDriftsBySum(s: State, r: Replies, symbols: seq<string>, spare: string, k: nat, lot: real)
    requires Ready(s) && PassAttributable(s, r, symbols) && DistinctSymbols(r.positions) && k < |r.positions|
    ensures var s0, p := SetAll(s, r.positions), r.positions[k];
            var t, sum := Pass(s0, r, symbols, spare), PassMovedBy(s0, r, symbols, spare, p.symbol);
            && AbsR(PositionAt(t, p.symbol).size - p.size - sum)
               <= PassMoveCount(s0, r, symbols, spare, p.symbol) as real * FLAT
            && (FLAT <= lot && OnGrid(p.size, lot) && PassOnGrid(r, symbols, lot) ==>
                  PositionAt(t, p.symbol).size == p.size + sum
                  && (PositionAt(t, p.symbol).size == p.size <==> sum == 0.0))
            && (PassMoveCount(s0, r, symbols, spare, p.symbol) == 0 ==>
                  PositionAt(t, p.symbol).size == p.size && sum == 0.0)
  {
    hide Ready, AllAttributable, Pass, SetAll, FillsFor, OnGrid, FillsOnGrid, PassMovedBy, PassMoveCount,
         DistinctSymbols, PositionAt;
    var s0, p := SetAll(s, r.positions), r.positions[k];
    SetAllKeepsLogs(s, r.positions);
    SetAllSets(s, r.positions, k);
    forall y | y in symbols ensures AllAttributable(s0, FillsFor(r, y)) {
      StillAttributable(s, s0, FillsFor(r, y));
    }
    PassDrifts(s0, r, symbols, spare, p.symbol, lot);
    NoMoveNoSum(s0, r, symbols, spare, p.symbol);
  }

  lemma {:induction false} NoMoveNoSum(s: State, r: Replies, symbols: seq<string>, spare: string, symbol: string)
    ensures PassMoveCount(s, r, symbols, spare, symbol) == 0 ==> PassMovedBy(s, r, symbols, spare, symbol) == 0.0
  {
    hide Pass, UpsertAll, FillsFor, OrdersFor, MovedBy, MoveCount;
    if symbols != [] {
      var rest, y := symbols[..|symbols|-1], symbols[|symbols|-1];
      NoMoveNoSum(s, r, rest, spare, symbol);
      NoReplyNoSum(UpsertAll(Pass(s, r, rest, spare), OrdersFor(r, y)), FillsFor(r, y), spare, symbol);
    }
  }

  lemma {:induction false} NoReplyNoSum(s: State, fills: seq<FillEntry>, spare: string, symbol: string)
    ensures MoveCount(s, fills, spare, symbol) == 0 ==> MovedBy(s, fills, spare, symbol) == 0.0
  {
    hide ApplyReplies, Moves, Move;
    if fills != [] {
      NoReplyNoSum(s, fills[..|fills|-1], spare, symbol);
    }
  }

  // ----- what the report counts -----

  predicate PositionDrifted(local: Position, p: Position) {
    local.symbol != "" && (local.size != p.size || local.avgPrice != p.avgPrice)
  }

  /** Reported positions that differ from what the store held when they were set. */
  function DriftCount(s: State, positions: seq<Position>): nat {
    if positions == [] then 0
    else
      var rest, p := positions[..|positions|-1], positions[|positions|-1];
      DriftCount(s, rest) + if PositionDrifted(PositionAt(SetAll(s, rest), p.symbol), p) then 1 else 0
  }

  predicate KnownKey(s: State, key: string) {
    key in s.idempotency && s.idempotency[key] in s.orders
  }

  /** Open orders of a symbol whose key the store did not know when they were filed. */
  function OrphanCount(s: State, orders: seq<Order>): nat {
    if orders == [] then 0
    else
      OrphanCount(s, orders[..|orders|-1])
      + if KnownKey(UpsertAll(s, orders[..|orders|-1]), orders[|orders|-1].key) then 0 else 1
  }

  /** Fills whose order had nothing booked when the replay came to them. */
  function MissingCount(s: State, fills: seq<FillEntry>, spare: string): nat {
    if fills == [] then 0
    else
      MissingCount(s, fills[..|fills|-1], spare)
      + if BooksNothing(ApplyReplies(s, fills[..|fills|-1], spare), fills[|fills|-1].orderId) then 1 else 0
  }

  function PassOrphans(s: State, r: Replies, symbols: seq<string>, spare: string): nat {
    if symbols == [] then 0
    else
      PassOrphans(s, r, symbols[..|symbols|-1], spare)
      + OrphanCount(Pass(s, r, symbols[..|symbols|-1], spare), OrdersFor(r, symbols[|symbols|-1]))
  }

  function PassMissing(s: State, r: Replies, symbols: seq<string>, spare: string): nat {
    if symbols == [] then 0
    else
      var rest, y := symbols[..|symbols|-1], symbols[|symbols|-1];
      PassMissing(s, r, rest, spare) + MissingCount(UpsertAll(Pass(s, r, rest, spare), OrdersFor(r, y)),
                                                    FillsFor(r, y), spare)
  }

  /** Every missing fill of attributable replies is one entry of the ledger. */
  lemma {:induction false} MissingAreBooked(s: State, fills: seq<FillEntry>, spare: string)
    requires Ready(s) && AllAttributable(s, fills)
    ensures var t := ApplyReplies(s, fills, spare);
            && Ready(t) && ("" !in s.idempotency ==> "" !in t.idempotency)
            && |t.ledger| == |s.ledger| + MissingCount(s, fills, spare)
  {
    hide ApplyReply, Ready, Attributable, BooksNothing;
    if fills != [] {
      var rest, last := fills[..|fills|-1], fills[|fills|-1];
      var t := ApplyReplies(s, rest, spare);
      assert Attributable(s, last);
      assert AllAttributable(s, rest) by {
        forall k | 0 <= k < |rest| ensures Attributable(s, rest[k]) { assert rest[k] == fills[k]; }
      }
      MissingAreBooked(s, rest, spare);
      AttributableStays(s, t, last);
      ReplyReady(t, last, spare);
      ReplyBooks(t, last, spare);
    }
  }

  // ----- the pass as the client runs it -----

  /** Appends the names not met before, in order, skipping the empty one. */
  function Collect(seen: seq<string>, names: seq<string>): seq<string> {
    if names == [] then seen
    else
      var past, y := Collect(seen, names[..|names|-1]), names[|names|-1];
      if y == "" || y in past then past else past + [y]
  }

  ghost predicate NoRepeats(names: seq<string>) {
    forall i, j :: 0 <= i < j < |names| ==> names[i] != names[j]
  }

  lemma {:induction false} CollectFacts(seen: seq<string>, names: seq<string>)
    ensures NoRepeats(seen) ==> NoRepeats(Collect(seen, names))
    ensures forall y :: y in Collect(seen, names) <==> y in seen || (y != "" && y in names)
  {
    if names != [] {
      CollectFacts(seen, names[..|names|-1]);
      assert names == names[..|names|-1] + [names[|names|-1]];
    }
  }

  function PositionSymbols(positions: seq<Position>): seq<string> {
    seq(|positions|, i requires 0 <= i < |positions| => positions[i].symbol)
  }

  function OrderSymbols(orders: seq<Order>): seq<string> {
    seq(|orders|, i requires 0 <= i < |orders| => orders[i].symbol)
  }

  /** The symbols with a position or an order, without repeats, positions first. */
  method ActiveSymbols(positions: seq<Position>, orders: seq<Order>) returns (out: seq<string>)
    ensures out == Collect(Collect([], PositionSymbols(positions)), OrderSymbols(orders)) && NoRepeats(out)
    ensures forall y :: y in out <==> y != ""
                                      && (y in (set p | p in positions :: p.symbol)
                                          || y in (set o | o in orders :: o.symbol))
  {
    out := [];
    var held, ordered := PositionSymbols(positions), OrderSymbols(orders);
    for i := 0 to |positions|
      invariant out == Collect([], held[..i])
    {
      assert held[..i+1][..i] == held[..i];
      if positions[i].symbol != "" && positions[i].symbol !in out {
        out := out + [positions[i].symbol];
      }
    }
    assert held[..|held|] == held;
    ghost var first := out;
    for i := 0 to |orders|
      invariant out == Collect(first, ordered[..i])
    {
      assert ordered[..i+1][..i] == ordered[..i];
      if orders[i].symbol != "" && orders[i].symbol !in out {
        out := out + [orders[i].symbol];
      }
    }
    assert ordered[..|ordered|] == ordered;
    CollectFacts([], held);
    CollectFacts(first, ordered);
    SymbolsListed(positions, orders);
  }

  lemma SymbolsListed(positions: seq<Position>, orders: seq<Order>)
    ensures forall y :: y in PositionSymbols(positions) <==> y in (set p | p in positions :: p.symbol)
    ensures forall y :: y in OrderSymbols(orders) <==> y in (set o | o in orders :: o.symbol)
  {
    forall k | 0 <= k < |positions| ensures positions[k].symbol in PositionSymbols(positions) {
      assert PositionSymbols(positions)[k] == positions[k].symbol;
    }
    forall k | 0 <= k < |orders| ensures orders[k].symbol in OrderSymbols(orders) {
      assert OrderSymbols(orders)[k] == orders[k].symbol;
    }
  }

  /** One listing of the stored orders. */
  method ListOrders(store: OrderStore) returns (out: seq<Order>)
    ensures forall id :: id in store.orders ==> store.orders[id] in out
    ensures forall o :: o in out ==> exists id :: id in store.orders && store.orders[id] == o
    ensures |out| == |store.orders|
  {
    out := [];
    var todo := store.orders.Keys;
    while todo != {}
      invariant todo <= store.orders.Keys
      invariant forall id :: id in store.orders && id !in todo ==> store.orders[id] in out
      invariant forall o :: o in out ==> exists id :: id in store.orders && store.orders[id] == o
      invariant |out| + |todo| == |store.orders.Keys|
      decreases |todo|
    {
      var id :| id in todo;
      out := out + [store.orders[id]];
      todo := todo - {id};
    }
  }

  /** The fills of one symbol, each against the store's own reconciliation status. */
  method ReplayFills(store: OrderStore, fills: seq<FillEntry>, spare: string) returns (missing: nat)
    requires Ready(store.View())
    modifies store
    ensures store.View() == ApplyReplies(old(store.View()), fills, spare) && Ready(store.View())
    ensures missing == MissingCount(old(store.View()), fills, spare)
    ensures AllAttributable(old(store.View()), fills) ==> |store.ledger| == |old(store.ledger)| + missing
  {
    hide Step, Ready, LedgerSums;
    missing := 0;
    ghost var s0 := store.View();
    for i := 0 to |fills|
      invariant store.View() == ApplyReplies(s0, fills[..i], spare) && Ready(store.View())
      invariant missing == MissingCount(s0, fills[..i], spare)
    {
      var fill := fills[i];
      ghost var s := store.View();
      ReplyReady(s, fill, spare);
      assert fills[..i+1][..i] == fills[..i];
      var recon := store.Reconciliation();
      if QtyOf(recon.ledgerQtyByOrder, fill.orderId) == 0.0 {
        missing := missing + 1;
        var order: Order;
        if fill.orderId in store.exchangeIds && store.exchangeIds[fill.orderId] in store.orders {
          order := store.orders[store.exchangeIds[fill.orderId]];
        } else {
          order := Recovered(fill, spare);
          store.UpsertOrder(order);
        }
        var _ := store.ApplyExternalFill(order.id, fill, EventFor(fill));
      }
    }
    assert fills[..|fills|] == fills;
    if AllAttributable(s0, fills) {
      MissingAreBooked(s0, fills, spare);
    }
  }

  /** `Reconcile`: the report starts out matched and is never set otherwise, whatever drifted. */
  method Reconcile(store: OrderStore, r: Replies, spare: string) returns (report: Report, ghost symbols: seq<string>)
    requires Ready(store.View())
    modifies store
    ensures Covers(symbols, Active(SetAll(old(store.View()), r.positions), r.positions))
    ensures store.View() == Pass(SetAll(old(store.View()), r.positions), r, symbols, spare)
    ensures report == Report(
      true, PassMissing(SetAll(old(store.View()), r.positions), r, symbols, spare),
      PassOrphans(SetAll(old(store.View()), r.positions), r, symbols, spare),
      DriftCount(old(store.View()), r.positions))
  {
    hide Step, Ready, FillsFor, OrdersFor, UpsertAll, ApplyReplies, OrphanCount, MissingCount, SetAll, DriftCount,
         BooksNothing;
    var drift := ReconcilePositions(store, r.positions);
    report := Report(true, 0, 0, drift);
    ghost var s0 := store.View();
    var listed := ListOrders(store);
    var active := ActiveSymbols(r.positions, listed);
    symbols := active;
    ListedSymbols(s0, listed, active, r.positions);
    for i := 0 to |active|
      invariant store.View() == Pass(s0, r, active[..i], spare) && Ready(store.View())
      invariant report == Report(true, PassMissing(s0, r, active[..i], spare), PassOrphans(s0, r, active[..i], spare),
                                 drift)
    {
      assert active[..i+1][..i] == active[..i];
      report := ReconcileSymbol(store, r, active[i], spare, report);
    }
    assert active[..|active|] == active;
    var final := store.Reconciliation();
    if final.matched && report.positionDrift == 0 {
      report := report.(matched := true);
    }
  }

  /** Overwrites every reported position, counting those the store held otherwise. */
  method ReconcilePositions(store: OrderStore, positions: seq<Position>) returns (drift: nat)
    requires Ready(store.View())
    modifies store
    ensures store.View() == SetAll(old(store.View()), positions) && Ready(store.View())
    ensures drift == DriftCount(old(store.View()), positions)
  {
    hide Step, Ready;
    drift := 0;
    ghost var s := store.View();
    for i := 0 to |positions|
      invariant store.View() == SetAll(s, positions[..i]) && Ready(store.View())
      invariant drift == DriftCount(s, positions[..i])
    {
      var p := positions[i];
      var local := if p.symbol in store.positions then store.positions[p.symbol] else ZERO_POSITION;
      assert positions[..i+1][..i] == positions[..i];
      if local.symbol != "" && (local.size != p.size || local.avgPrice != p.avgPrice) {
        drift := drift + 1;
      }
      StepReady(store.View(), SetPosition(p));
      store.StorePosition(p);
    }
    assert positions[..|positions|] == positions;
  }

  lemma ListedSymbols(s: State, listed: seq<Order>, active: seq<string>, positions: seq<Position>)
    requires forall id :: id in s.orders ==> s.orders[id] in listed
    requires forall o :: o in listed ==> exists id :: id in s.orders && s.orders[id] == o
    requires forall y :: y in active <==> y != ""
                                          && (y in (set p | p in positions :: p.symbol)
                                              || y in (set o | o in listed :: o.symbol))
    ensures Covers(active, Active(s, positions))
  {
    var byOrder := set o | o in listed :: o.symbol;
    var stored := set id | id in s.orders :: s.orders[id].symbol;
    forall y | y in byOrder ensures y in stored {
      var o :| o in listed && o.symbol == y;
      var id :| id in s.orders && s.orders[id] == o;
    }
    forall y | y in stored ensures y in byOrder {
      var id :| id in s.orders && s.orders[id].symbol == y;
      assert s.orders[id] in listed;
    }
    assert byOrder == stored;
  }

  method ReconcileSymbol(store: OrderStore, r: Replies, symbol: string, spare: string, soFar: Report)
    returns (report: Report)
    requires Ready(store.View())
    modifies store
    ensures store.View() == PassSymbol(old(store.View()), r, symbol, spare) && Ready(store.View())
    ensures report == soFar.(
            orphanOrders := soFar.orphanOrders + OrphanCount(old(store.View()), OrdersFor(r, symbol)),
            missingFills := soFar.missingFills + MissingCount(UpsertAll(old(store.View()), OrdersFor(r, symbol)),
                                                              FillsFor(r, symbol), spare))
    ensures AllAttributable(old(store.View()), FillsFor(r, symbol))
            ==> report.missingFills - soFar.missingFills == |store.ledger| - |old(store.ledger)|
  {
    hide Step, Ready, FillsFor, OrdersFor, ApplyReplies, MissingCount;
    report := soFar;
    ghost var s := store.View();
    var orders := OrdersFor(r, symbol);
    for i := 0 to |orders|
      invariant store.View() == UpsertAll(s, orders[..i])
      invariant report == soFar.(orphanOrders := soFar.orphanOrders + OrphanCount(s, orders[..i]))
    {
      assert orders[..i+1][..i] == orders[..i];
      if !(orders[i].key in store.idempotency && store.idempotency[orders[i].key] in store.orders) {
        report := report.(orphanOrders := report.orphanOrders + 1);
      }
      assert orders[..i+1][..i] == orders[..i];
      store.UpsertOrder(orders[i]);
    }
    assert orders[..|orders|] == orders;
    UpsertsKeepLogs(s, orders);
    ghost var u := store.View();
    var missing := ReplayFills(store, FillsFor(r, symbol), spare);
    if AllAttributable(s, FillsFor(r, symbol)) {
      StillAttributable(s, u, FillsFor(r, symbol));
    }
    report := report.(missingFills := report.missingFills + missing);
  }
}

/**
 The control plane's order store: every method holds the lock for its whole body, so each is one
 atomic step.  Timestamps and latency telemetry are not part of the model.
 */
module Store {
  import opened Numeric
  import opened Domain

  const FLAT: real := 0.000000000001

  datatype Status = New | Sent | Ack | Partial | Filled | Canceled | Rejected

  datatype Order = Order(
    id: string, exchangeId: string, key: string, symbol: string, side: Side, size: real,
    price: Option<real>, status: Status, filled: real, avgFillPrice: real, fillRatio: real,
    cancelReason: string, rejectReason: string)

  datatype Position = Position(symbol: string, size: real, avgPrice: real)

  datatype FillEntry = FillEntry(orderId: string, fillId: string, symbol: string, side: Side, price: real,
                                 quantity: real)

  datatype ExecutionEvent = ExecutionEvent(orderId: string, fillId: string, filledQuantity: real)

  datatype State = State(
    orders: map<string, Order>, idempotency: map<string, string>, exchangeIds: map<string, string>,
    positions: map<string, Position>, ledger: seq<FillEntry>, executions: seq<ExecutionEvent>)

  const EMPTY: State := State(map[], map[], map[], map[], [], [])

  /** Go's zero value, which a lookup of a missing key yields. */
  const ZERO_ORDER: Order := Order("", "", "", "", Buy, 0.0, None, New, 0.0, 0.0, 0.0, "", "")
  const ZERO_POSITION: Position := Position("", 0.0, 0.0)

  function OrderAt(s: State, id: string): Order {
    if id in s.orders then s.orders[id] else ZERO_ORDER
  }

  function PositionAt(s: State, symbol: string): Position {
    if symbol in s.positions then s.positions[symbol] else ZERO_POSITION
  }

  // ----- steps -----

  datatype Op =
    | Reserve(order: Order)
    | Update(order: Order)
    | MarkSent(id: string)
    | MarkAck(id: string)
    | Cancel(id: string, reason: string)
    | Reprice(id: string, price: Option<real>)
    | Fill(id: string, entry: FillEntry, event: ExecutionEvent)
    | Bind(id: string, exchangeId: string)
    | Upsert(order: Order)
    | SetPosition(position: Position)

  function IndexExchange(exchangeIds: map<string, string>, o: Order): map<string, string> {
    if o.exchangeId != "" then exchangeIds[o.exchangeId := o.id] else exchangeIds
  }

  function Put(s: State, o: Order): State {
    s.(orders := s.orders[o.id := o], exchangeIds := IndexExchange(s.exchangeIds, o))
  }

  function Duplicate(s: State, key: string): bool {
    key in s.idempotency
  }

  /** A fill may name an order by its exchange id. */
  function Resolve(s: State, id: string): string {
    if id in s.exchangeIds then s.exchangeIds[id] else id
  }

  function IsOpen(status: Status): bool {
    status == New || status == Sent || status == Ack || status == Partial
  }

  function Terminal(status: Status): bool {
    status == Filled || status == Canceled || status == Rejected
  }

  /** What a fill does to its order. */
  function FillOrder(o: Order, price: real, quantity: real): Order {
    var filled := o.filled + quantity;
    o.(filled := filled,
    avgFillPrice := if filled > 0.0 then (o.avgFillPrice * o.filled + price * quantity) / filled else o.avgFillPrice,
    fillRatio := filled / MaxR(o.size, FLAT),
    status := if filled >= o.size then Filled else Partial)
  }

  /**
   A fill completes its order exactly when it brings the filled quantity to the order's size, and is partial
   otherwise; the ratio is the filled share of any size above the cut-off, and nothing else is changed.
   */
  lemma FillMeans(o: Order, price: real, quantity: real)
    ensures var f := FillOrder(o, price, quantity);
            && f.filled == o.filled + quantity
            && (f.status == Filled <==> o.filled + quantity >= o.size)
            && (f.status == Partial <==> o.filled + quantity < o.size)
            && (o.size > FLAT ==> f.fillRatio * o.size == f.filled)
            && f.id == o.id && f.exchangeId == o.exchangeId && f.key == o.key && f.symbol == o.symbol
            && f.side == o.side
            && f.size == o.size && f.price == o.price && f.cancelReason == o.cancelReason
            && f.rejectReason == o.rejectReason
  {
    if o.size > FLAT {
      Undivide(o.filled + quantity, o.size);
    }
  }

  /**
   An order is open until it is filled, canceled or rejected, so a fill leaves it open exactly while its size is not
   reached.
   */
  lemma OpenUntilTerminal(o: Order, price: real, quantity: real)
    ensures IsOpen(o.status) <==> !Terminal(o.status)
    ensures Terminal(o.status) <==> o.status in {Filled, Canceled, Rejected}
    ensures IsOpen(FillOrder(o, price, quantity).status) <==> o.filled + quantity < o.size
  {
    FillMeans(o, price, quantity);
    hide FillOrder;
  }

  /** A fill moves the position by its signed size, to nothing within the cut-off, and keeps it its symbol's own. */
  lemma FillPositionMeans(p: Position, symbol: string, signed: real, price: real, quantity: real)
    ensures var q := FillPosition(p, symbol, signed, price, quantity);
            && (p.symbol == symbol || p.size == 0.0 ==> q.symbol == symbol)
            && (AbsR(p.size + signed) >= FLAT ==> q.size == p.size + signed)
            && (AbsR(p.size + signed) < FLAT ==> q.size == 0.0)
  {
  }

  function SignOf(v: real): int {
    if v < 0.0 then -1 else if v > 0.0 then 1 else 0
  }

  /** What a fill does to its symbol's position. */
  function FillPosition(p: Position, symbol: string, signed: real, price: real, quantity: real): Position {
    var size := p.size + signed;
    if AbsR(size) < FLAT then Position(symbol, 0.0, 0.0)
    else if p.size == 0.0 || SignOf(p.size) == SignOf(signed) then
      Position(symbol, size, (p.avgPrice * AbsR(p.size) + price * quantity) / AbsR(size))
    else p.(size := size)
  }

  function Step(s: State, op: Op): State {
    match op
    case Reserve(order) =>
      if Duplicate(s, order.key) then s
      else Put(s.(idempotency := s.idempotency[order.key := order.id]), order.(status := New))
    case Update(order) => Put(s, order)
    case MarkSent(id) =>
      if id in s.orders then s.(orders := s.orders[s.orders[id].id := s.orders[id].(status := Sent)]) else s
    case MarkAck(id) =>
      if id in s.orders then s.(orders := s.orders[s.orders[id].id := s.orders[id].(status := Ack)]) else s
    case Cancel(id, reason) =>
      if id in s.orders then
        s.(orders := s.orders[s.orders[id].id := s.orders[id].(status := Canceled, cancelReason := reason)])
      else s
    case Reprice(id, price) =>
      if id in s.orders && !Terminal(s.orders[id].status) then
        s.(orders := s.orders[s.orders[id].id := s.orders[id].(price := price)])
      else s
    case Fill(id, entry, event) =>
      if Resolve(s, id) !in s.orders then s
      else
        var o := FillOrder(s.orders[Resolve(s, id)], entry.price, entry.quantity);
        s.(orders := s.orders[o.id := o],
        positions := s.positions[o.symbol :=
        FillPosition(PositionAt(s, o.symbol), o.symbol, Signed(o.side, entry.quantity), entry.price, entry.quantity)],
        ledger := s.ledger + [entry],
        executions := s.executions + [event])
    case Bind(id, exchangeId) =>
      if id in s.orders then Put(s, s.orders[id].(exchangeId := exchangeId)) else s
    case Upsert(order) =>
      var known := order.key in s.idempotency && s.idempotency[order.key] != "";
      var o := if known then order.(id := s.idempotency[order.key]) else order;
      Put(s.(idempotency := if o.key != "" then s.idempotency[o.key := o.id] else s.idempotency), o)
    case SetPosition(position) => s.(positions := s.positions[position.symbol := position])
  }

  function Run(s: State, ops: seq<Op>): State {
    if ops == [] then s else Step(Run(s, ops[..|ops|-1]), ops[|ops|-1])
  }

  /** Orders are stored under their own id, and every index entry points at a stored order. */
  ghost predicate Coherent(s: State) {
    && (forall id :: id in s.orders ==> s.orders[id].id == id)
    && (forall key :: key in s.idempotency ==> s.idempotency[key] in s.orders)
    && (forall x :: x in s.exchangeIds ==> s.exchangeIds[x] in s.orders)
  }

  lemma StoredId(s: State, id: string)
    requires Coherent(s) && id in s.orders
    ensures s.orders[id].id == id
  {
  }

  lemma PutCoherent(s: State, o: Order)
    requires Coherent(s)
    ensures Coherent(Put(s, o)) && Put(s, o).orders.Keys == s.orders.Keys + {o.id}
  {
  }

  lemma FillCoherent(s: State, id: string, entry: FillEntry, event: ExecutionEvent)
    requires Coherent(s)
    ensures var t := Step(s, Fill(id, entry, event)); Coherent(t) && t.orders.Keys == s.orders.Keys
  {
    hide FillOrder, FillPosition, PositionAt, Signed;
    if Resolve(s, id) in s.orders {
      FillKeepsId(s.orders[Resolve(s, id)], entry.price, entry.quantity);
    }
  }

  lemma UpsertCoherent(s: State, order: Order)
    requires Coherent(s)
    ensures var t := Step(s, Upsert(order)); Coherent(t) && s.orders.Keys <= t.orders.Keys
  {
  }

  lemma ReserveCoherent(s: State, order: Order)
    requires Coherent(s)
    ensures var t := Step(s, Reserve(order)); Coherent(t) && s.orders.Keys <= t.orders.Keys
  {
  }

  lemma PositionCoherent(s: State, p: Position)
    requires Coherent(s)
    ensures Coherent(Step(s, SetPosition(p)))
  {
  }

  /** Editing a stored order without changing its id. */
  lemma EditCoherent(s: State, id: string, o: Order)
    requires Coherent(s) && id in s.orders && o.id == s.orders[id].id
    ensures Coherent(s.(orders := s.orders[o.id := o])) && s.orders[o.id := o].Keys == s.orders.Keys
  {
  }

  lemma StepCoherent(s: State, op: Op)
    requires Coherent(s)
    ensures Coherent(Step(s, op))
    ensures s.orders.Keys <= Step(s, op).orders.Keys
  {
    hide FillOrder, FillPosition, PositionAt, Signed, Terminal, Resolve, Coherent;
    match op
    case Reserve(order) => ReserveCoherent(s, order);
    case Update(order) => PutCoherent(s, order);
    case MarkSent(id) => if id in s.orders { EditCoherent(s, id, s.orders[id].(status := Sent)); }
    case MarkAck(id) => if id in s.orders { EditCoherent(s, id, s.orders[id].(status := Ack)); }
    case Cancel(id, reason) =>
      if id in s.orders { EditCoherent(s, id, s.orders[id].(status := Canceled, cancelReason := reason)); }
    case Reprice(id, price) => if id in s.orders { EditCoherent(s, id, s.orders[id].(price := price)); }
    case Fill(id, entry, event) => FillCoherent(s, id, entry, event);
    case Bind(id, exchangeId) => if id in s.orders { PutCoherent(s, s.orders[id].(exchangeId := exchangeId)); }
    case Upsert(order) => UpsertCoherent(s, order);
    case SetPosition(p) => PositionCoherent(s, p);
  }

  lemma SignedQuantity(quantity: real)
    ensures Signed(Sell, quantity) == -quantity && Signed(Buy, quantity) == quantity
  {
  }

  lemma FillKeepsId(o: Order, price: real, quantity: real)
    ensures var f := FillOrder(o, price, quantity);
            f.id == o.id && f.symbol == o.symbol && f.side == o.side && f.key == o.key && f.exchangeId == o.exchangeId
  {
  }

  /** Only an applied fill writes to the two logs, and it writes to both. */
  lemma StepLogs(s: State, op: Op)
    ensures var t := Step(s, op);
            if op.Fill? && Resolve(s, op.id) in s.orders
            then t.ledger == s.ledger + [op.entry] && t.executions == s.executions + [op.event]
            else t.ledger == s.ledger && t.executions == s.executions
  {
    hide FillOrder, FillPosition, PositionAt, Signed;
  }

  lemma {:induction false} RunCoherent(ops: seq<Op>)
    ensures Coherent(Run(EMPTY, ops))
  {
    hide Step, Coherent;
    if ops == [] {
      EmptyCoherent();
    } else {
      RunCoherent(ops[..|ops|-1]);
      StepCoherent(Run(EMPTY, ops[..|ops|-1]), ops[|ops|-1]);
    }
  }

  lemma EmptyCoherent()
    ensures Coherent(EMPTY)
  {
  }

  /** The ids of a symbol's open orders. */
  ghost function OpenIds(orders: map<string, Order>, symbol: string): set<string> {
    set id | id in orders && orders[id].symbol == symbol && IsOpen(orders[id].status)
  }

  lemma OpenIdsMean(orders: map<string, Order>, symbol: string)
    ensures forall id :: id in OpenIds(orders, symbol)
                         <==> id in orders && orders[id].symbol == symbol && IsOpen(orders[id].status)
  {
  }

  lemma NoneOpen(orders: map<string, Order>, symbol: string)
    ensures |OpenIds(orders, symbol) - orders.Keys| == 0 && OpenIds(orders, symbol) - {} == OpenIds(orders, symbol)
  {
  }

  lemma OneMoreOpen(orders: map<string, Order>, symbol: string, todo: set<string>, id: string)
    requires id in todo && id in orders
    ensures |OpenIds(orders, symbol) - (todo - {id})| == |OpenIds(orders, symbol) - todo|
            + if orders[id].symbol == symbol && IsOpen(orders[id].status) then 1 else 0
  {
    hide IsOpen;
    var all := OpenIds(orders, symbol);
    if id in all {
      assert all - (todo - {id}) == all - todo + {id};
    } else {
      assert all - (todo - {id}) == all - todo;
    }
  }

  /** What one position is worth at its mark, or at its own average without one. */
  function ExposureOf(p: Position, marks: map<string, real>, symbol: string): real {
    var mark := if symbol in marks then marks[symbol] else 0.0;
    AbsR(p.size * if mark == 0.0 then p.avgPrice else mark)
  }

  /**
   A position without a mark counts as if marked at its own average; with one it is worth its size for every unit of a
   positive mark, on whichever side it is.
   */
  lemma ExposureMeans(p: Position, marks: map<string, real>, symbol: string, mark: real)
    ensures symbol !in marks ==> ExposureOf(p, marks, symbol) == ExposureOf(p, marks[symbol := p.avgPrice], symbol)
    ensures mark > 0.0 ==> ExposureOf(p, marks[symbol := mark], symbol) == Times(AbsR(p.size), mark)
  {
    if mark > 0.0 {
      assert AbsR(p.size * mark) == AbsR(p.size) * mark;
    }
  }

  /** The sum over all positions; the program walks a map, so no order is fixed. */
  ghost function GrossExposure(positions: map<string, Position>, marks: map<string, real>): real
    decreases |positions|
  {
    if positions == map[] then 0.0
    else
      var k :| k in positions;
      ExposureOf(positions[k], marks, k) + GrossExposure(positions - {k}, marks)
  }

  lemma {:induction false} GrossExposurePick(positions: map<string, Position>, marks: map<string, real>, k: string)
    requires k in positions
    ensures GrossExposure(positions, marks) == ExposureOf(positions[k], marks, k)
            + GrossExposure(positions - {k}, marks)
    decreases |positions|
  {
    hide ExposureOf;
    var p :| p in positions
             && GrossExposure(positions, marks) == ExposureOf(positions[p], marks, p)
                + GrossExposure(positions - {p}, marks);
    if p != k {
      GrossExposurePick(positions - {p}, marks, k);
      GrossExposurePick(positions - {k}, marks, p);
      assert positions - {p} - {k} == positions - {k} - {p};
    }
  }

  // ----- the store object -----

  datatype ReconciliationStatus = ReconciliationStatus(
    ordersTracked: nat, ledgerEntries: nat, executionEvents: nat,
    exchangeQtyByOrder: map<string, real>, ledgerQtyByOrder: map<string, real>, matched: bool)

  /** `m[k] += q` on a Go map. */
  function AddTo(m: map<string, real>, k: string, q: real): map<string, real> {
    m[k := (if k in m then m[k] else 0.0) + q]
  }

  function LedgerSums(ledger: seq<FillEntry>): map<string, real> {
    if ledger == [] then map[]
    else AddTo(LedgerSums(ledger[..|ledger|-1]), ledger[|ledger|-1].orderId, ledger[|ledger|-1].quantity)
  }

  function ExecutionSums(events: seq<ExecutionEvent>): map<string, real> {
    if events == [] then map[]
    else AddTo(ExecutionSums(events[..|events|-1]), events[|events|-1].orderId, events[|events|-1].filledQuantity)
  }

  const TOLERANCE: real := 0.000000001

  function QtyOf(sums: map<string, real>, id: string): real {
    if id in sums then sums[id] else 0.0
  }

  /** The check as the program makes it: as many orders on both sides, and every executed order within tolerance. */
  ghost predicate Matches(ledger: map<string, real>, executed: map<string, real>) {
    |ledger| == |executed| && forall id :: id in executed ==> AbsR(executed[id] - QtyOf(ledger, id)) <= TOLERANCE
  }

  class OrderStore {
    var positions: map<string, Position>
    var orders: map<string, Order>
    var idempotency: map<string, string>
    var exchangeIds: map<string, string>
    var ledger: seq<FillEntry>
    var executions: seq<ExecutionEvent>

    ghost function View(): State
      reads this
    {
      State(orders, idempotency, exchangeIds, positions, ledger, executions)
    }

    constructor ()
      ensures View() == EMPTY
    {
      positions, orders, idempotency, exchangeIds := map[], map[], map[], map[];
      ledger, executions := [], [];
    }

    method ReserveOrder(order: Order) returns (stored: Order, duplicate: bool)
      modifies this
      ensures View() == Step(old(View()), Reserve(order))
      ensures duplicate == Duplicate(old(View()), order.key)
      ensures stored == if duplicate then OrderAt(old(View()), old(idempotency)[order.key]) else order.(status := New)
    {
      if order.key in idempotency {
        var existing := idempotency[order.key];
        return if existing in orders then orders[existing] else ZERO_ORDER, true;
      }
      stored, duplicate := order.(status := New), false;
      orders := orders[order.id := stored];
      idempotency := idempotency[order.key := order.id];
      if order.exchangeId != "" {
        exchangeIds := exchangeIds[order.exchangeId := order.id];
      }
    }

    method UpdateOrder(order: Order)
      modifies this
      ensures View() == Step(old(View()), Update(order))
    {
      orders := orders[order.id := order];
      if order.exchangeId != "" {
        exchangeIds := exchangeIds[order.exchangeId := order.id];
      }
    }

    method MarkOrderSent(id: string) returns (r: Option<Order>)
      modifies this
      ensures View() == Step(old(View()), MarkSent(id))
      ensures r == if id in old(orders) then Some(old(orders)[id].(status := Sent)) else None
    {
      if id !in orders {
        return None;
      }
      var order := orders[id].(status := Sent);
      orders := orders[order.id := order];
      return Some(order);
    }

    method MarkOrderAck(id: string) returns (r: Option<Order>)
      modifies this
      ensures View() == Step(old(View()), MarkAck(id))
      ensures r == if id in old(orders) then Some(old(orders)[id].(status := Ack)) else None
    {
      if id !in orders {
        return None;
      }
      var order := orders[id].(status := Ack);
      orders := orders[order.id := order];
      return Some(order);
    }

    method CancelOrder(id: string, reason: string) returns (r: Option<Order>)
      modifies this
      ensures View() == Step(old(View()), Cancel(id, reason))
      ensures r == if id in old(orders) then Some(old(orders)[id].(status := Canceled, cancelReason := reason))
                   else None
    {
      if id !in orders {
        return None;
      }
      var order := orders[id].(status := Canceled, cancelReason := reason);
      orders := orders[order.id := order];
      return Some(order);
    }

    method ReplaceOrderPrice(id: string, price: Option<real>) returns (r: Option<Order>)
      modifies this
      ensures View() == Step(old(View()), Reprice(id, price))
      ensures r == if id !in old(orders) then None
                   else if Terminal(old(orders)[id].status) then Some(old(orders)[id])
                   else Some(old(orders)[id].(price := price))
    {
      if id !in orders {
        return None;
      }
      var order := orders[id];
      if Terminal(order.status) {
        return Some(order);
      }
      order := order.(price := price);
      orders := orders[order.id := order];
      return Some(order);
    }

    method ApplyExternalFill(id: string, fill: FillEntry, event: ExecutionEvent)
      returns (r: Option<(Order, Position)>)
      modifies this
      ensures View() == Step(old(View()), Fill(id, fill, event))
      ensures r.Some? <==> Resolve(old(View()), id) in old(orders)
      ensures r.Some? ==>
                var o := old(orders)[Resolve(old(View()), id)];
                && r.value.0 == FillOrder(o, fill.price, fill.quantity)
                && (r.value.0.status == Filled <==> o.filled + fill.quantity >= o.size)
                && (r.value.0.status == Partial <==> o.filled + fill.quantity < o.size)
                && r.value.0.filled == o.filled + fill.quantity
                && (o.size > FLAT ==> r.value.0.fillRatio * o.size == r.value.0.filled)
                && o.id in orders && orders[o.id] == r.value.0
                && r.value.1 == FillPosition(PositionAt(old(View()), r.value.0.symbol), r.value.0.symbol,
                                             Signed(r.value.0.side, fill.quantity), fill.price, fill.quantity)
    {
      hide FillOrder, FillPosition, Signed;
      SignedQuantity(fill.quantity);
      var orderId := if id in exchangeIds then exchangeIds[id] else id;
      if orderId !in orders {
        return None;
      }
      var order := FillOrder(orders[orderId], fill.price, fill.quantity);
      FillMeans(orders[orderId], fill.price, fill.quantity);
      orders := orders[order.id := order];
      var pos := if order.symbol in positions then positions[order.symbol] else ZERO_POSITION;
      var signed := if order.side == Sell then -fill.quantity else fill.quantity;
      pos := FillPosition(pos, order.symbol, signed, fill.price, fill.quantity);
      positions := positions[order.symbol := pos];
      ledger := ledger + [fill];
      executions := executions + [event];
      return Some((order, pos));
    }

    method BindExchangeOrderID(id: string, exchangeId: string) returns (r: Option<Order>)
      modifies this
      ensures View() == Step(old(View()), Bind(id, exchangeId))
      ensures r == if id in old(orders) then Some(old(orders)[id].(exchangeId := exchangeId)) else None
    {
      if id !in orders {
        return None;
      }
      var order := orders[id].(exchangeId := exchangeId);
      orders := orders[order.id := order];
      if exchangeId != "" {
        exchangeIds := exchangeIds[exchangeId := order.id];
      }
      return Some(order);
    }

    method UpsertOrder(upserted: Order)
      modifies this
      ensures View() == Step(old(View()), Upsert(upserted))
    {
      var order := upserted;
      if order.key in idempotency && idempotency[order.key] != "" {
        order := order.(id := idempotency[order.key]);
      }
      orders := orders[order.id := order];
      if order.key != "" {
        idempotency := idempotency[order.key := order.id];
      }
      if order.exchangeId != "" {
        exchangeIds := exchangeIds[order.exchangeId := order.id];
      }
    }

    method StorePosition(position: Position)
      modifies this
      ensures View() == Step(old(View()), SetPosition(position))
    {
      positions := positions[position.symbol := position];
    }

    /** The open orders of a symbol, in whatever order the map gives them. */
    method OpenOrdersBySymbol(symbol: string) returns (open: seq<Order>)
      ensures forall id :: id in orders && orders[id].symbol == symbol && IsOpen(orders[id].status) ==>
                             orders[id] in open
      ensures forall o :: o in open ==> exists id :: id in orders && orders[id] == o && o.symbol == symbol
                                                     && IsOpen(o.status)
      ensures |open| == |OpenIds(orders, symbol)|
    {
      hide IsOpen, OpenIds;
      open := [];
      var todo := orders.Keys;
      OpenIdsMean(orders, symbol);
      NoneOpen(orders, symbol);
      while todo != {}
        invariant todo <= orders.Keys
        invariant forall id :: id in OpenIds(orders, symbol) && id !in todo ==> orders[id] in open
        invariant forall o :: o in open ==> exists id :: id in OpenIds(orders, symbol) && orders[id] == o
        invariant |open| == |OpenIds(orders, symbol) - todo|
        decreases |todo|
      {
        var id :| id in todo;
        OneMoreOpen(orders, symbol, todo, id);
        if orders[id].symbol == symbol && IsOpen(orders[id].status) {
          open := open + [orders[id]];
        }
        todo := todo - {id};
      }
    }

    /** `GrossExposureUSD`: every position at its mark, whatever the order of the walk. */
    method GrossExposureUSD(marks: map<string, real>) returns (total: real)
      ensures total == GrossExposure(positions, marks)
    {
      hide ExposureOf;
      total := 0.0;
      var todo := positions;
      while todo != map[]
        invariant total + GrossExposure(todo, marks) == GrossExposure(positions, marks)
        decreases |todo|
      {
        var k :| k in todo;
        GrossExposurePick(todo, marks, k);
        total := total + ExposureOf(todo[k], marks, k);
        todo := todo - {k};
      }
    }

    /** `Reconciliation`: sums both logs by order, then compares. */
    method Reconciliation() returns (r: ReconciliationStatus)
      ensures r.ordersTracked == |orders| && r.ledgerEntries == |ledger| && r.executionEvents == |executions|
      ensures r.ledgerQtyByOrder == LedgerSums(ledger) && r.exchangeQtyByOrder == ExecutionSums(executions)
      ensures r.matched <==> Matches(LedgerSums(ledger), ExecutionSums(executions))
    {
      var ledgerByOrder, exchangeByOrder := map[], map[];
      for i := 0 to |ledger|
        invariant ledgerByOrder == LedgerSums(ledger[..i])
      {
        assert ledger[..i+1][..i] == ledger[..i];
        ledgerByOrder := AddTo(ledgerByOrder, ledger[i].orderId, ledger[i].quantity);
      }
      for i := 0 to |executions|
        invariant exchangeByOrder == ExecutionSums(executions[..i])
      {
        assert executions[..i+1][..i] == executions[..i];
        exchangeByOrder := AddTo(exchangeByOrder, executions[i].orderId, executions[i].filledQuantity);
      }
      assert ledger[..|ledger|] == ledger && executions[..|executions|] == executions;
      var matched := |ledgerByOrder| == |exchangeByOrder|;
      if matched {
        var todo := exchangeByOrder.Keys;
        while todo != {}
          invariant todo <= exchangeByOrder.Keys && matched
          invariant forall id :: id in exchangeByOrder && id !in todo
                                 ==> AbsR(exchangeByOrder[id] - QtyOf(ledgerByOrder, id)) <= TOLERANCE
          decreases |todo|
        {
          var id :| id in todo;
          if AbsR(exchangeByOrder[id] - QtyOf(ledgerByOrder, id)) > TOLERANCE {
            matched := false;
            break;
          }
          todo := todo - {id};
        }
      }
      r := ReconciliationStatus(|orders|, |ledger|, |executions|, exchangeByOrder, ledgerByOrder, matched);
    }
  }
}

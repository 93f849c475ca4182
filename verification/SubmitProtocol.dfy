/**
 Concurrent `Submit` calls against one store.  Each store method is one atomic action; between any
 two actions of one call, other calls and other users of the store may act.  Risk decisions,
 drawn order ids and exchange replies are arbitrary inputs, so every interleaving is a sequence of
 actions.
 */
module SubmitProtocol {
  import opened Numeric
  import opened Domain
  import opened Store
  import FA = FillAccounting

  datatype Request = Request(key: string, symbol: string, side: Side, size: real, price: Option<real>, reduceOnly: bool)

  datatype Decision = Decision(allowed: bool, multiplier: real)

  datatype ExchangeStep = ExchangeStep(
    status: Status, exchangeId: string, cancelReason: string, fill: Option<(FillEntry, ExecutionEvent)>)

  datatype Reply = SendError(reason: string) | Accepted(steps: seq<ExchangeStep>)

  datatype Outcome = MissingKey | RiskRejected | WasDuplicate | SendFailed | StepFailed | Completed

  /** Where one call stands: what it does next. */
  datatype Phase =
    | Evaluating(req: Request)
    | Listing(req: Request)
    | Clearing(req: Request, opens: seq<Order>)
    | Marking(order: Order)
    | Sending(order: Order)
    | Rejecting(order: Order)
    | Binding(order: Order, last: Order, steps: seq<ExchangeStep>)
    | Applying(order: Order, last: Order, steps: seq<ExchangeStep>)
    | Refusing(order: Order, read: Order, steps: seq<ExchangeStep>)
    | Done(key: string, order: Order, outcome: Outcome)

  /** One call of SendOrder, with the order handed to it. */
  datatype Send = Send(call: nat, key: string, orderId: string, order: Order)

  datatype System = System(store: State, calls: map<nat, Phase>, sends: seq<Send>)

  datatype Action =
    | Begin(call: nat, req: Request)
    | Evaluate(call: nat, decision: Decision, newId: string)
    | List(call: nat)
    | Clear(call: nat)
    | ReserveUnder(call: nat, newId: string)
    | Mark(call: nat)
    | SendOut(call: nat, reply: Reply)
    | Reject(call: nat)
    | BindStep(call: nat)
    | ApplyStep(call: nat)
    | RefuseStep(call: nat)
    | Elsewhere(op: Op)

  function SizedRequest(req: Request, d: Decision): Request {
    if 0.0 < d.multiplier < 1.0 && !req.reduceOnly then req.(size := req.size * d.multiplier) else req
  }

  function NewOrder(req: Request, id: string, status: Status): Order {
    Order(id, "", req.key, req.symbol, req.side, req.size, req.price, status, 0.0, 0.0, 0.0, "", "")
  }

  function OpenOrders(s: State, symbol: string): set<Order> {
    set id | id in s.orders && s.orders[id].symbol == symbol && IsOpen(s.orders[id].status) :: s.orders[id]
  }

  /** Some listing of a set; the program walks a map, so no order is fixed. */
  ghost function Listed(orders: set<Order>): seq<Order> {
    if orders == {} then [] else var o :| o in orders; [o] + Listed(orders - {o})
  }

  function Go(s: System, call: nat, phase: Phase): System {
    s.(calls := s.calls[call := phase])
  }

  function Then(s: System, op: Op): System {
    s.(store := Step(s.store, op))
  }

  /** After a call has dealt with one exchange step. */
  function NextStep(order: Order, last: Order, steps: seq<ExchangeStep>): Phase {
    if steps == [] then Done(order.key, last, Completed) else Binding(order, last, steps)
  }

  function Effect(s: System, call: nat, order: Order, last: Order, steps: seq<ExchangeStep>, op: Op,
                  target: string): System
    requires steps != []
  {
    if target !in s.store.orders then Go(s, call, Done(order.key, last, StepFailed))
    else
      var t := Then(s, op);
      Go(t, call, NextStep(order, OrderAt(t.store, target), steps[1..]))
  }

  /** The second half of `applyStep`, after the exchange id is bound. */
  function ApplyFirst(s: System, c: nat, order: Order, last: Order, steps: seq<ExchangeStep>): System
    requires steps != []
  {
    var step := steps[0];
    match step.status
    case Ack => Effect(s, c, order, last, steps, MarkAck(order.id), order.id)
    case Canceled => Effect(s, c, order, last, steps, Cancel(order.id, step.cancelReason), order.id)
    case Partial | Filled =>
      if step.fill.None? then Go(s, c, NextStep(order, ZERO_ORDER, steps[1..]))
      else Effect(s, c, order, last, steps, Fill(order.id, step.fill.value.0, step.fill.value.1),
                  Resolve(s.store, order.id))
    case Rejected =>
      if order.id !in s.store.orders then Go(s, c, Done(order.key, last, StepFailed))
      else
        Go(s, c, Refusing(order, s.store.orders[order.id].(status := Rejected, rejectReason := step.cancelReason),
                          steps))
    case New | Sent =>
      if order.id !in s.store.orders then Go(s, c, Done(order.key, last, StepFailed))
      else Go(s, c, NextStep(order, s.store.orders[order.id], steps[1..]))
  }

  /** Reserving under a newly drawn id; drawn ids do not repeat. */
  function ReserveOrder(s: System, c: nat, req: Request, newId: string): System {
    if Duplicate(s.store, req.key) then
      Go(s, c, Done(req.key, OrderAt(s.store, s.store.idempotency[req.key]), WasDuplicate))
    else if newId in s.store.orders then s
    else
      var order := NewOrder(req, newId, New);
      Go(Then(s, Reserve(order)), c, Marking(order))
  }

  function SendNow(s: System, c: nat, order: Order, reply: Reply): System {
    var t := s.(sends := s.sends + [Send(c, order.key, order.id, order)]);
    match reply
    case SendError(reason) => Go(t, c, Rejecting(order.(status := Rejected, rejectReason := reason)))
    case Accepted(steps) => Go(t, c, NextStep(order, order, steps))
  }

  /** One action of one call; an action that is not the call's next one changes nothing. */
  ghost function CallStep(s: System, a: Action, p: Phase): System
    requires !a.Elsewhere? && !a.Begin?
  {
    var c := a.call;
    match (p, a)
    case (Evaluating(req), Evaluate(_, d, newId)) =>
      if req.key == "" then Go(s, c, Done("", ZERO_ORDER, MissingKey))
      else if !d.allowed then Go(s, c, Done(req.key, NewOrder(req, newId, Rejected), RiskRejected))
      else Go(s, c, Listing(SizedRequest(req, d)))
    case (Listing(req), List(_)) => Go(s, c, Clearing(req, Listed(OpenOrders(s.store, req.symbol))))
    case (Clearing(req, opens), Clear(_)) =>
      if opens == [] then s
      else
        var t := if opens[0].side != req.side then Then(s, Cancel(opens[0].id, "self_trade_prevention")) else s;
        Go(t, c, Clearing(req, opens[1..]))
    case (Clearing(req, opens), ReserveUnder(_, newId)) => if opens != [] then s else ReserveOrder(s, c, req, newId)
    case (Marking(order), Mark(_)) =>
      Go(Then(s, MarkSent(order.id)), c,
         Sending(if order.id in s.store.orders then s.store.orders[order.id].(status := Sent) else order))
    case (Sending(order), SendOut(_, reply)) => SendNow(s, c, order, reply)
    case (Rejecting(order), Reject(_)) => Go(Then(s, Update(order)), c, Done(order.key, order, SendFailed))
    case (Binding(order, last, steps), BindStep(_)) =>
      if steps == [] then s
      else if steps[0].exchangeId == "" then Go(s, c, Applying(order, last, steps))
      else if order.id !in s.store.orders then Go(s, c, Done(order.key, last, StepFailed))
      else Go(Then(s, Bind(order.id, steps[0].exchangeId)), c, Applying(order, last, steps))
    case (Applying(order, last, steps), ApplyStep(_)) =>
      if steps == [] then s else ApplyFirst(s, c, order, last, steps)
    case (Refusing(order, read, steps), RefuseStep(_)) =>
      if steps == [] then s else Go(Then(s, Update(read)), c, NextStep(order, read, steps[1..]))
    case _ => s
  }

  /** Other users of the store while calls run: asynchronous exchange updates, cancels and replaces. */
  ghost predicate Permitted(s: State, op: Op) {
    match op
    case Reserve(_) => false
    case Upsert(_) => false
    case Update(o) => o.id in s.orders && o.key == s.orders[o.id].key
    case _ => true
  }

  ghost function Act(s: System, a: Action): System {
    match a
    case Begin(call, req) => if call in s.calls then s else Go(s, call, Evaluating(req))
    case Elsewhere(op) => if Permitted(s.store, op) then Then(s, op) else s
    case _ => if a.call in s.calls then CallStep(s, a, s.calls[a.call]) else s
  }

  /** Any interleaving, from whatever store the boot reconciliation left. */
  ghost function Run(boot: State, actions: seq<Action>): System {
    if actions == [] then System(boot, map[], [])
    else Act(Run(boot, actions[..|actions|-1]), actions[|actions|-1])
  }

  // ----- the invariant -----

  /** A call past its reservation holds its key for good. */
  function Held(p: Phase): Option<string> {
    match p
    case Marking(order) => Some(order.key)
    case Sending(order) => Some(order.key)
    case Rejecting(order) => Some(order.key)
    case Binding(order, _, _) => Some(order.key)
    case Applying(order, _, _) => Some(order.key)
    case Refusing(order, _, _) => Some(order.key)
    case Done(key, _, outcome) => if outcome in {SendFailed, StepFailed, Completed} then Some(key) else None
    case _ => None
  }

  function PastSend(p: Phase): bool {
    Held(p).Some? && !p.Marking? && !p.Sending?
  }

  /** The order a call works on, once reserved. */
  function Working(p: Phase): Option<Order> {
    match p
    case Marking(order) => Some(order)
    case Sending(order) => Some(order)
    case Rejecting(order) => Some(order)
    case Binding(order, _, _) => Some(order)
    case Applying(order, _, _) => Some(order)
    case Refusing(order, _, _) => Some(order)
    case _ => None
  }

  /** A stored order, as some caller read it. */
  ghost predicate Known(s: State, o: Order) {
    o.id in s.orders && s.orders[o.id].key == o.key
  }

  ghost predicate PhaseOk(s: State, p: Phase) {
    && (Held(p).Some? ==> Held(p).value in s.idempotency)
    && (Working(p).Some? ==> Known(s, Working(p).value) && s.idempotency[Working(p).value.key] == Working(p).value.id)
    && (p.Refusing? ==> Known(s, p.read))
    && (p.Done? && p.outcome == WasDuplicate ==> p.key in s.idempotency && p.order.id == s.idempotency[p.key])
  }

  ghost predicate CallsOk(s: System) {
    && (forall c :: c in s.calls ==> PhaseOk(s.store, s.calls[c]))
    && (forall c, d :: c in s.calls && d in s.calls && c != d && Held(s.calls[c]).Some? ==>
                         Held(s.calls[c]) != Held(s.calls[d]))
  }

  ghost predicate SendsOk(s: System) {
    && (forall n :: 0 <= n < |s.sends| ==>
                      && s.sends[n].call in s.calls && PastSend(s.calls[s.sends[n].call])
                      && Held(s.calls[s.sends[n].call]) == Some(s.sends[n].key)
                      && s.sends[n].key in s.store.idempotency && s.store.idempotency[s.sends[n].key]
                         == s.sends[n].orderId)
    && (forall m, n :: 0 <= m < n < |s.sends| ==> s.sends[m].call != s.sends[n].call)
  }

  ghost predicate Safe(s: System) {
    Coherent(s.store) && CallsOk(s) && SendsOk(s)
  }

  // ----- store steps keep what calls rely on -----

  /** Orders keep their keys, and bindings are for good. */
  ghost predicate Extends(s: State, t: State) {
    && (forall id :: id in s.orders ==> id in t.orders && t.orders[id].key == s.orders[id].key)
    && (forall key :: key in s.idempotency ==> key in t.idempotency && t.idempotency[key] == s.idempotency[key])
  }

  lemma FillExtends(s: State, id: string, entry: FillEntry, event: ExecutionEvent)
    requires Coherent(s)
    ensures Extends(s, Step(s, Fill(id, entry, event)))
  {
    hide FillPosition, PositionAt, Signed, FillOrder;
    if Resolve(s, id) in s.orders {
      FillKeepsId(s.orders[Resolve(s, id)], entry.price, entry.quantity);
    }
  }

  lemma EditExtends(s: State, t: State, id: string, o: Order)
    requires id in s.orders && o.key == s.orders[id].key
    requires t.orders == s.orders[id := o] && t.idempotency == s.idempotency
    ensures Extends(s, t)
  {
  }

  lemma PermittedExtends(s: State, op: Op)
    requires Coherent(s) && Permitted(s, op)
    ensures Coherent(Step(s, op)) && Extends(s, Step(s, op))
  {
    hide Coherent, FillPosition, PositionAt, Signed, FillOrder, Terminal, Resolve, IndexExchange;
    StepCoherent(s, op);
    match op {
      case Fill(id, entry, event) => FillExtends(s, id, entry, event);
      case Update(o) => EditExtends(s, Step(s, op), o.id, o);
      case MarkSent(id) => EditAt(s, op, id);
      case MarkAck(id) => EditAt(s, op, id);
      case Cancel(id, _) => EditAt(s, op, id);
      case Reprice(id, _) => EditAt(s, op, id);
      case Bind(id, _) => EditAt(s, op, id);
      case _ =>
    }
  }

  lemma EditAt(s: State, op: Op, id: string)
    requires Coherent(s) && (op.MarkSent? || op.MarkAck? || op.Cancel? || op.Reprice? || op.Bind?) && op.id == id
    ensures Extends(s, Step(s, op))
  {
    hide Coherent, Terminal, IndexExchange, Extends;
    SameExtends(s);
    if id in s.orders {
      StoredId(s, id);
      if !(op.Reprice? && Terminal(s.orders[id].status)) {
        EditExtends(s, Step(s, op), id, OrderAt(Step(s, op), id));
      }
    }
  }

  lemma PhaseExtends(s: State, t: State, p: Phase)
    requires PhaseOk(s, p) && Extends(s, t)
    ensures PhaseOk(t, p)
  {
  }

  /** A store step by anyone, with every call where it was. */
  lemma StoreStepSafe(s: System, op: Op)
    requires Safe(s) && Permitted(s.store, op)
    ensures Safe(Then(s, op)) && Extends(s.store, Then(s, op).store)
  {
    hide PhaseOk, Permitted, Step, Coherent, Held;
    PermittedExtends(s.store, op);
    forall c | c in s.calls ensures PhaseOk(Then(s, op).store, s.calls[c]) {
      PhaseExtends(s.store, Step(s.store, op), s.calls[c]);
    }
  }

  /** A call moves on without touching the store and without gaining or losing a key. */
  lemma MoveSafe(s: System, c: nat, p: Phase)
    requires Safe(s) && c in s.calls && PhaseOk(s.store, p)
    requires Held(p) == Held(s.calls[c]) && (PastSend(s.calls[c]) ==> PastSend(p))
    ensures Safe(Go(s, c, p))
  {
    hide PhaseOk, Coherent, Held;
  }

  lemma BothSafe(s: System, op: Op, c: nat, p: Phase)
    requires Safe(s) && c in s.calls && Permitted(s.store, op) && PhaseOk(Step(s.store, op), p)
    requires Held(p) == Held(s.calls[c]) && (PastSend(s.calls[c]) ==> PastSend(p))
    ensures Safe(Go(Then(s, op), c, p)) && Extends(s.store, Then(s, op).store)
  {
    hide PhaseOk, Permitted, Step, Coherent, Held, PastSend, Safe;
    StoreStepSafe(s, op);
    MoveSafe(Then(s, op), c, p);
  }

  /** Reserving binds a new key, or answers with the order the key is bound to. */
  lemma ReserveSafe(s: System, c: nat, req: Request, newId: string)
    requires Safe(s) && c in s.calls && Held(s.calls[c]).None?
    ensures var t := ReserveOrder(s, c, req, newId); Safe(t) && Extends(s.store, t.store)
  {
    hide Step;
    if Duplicate(s.store, req.key) {
      MoveSafe(s, c, Done(req.key, OrderAt(s.store, s.store.idempotency[req.key]), WasDuplicate));
    } else if newId !in s.store.orders {
      var order := NewOrder(req, newId, New);
      ReserveExtends(s.store, order);
      StepCoherent(s.store, Reserve(order));
      FreshKeySafe(s, Step(s.store, Reserve(order)), c, Marking(order));
    }
  }

  lemma ReserveExtends(s: State, order: Order)
    requires Coherent(s) && !Duplicate(s, order.key) && order.id !in s.orders && order.status == New
    ensures var t := Step(s, Reserve(order));
            Extends(s, t) && order.key in t.idempotency && t.idempotency[order.key] == order.id && Known(t, order)
  {
  }

  lemma FreshKeySafe(s: System, t: State, c: nat, p: Phase)
    requires Safe(s) && c in s.calls && Held(s.calls[c]).None? && Coherent(t) && Extends(s.store, t)
    requires p.Marking? && PhaseOk(t, p) && p.order.key !in s.store.idempotency
    ensures Safe(System(t, s.calls[c := p], s.sends))
  {
    hide Coherent, Extends;
    var u := System(t, s.calls[c := p], s.sends);
    forall d | d in s.calls
      ensures PhaseOk(t, s.calls[d]) && Held(s.calls[d]) != Some(p.order.key)
    {
      PhaseExtends(s.store, t, s.calls[d]);
    }
    forall n | 0 <= n < |s.sends|
      ensures s.sends[n].call != c && s.sends[n].key in t.idempotency
              && t.idempotency[s.sends[n].key] == s.sends[n].orderId
    {
      BindingExtends(s.store, t, s.sends[n].key);
    }
  }

  lemma BindingExtends(s: State, t: State, key: string)
    requires Extends(s, t) && key in s.idempotency
    ensures key in t.idempotency && t.idempotency[key] == s.idempotency[key]
  {
  }

  lemma SendSafe(s: System, c: nat, order: Order, reply: Reply)
    requires Safe(s) && c in s.calls && s.calls[c] == Sending(order)
    ensures var t := SendNow(s, c, order, reply); Safe(t) && Extends(s.store, t.store)
  {
    hide Coherent;
    var t := SendNow(s, c, order, reply);
    assert PhaseOk(s.store, t.calls[c]);
    assert Held(t.calls[c]) == Some(order.key) && PastSend(t.calls[c]);
    forall n | 0 <= n < |s.sends| ensures s.sends[n].call != c {
      assert PastSend(s.calls[s.sends[n].call]);
    }
  }

  /** Dealing with one exchange step. */
  lemma ApplySafe(s: System, c: nat, order: Order, last: Order, steps: seq<ExchangeStep>)
    requires Safe(s) && c in s.calls && s.calls[c] == Applying(order, last, steps) && steps != []
    ensures var t := ApplyFirst(s, c, order, last, steps); Safe(t) && Extends(s.store, t.store)
  {
    hide Step, Coherent, CallsOk, SendsOk, Resolve;
    assert PhaseOk(s.store, s.calls[c]) by { CallPhase(s, c); }
    match steps[0].status
    case Ack => EffectSafe(s, c, order, last, steps, MarkAck(order.id), order.id);
    case Canceled => EffectSafe(s, c, order, last, steps, Cancel(order.id, steps[0].cancelReason), order.id);
    case Partial | Filled =>
      if steps[0].fill.None? {
        MoveSafe(s, c, NextStep(order, ZERO_ORDER, steps[1..]));
      } else {
        EffectSafe(s, c, order, last, steps, Fill(order.id, steps[0].fill.value.0, steps[0].fill.value.1),
                   Resolve(s.store, order.id));
      }
    case Rejected =>
      StoredKnown(s, order);
      MoveSafe(s, c, ApplyFirst(s, c, order, last, steps).calls[c]);
    case New | Sent => MoveSafe(s, c, ApplyFirst(s, c, order, last, steps).calls[c]);
  }

  lemma CallPhase(s: System, c: nat)
    requires Safe(s) && c in s.calls
    ensures PhaseOk(s.store, s.calls[c])
  {
  }

  lemma StoredKnown(s: System, o: Order)
    requires Safe(s) && o.id in s.store.orders
    ensures s.store.orders[o.id].id == o.id
  {
  }

  lemma PhaseNext(s: State, order: Order, last: Order, steps: seq<ExchangeStep>, next: Order, rest: seq<ExchangeStep>)
    requires PhaseOk(s, Applying(order, last, steps))
    ensures var p := NextStep(order, next, rest); PhaseOk(s, p) && Held(p) == Some(order.key) && PastSend(p)
    ensures var p := Done(order.key, last, StepFailed); PhaseOk(s, p) && Held(p) == Some(order.key) && PastSend(p)
    ensures Held(Applying(order, last, steps)) == Some(order.key)
  {
  }

  lemma EffectSafe(s: System, c: nat, order: Order, last: Order, steps: seq<ExchangeStep>, op: Op, target: string)
    requires Safe(s) && c in s.calls && s.calls[c] == Applying(order, last, steps) && steps != []
    requires op.MarkAck? || op.Cancel? || op.Fill?
    ensures var t := Effect(s, c, order, last, steps, op, target); Safe(t) && Extends(s.store, t.store)
  {
    hide Step, CallsOk, SendsOk, PhaseOk, Held, PastSend, NextStep, Coherent;
    CallPhase(s, c);
    if target !in s.store.orders {
      PhaseNext(s.store, order, last, steps, last, steps);
      MoveSafe(s, c, Done(order.key, last, StepFailed));
      SameExtends(s.store);
    } else {
      var t := Step(s.store, op);
      PermittedExtends(s.store, op);
      PhaseExtends(s.store, t, s.calls[c]);
      PhaseNext(t, order, last, steps, OrderAt(t, target), steps[1..]);
      BothSafe(s, op, c, NextStep(order, OrderAt(t, target), steps[1..]));
    }
  }

  lemma SameExtends(s: State)
    ensures Extends(s, s)
  {
  }

  lemma BindSafe(s: System, c: nat, order: Order, last: Order, steps: seq<ExchangeStep>)
    requires Safe(s) && c in s.calls && s.calls[c] == Binding(order, last, steps)
    ensures var t := CallStep(s, BindStep(c), s.calls[c]); Safe(t) && Extends(s.store, t.store)
  {
    hide Step, CallsOk, SendsOk;
    CallPhase(s, c);
    if steps != [] {
      if steps[0].exchangeId == "" {
        MoveSafe(s, c, Applying(order, last, steps));
      } else if order.id !in s.store.orders {
        MoveSafe(s, c, Done(order.key, last, StepFailed));
      } else {
        var op := Bind(order.id, steps[0].exchangeId);
        PermittedExtends(s.store, op);
        PhaseExtends(s.store, Step(s.store, op), s.calls[c]);
        BothSafe(s, op, c, Applying(order, last, steps));
      }
    }
  }

  lemma ClearSafe(s: System, c: nat, req: Request, opens: seq<Order>)
    requires Safe(s) && c in s.calls && s.calls[c] == Clearing(req, opens)
    ensures var t := CallStep(s, Clear(c), s.calls[c]); Safe(t) && Extends(s.store, t.store)
  {
    hide Step, CallsOk, SendsOk;
    if opens != [] {
      if opens[0].side != req.side {
        BothSafe(s, Cancel(opens[0].id, "self_trade_prevention"), c, Clearing(req, opens[1..]));
      } else {
        MoveSafe(s, c, Clearing(req, opens[1..]));
      }
    }
  }

  lemma ReadSafe(s: System, a: Action)
    requires Safe(s) && (a.Evaluate? || a.List?) && a.call in s.calls
    ensures var t := CallStep(s, a, s.calls[a.call]); Safe(t) && Extends(s.store, t.store)
  {
    hide Step, CallsOk, SendsOk, Listed, OpenOrders, SizedRequest, NewOrder;
    var p := s.calls[a.call];
    if (p.Evaluating? && a.Evaluate?) || (p.Listing? && a.List?) {
      MoveSafe(s, a.call, CallStep(s, a, p).calls[a.call]);
    }
  }

  lemma EarlySafe(s: System, a: Action)
    requires Safe(s) && (a.Evaluate? || a.List? || a.Clear? || a.ReserveUnder? || a.Mark?) && a.call in s.calls
    ensures var t := CallStep(s, a, s.calls[a.call]); Safe(t) && Extends(s.store, t.store)
  {
    hide Step, Safe, ReserveOrder, Listed, OpenOrders, SizedRequest, NewOrder, PhaseOk, Extends;
    var c := a.call;
    SameExtends(s.store);
    match (s.calls[c], a)
    case (_, Evaluate(_, _, _)) => ReadSafe(s, a);
    case (_, List(_)) => ReadSafe(s, a);
    case (Clearing(req, opens), Clear(_)) => ClearSafe(s, c, req, opens);
    case (Clearing(req, opens), ReserveUnder(_, newId)) => ReserveSafe(s, c, req, newId);
    case (Marking(order), Mark(_)) => MarkSafe(s, c, order);
    case _ =>
  }

  lemma LateSafe(s: System, a: Action)
    requires Safe(s) && (a.SendOut? || a.Reject? || a.BindStep? || a.ApplyStep? || a.RefuseStep?) && a.call in s.calls
    ensures var t := CallStep(s, a, s.calls[a.call]); Safe(t) && Extends(s.store, t.store)
  {
    hide Step, Safe, ApplyFirst, SendNow, PhaseOk, Extends;
    var c := a.call;
    SameExtends(s.store);
    match (s.calls[c], a)
    case (Sending(order), SendOut(_, reply)) => SendSafe(s, c, order, reply);
    case (Rejecting(order), Reject(_)) => RejectSafe(s, c);
    case (Binding(order, last, steps), BindStep(_)) => BindSafe(s, c, order, last, steps);
    case (Applying(order, last, steps), ApplyStep(_)) => if steps != [] { ApplySafe(s, c, order, last, steps); }
    case (Refusing(order, read, steps), RefuseStep(_)) => if steps != [] { RejectSafe(s, c); }
    case _ =>
  }

  lemma CallSafe(s: System, a: Action)
    requires Safe(s) && !a.Elsewhere? && !a.Begin? && a.call in s.calls
    ensures var t := CallStep(s, a, s.calls[a.call]); Safe(t) && Extends(s.store, t.store)
  {
    hide CallStep, Safe, Extends;
    if a.Evaluate? || a.List? || a.Clear? || a.ReserveUnder? || a.Mark? {
      EarlySafe(s, a);
    } else {
      LateSafe(s, a);
    }
  }

  /** The two places where a call writes back an order it read earlier. */
  lemma RejectSafe(s: System, c: nat)
    requires Safe(s) && c in s.calls
    ensures s.calls[c].Rejecting? ==>
              var order := s.calls[c].order;
              var t := Go(Then(s, Update(order)), c, Done(order.key, order, SendFailed));
              Safe(t) && Extends(s.store, t.store)
    ensures s.calls[c].Refusing? && s.calls[c].steps != [] ==>
              var Refusing(order, read, steps) := s.calls[c];
              var t := Go(Then(s, Update(read)), c, NextStep(order, read, steps[1..]));
              Safe(t) && Extends(s.store, t.store)
  {
    hide CallsOk, SendsOk, Step;
    CallPhase(s, c);
    match s.calls[c]
    case Rejecting(order) => WriteSafe(s, c, order, Done(order.key, order, SendFailed));
    case Refusing(order, read, steps) => if steps != [] { WriteSafe(s, c, read, NextStep(order, read, steps[1..])); }
    case _ =>
  }

  lemma MarkSafe(s: System, c: nat, order: Order)
    requires Safe(s) && c in s.calls && s.calls[c] == Marking(order)
    ensures var t := Go(Then(s, MarkSent(order.id)), c,
                        Sending(if order.id in s.store.orders then s.store.orders[order.id].(status := Sent)
                                else order));
            Safe(t) && Extends(s.store, t.store)
  {
    hide CallsOk, SendsOk, Step;
    CallPhase(s, c);
    StoredKnown(s, order);
    PermittedExtends(s.store, MarkSent(order.id));
    PhaseExtends(s.store, Step(s.store, MarkSent(order.id)), s.calls[c]);
    BothSafe(s, MarkSent(order.id), c, Sending(s.store.orders[order.id].(status := Sent)));
  }

  /** Writing back an order read earlier. */
  lemma WriteSafe(s: System, c: nat, o: Order, p: Phase)
    requires Safe(s) && c in s.calls && Known(s.store, o)
    requires Held(p) == Held(s.calls[c]) && PastSend(s.calls[c]) && PastSend(p)
    requires PhaseOk(s.store, p)
    ensures var t := Go(Then(s, Update(o)), c, p); Safe(t) && Extends(s.store, t.store)
  {
    hide CallsOk, SendsOk, Step, PhaseOk;
    PermittedExtends(s.store, Update(o));
    PhaseExtends(s.store, Step(s.store, Update(o)), p);
    BothSafe(s, Update(o), c, p);
  }

  lemma ActSafe(s: System, a: Action)
    requires Safe(s)
    ensures Safe(Act(s, a)) && Extends(s.store, Act(s, a).store)
  {
    hide Step, CallStep;
    match a
    case Begin(call, req) => BeginSafe(s, call, req);
    case Elsewhere(op) => if Permitted(s.store, op) { StoreStepSafe(s, op); }
    case _ => if a.call in s.calls { CallSafe(s, a); }
  }

  lemma BeginSafe(s: System, c: nat, req: Request)
    requires Safe(s)
    ensures Safe(Act(s, Begin(c, req))) && Act(s, Begin(c, req)).store == s.store
  {
    hide Coherent;
  }

  lemma {:induction false} RunSafe(boot: State, actions: seq<Action>)
    requires Coherent(boot)
    ensures Safe(Run(boot, actions))
  {
    hide Act;
    if actions != [] {
      RunSafe(boot, actions[..|actions|-1]);
      ActSafe(Run(boot, actions[..|actions|-1]), actions[|actions|-1]);
    }
  }

  // ----- the guarantees -----

  /**
   Under every interleaving, SendOrder is called at most once per idempotency key, and for the order the key
   is bound to.
   */
  lemma AtMostOneSend(boot: State, actions: seq<Action>)
    requires Coherent(boot)
    ensures var s := Run(boot, actions);
            && (forall m, n :: 0 <= m < n < |s.sends| ==> s.sends[m].key != s.sends[n].key)
            && (forall n :: 0 <= n < |s.sends| ==>
                              s.sends[n].key in s.store.idempotency && s.store.idempotency[s.sends[n].key]
                              == s.sends[n].orderId)
  {
    hide Run, PhaseOk, Coherent, Held, PastSend;
    RunSafe(boot, actions);
  }

  /** A key, once bound, stays bound to the same order id. */
  lemma {:induction false} BindingIsForGood(boot: State, actions: seq<Action>, later: seq<Action>, key: string)
    requires Coherent(boot) && key in Run(boot, actions).store.idempotency
    ensures var s, t := Run(boot, actions).store, Run(boot, actions + later).store;
            key in t.idempotency && t.idempotency[key] == s.idempotency[key]
  {
    hide Act;
    if later == [] {
      assert actions + later == actions;
    } else {
      var n := |later| - 1;
      BindingIsForGood(boot, actions, later[..n], key);
      RunSafe(boot, actions + later[..n]);
      ActSafe(Run(boot, actions + later[..n]), later[n]);
      assert (actions + later)[..|actions| + n] == actions + later[..n];
      BindingExtends(Run(boot, actions + later[..n]).store, Run(boot, actions + later).store, key);
    }
  }

  /** Every duplicate call is answered with an order carrying the id its key was first bound to. */
  lemma DuplicateGetsFirst(boot: State, actions: seq<Action>, later: seq<Action>, key: string, c: nat)
    requires Coherent(boot) && key in Run(boot, actions).store.idempotency
    requires var t := Run(boot, actions + later);
             c in t.calls && t.calls[c].Done? && t.calls[c].key == key && t.calls[c].outcome == WasDuplicate
    ensures Run(boot, actions + later).calls[c].order.id == Run(boot, actions).store.idempotency[key]
  {
    hide Run, Held, Coherent;
    RunSafe(boot, actions + later);
    BindingIsForGood(boot, actions, later, key);
    CallPhase(Run(boot, actions + later), c);
  }

  /** The duplicate's answer is the order as stored at that moment, and nothing else changes. */
  lemma DuplicateAnswer(s: System, c: nat, req: Request, newId: string)
    requires Safe(s) && c in s.calls && s.calls[c] == Clearing(req, []) && req.key in s.store.idempotency
    ensures var t := Act(s, ReserveUnder(c, newId));
            && t == s.(calls := s.calls[c := Done(req.key, s.store.orders[s.store.idempotency[req.key]], WasDuplicate)])
  {
  }

  /**
   A fill that arrives while a call waits for the exchange is forgotten if the exchange then reports
   an error: the call writes back the order as it read it, while the ledger keeps the fill.
   */
  lemma RejectedSubmitForgetsFill(s: System, c: nat, order: Order, e: FillEntry, x: ExecutionEvent, reason: string)
    requires Safe(s) && c in s.calls && s.calls[c] == Sending(order)
    requires order.id !in s.store.exchangeIds && OrderAt(s.store, order.id).filled == order.filled
    ensures var filled := Act(s, Elsewhere(Fill(order.id, e, x)));
            var done := Act(Act(filled, SendOut(c, SendError(reason))), Reject(c));
            && OrderAt(filled.store, order.id).filled == order.filled + e.quantity
            && OrderAt(done.store, order.id).filled == order.filled
            && done.store.ledger == s.store.ledger + [e]
  {
    hide FillPosition, FillOrder, PositionAt, Signed, CallsOk, SendsOk, Coherent;
    CallPhase(s, c);
    StoredKnown(s, order);
    FillKeepsId(s.store.orders[order.id], e.price, e.quantity);
    FA.FillFilled(s.store.orders[order.id], e.price, e.quantity);
  }

  // ----- fill accounting under every interleaving -----

  /** The store step an action of one call takes, if any. */
  ghost function CallOp(s: System, a: Action, p: Phase): Option<Op>
    requires !a.Elsewhere? && !a.Begin?
  {
    match (p, a)
    case (Clearing(req, opens), Clear(_)) =>
      if opens != [] && opens[0].side != req.side then Some(Cancel(opens[0].id, "self_trade_prevention")) else None
    case (Clearing(req, opens), ReserveUnder(_, newId)) =>
      if opens == [] && !Duplicate(s.store, req.key)
      && newId !in s.store.orders then Some(Reserve(NewOrder(req, newId, New)))
      else None
    case (Marking(order), Mark(_)) => Some(MarkSent(order.id))
    case (Rejecting(order), Reject(_)) => Some(Update(order))
    case (Binding(order, _, steps), BindStep(_)) =>
      if steps != [] && steps[0].exchangeId != ""
      && order.id in s.store.orders then Some(Bind(order.id, steps[0].exchangeId))
      else None
    case (Applying(order, _, steps), ApplyStep(_)) => if steps != [] then StepOp(s, order, steps[0]) else None
    case (Refusing(_, read, steps), RefuseStep(_)) => if steps != [] then Some(Update(read)) else None
    case _ => None
  }

  ghost function StepOp(s: System, order: Order, step: ExchangeStep): Option<Op> {
    match step.status
    case Ack => if order.id in s.store.orders then Some(MarkAck(order.id)) else None
    case Canceled => if order.id in s.store.orders then Some(Cancel(order.id, step.cancelReason)) else None
    case Partial | Filled =>
      if step.fill.Some? && Resolve(s.store, order.id) in s.store.orders
      then Some(Fill(order.id, step.fill.value.0, step.fill.value.1)) else None
    case _ => None
  }

  ghost function OpOf(s: System, a: Action): Option<Op> {
    match a
    case Begin(_, _) => None
    case Elsewhere(op) => if Permitted(s.store, op) then Some(op) else None
    case _ => if a.call in s.calls then CallOp(s, a, s.calls[a.call]) else None
  }

  ghost function AfterOp(s: State, op: Option<Op>): State {
    if op.Some? then Step(s, op.value) else s
  }

  /** An action is one store step or none. */
  lemma ActIsStep(s: System, a: Action)
    ensures Act(s, a).store == AfterOp(s.store, OpOf(s, a))
  {
    hide Step, Permitted, Listed, OpenOrders, SizedRequest, NewOrder, NextStep, Resolve, OrderAt;
  }

  /** The action writes back an order with another filled quantity than is stored. */
  ghost predicate Stale(s: System, a: Action) {
    var op := OpOf(s, a);
    op.Some? && op.value.Update? && op.value.order.filled != OrderAt(s.store, op.value.order.id).filled
  }

  lemma StaleIsLoss(s: System, a: Action)
    ensures OpOf(s, a).Some? ==> (FA.KeepsFilled(s.store, OpOf(s, a).value) <==> !Stale(s, a))
    ensures Stale(s, a) ==> OpOf(s, a).Some?
  {
    hide Step, Listed, OpenOrders, SizedRequest, NextStep, Resolve;
  }

  /** The fills a run applies, after those already in the boot store. */
  ghost function FillLog(boot: State, log: seq<FA.Applied>, actions: seq<Action>): seq<FA.Applied> {
    if actions == [] then log
    else
      var past := actions[..|actions|-1];
      var s := Run(boot, past);
      var op := OpOf(s, actions[|actions|-1]);
      FillLog(boot, log, past) + if op.Some? then FA.AppliedBy(s.store, op.value) else []
  }

  ghost predicate FilledAt(boot: State, log: seq<FA.Applied>, actions: seq<Action>, n: nat)
    requires n <= |actions|
  {
    FA.FilledAgrees(Run(boot, actions[..n]).store, FillLog(boot, log, actions[..n]))
  }

  lemma {:induction false} RunLogKnown(boot: State, log: seq<FA.Applied>, actions: seq<Action>)
    requires Coherent(boot) && FA.LogKnown(boot, log)
    ensures FA.LogKnown(Run(boot, actions).store, FillLog(boot, log, actions))
  {
    hide Act, FA.LogKnown, FA.AppliedBy, Safe, OpOf, Step, Coherent;
    if actions != [] {
      var past, a := actions[..|actions|-1], actions[|actions|-1];
      var s := Run(boot, past);
      RunLogKnown(boot, log, past);
      RunSafe(boot, past);
      SafeCoherent(s);
      ActIsStep(s, a);
      if OpOf(s, a).Some? {
        FA.StepKnows(s.store, OpOf(s, a).value, FillLog(boot, log, past));
      } else {
        assert FillLog(boot, log, past) + [] == FillLog(boot, log, past);
      }
    }
  }

  lemma SafeCoherent(s: System)
    requires Safe(s)
    ensures Coherent(s.store)
  {
  }

  lemma FilledNext(boot: State, log: seq<FA.Applied>, actions: seq<Action>, n: nat)
    requires Coherent(boot) && FA.LogKnown(boot, log) && n < |actions| && FilledAt(boot, log, actions, n)
    ensures FilledAt(boot, log, actions, n + 1) <==> !Stale(Run(boot, actions[..n]), actions[n])
  {
    hide Act, FA.LogKnown, FA.FilledAgrees, FA.KeepsFilled, FA.AppliedBy, Safe, OpOf, Stale, Step, Coherent;
    var past, a := actions[..n], actions[n];
    var s, filled := Run(boot, past), FillLog(boot, log, past);
    assert actions[..n+1][..n] == past;
    RunLogKnown(boot, log, past);
    RunSafe(boot, past);
    SafeCoherent(s);
    ActIsStep(s, a);
    StaleIsLoss(s, a);
    if OpOf(s, a).Some? {
      FA.StepFilledIff(s.store, OpOf(s, a).value, filled);
    } else {
      assert filled + [] == filled;
    }
  }

  /**
   Under every interleaving, from any boot store whose orders agree with its fills: each order's filled quantity is
   always the sum of the fills applied to it exactly when no action writes back an order read before a fill came in.
   */
  lemma FilledIsSum(boot: State, log: seq<FA.Applied>, actions: seq<Action>)
    requires Coherent(boot) && FA.LogKnown(boot, log) && FA.FilledAgrees(boot, log)
    ensures (forall n :: 0 <= n <= |actions| ==> FilledAt(boot, log, actions, n))
            <==> forall n :: 0 <= n < |actions| ==> !Stale(Run(boot, actions[..n]), actions[n])
  {
    hide Run, FilledAt, Stale, Coherent, FA.LogKnown, FA.FilledAgrees;
    if forall n :: 0 <= n <= |actions| ==> FilledAt(boot, log, actions, n) {
      forall n | 0 <= n < |actions| ensures !Stale(Run(boot, actions[..n]), actions[n]) {
        FilledNext(boot, log, actions, n);
        assert FilledAt(boot, log, actions, n + 1);
      }
    }
    if forall n :: 0 <= n < |actions| ==> !Stale(Run(boot, actions[..n]), actions[n]) {
      BootFilled(boot, log, actions);
      for n := 0 to |actions|
        invariant forall m :: 0 <= m <= n ==> FilledAt(boot, log, actions, m)
      {
        FilledNext(boot, log, actions, n);
      }
    }
  }

  lemma BootFilled(boot: State, log: seq<FA.Applied>, actions: seq<Action>)
    requires FA.FilledAgrees(boot, log)
    ensures FilledAt(boot, log, actions, 0)
  {
  }
}

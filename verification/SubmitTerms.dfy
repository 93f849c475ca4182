/**
 What a call asks for is what is stored and sent for it, under every interleaving: symbol, side, price
 and gated size, with self-trade prevention clearing the other side only.
 */
module SubmitTerms {
  import opened Numeric
  import opened Domain
  import opened Store
  import opened SubmitProtocol

  // ----- what a call asked for -----

  /** The request the call began with. */
  function Begun(actions: seq<Action>, c: nat): Option<Request> {
    if actions == [] then None
    else
      var past, a := Begun(actions[..|actions|-1], c), actions[|actions|-1];
      if past.Some? then past else if a.Begin? && a.call == c then Some(a.req) else None
  }

  /** The risk decision that let the call through. */
  ghost function Granted(boot: State, actions: seq<Action>, c: nat): Option<Decision> {
    if actions == [] then None
    else
      var past, a := actions[..|actions|-1], actions[|actions|-1];
      var before := Granted(boot, past, c);
      if before.Some? then before else NewlyGranted(SubmitProtocol.Run(boot, past), a, c)
  }

  ghost function NewlyGranted(s: System, a: Action, c: nat): Option<Decision> {
    if a.Evaluate? && a.call == c && c in s.calls && s.calls[c].Evaluating? && s.calls[c].req.key != ""
    && a.decision.allowed
    then Some(a.decision) else None
  }

  /** The orders that others have given another price. */
  function Repriced(actions: seq<Action>): set<string> {
    if actions == [] then {}
    else
      var a := actions[|actions|-1];
      Repriced(actions[..|actions|-1]) + if a.Elsewhere? && a.op.Reprice? then {a.op.id} else {}
  }

  /** The order is the request's own: key, symbol, side, gated size and, unless others changed it, price. */
  ghost predicate Carries(o: Order, req: Request, d: Decision, repriced: set<string>) {
    && o.key == req.key && o.symbol == req.symbol && o.side == req.side
    && o.size == GatedSize(req, d)
    && (o.id in repriced || o.price == req.price)
  }

  function GatedSize(req: Request, d: Decision): real {
    if d.multiplier <= 0.0 || d.multiplier >= 1.0 || req.reduceOnly then req.size else req.size * d.multiplier
  }

  ghost predicate SizedFrom(sized: Request, req: Request, d: Decision) {
    && sized.key == req.key && sized.symbol == req.symbol && sized.side == req.side && sized.price == req.price
    && sized.size == GatedSize(req, d)
  }

  // ----- the invariant -----

  /** A listed order still stored with the symbol and side it was listed with. */
  ghost predicate StillThere(s: State, o: Order, symbol: string) {
    o.symbol == symbol && o.id in s.orders && s.orders[o.id].symbol == symbol && s.orders[o.id].side == o.side
  }

  ghost predicate Bound(s: State, p: Phase, req: Request, d: Decision, repriced: set<string>) {
    Held(p).Some? ==>
      && Held(p).value == req.key && Held(p).value in s.idempotency && s.idempotency[Held(p).value] in s.orders
      && Carries(s.orders[s.idempotency[Held(p).value]], req, d, repriced)
  }

  ghost predicate PhaseAsked(s: State, p: Phase, begun: Option<Request>, granted: Option<Decision>,
                             repriced: set<string>) {
    begun.Some?
    && match p
       case Evaluating(req) => req == begun.value && granted.None?
       case Listing(req) => granted.Some? && SizedFrom(req, begun.value, granted.value)
       case Clearing(req, opens) =>
         && granted.Some? && SizedFrom(req, begun.value, granted.value)
         && forall o :: o in opens ==> StillThere(s, o, req.symbol)
       case Refusing(order, read, _) =>
         && granted.Some? && Carries(order, begun.value, granted.value, repriced)
         && Carries(read, begun.value, granted.value, repriced) && read.id == order.id
         && Bound(s, p, begun.value, granted.value, repriced)
       case Done(_, _, _) => Held(p).Some? ==> granted.Some? && Bound(s, p, begun.value, granted.value, repriced)
       case _ =>
         && granted.Some? && Carries(Working(p).value, begun.value, granted.value, repriced)
         && Bound(s, p, begun.value, granted.value, repriced)
  }

  /** Orders keep what they were placed with; a price may change for the orders named. */
  ghost predicate KeepsTerms(s: State, t: State, repriced: set<string>) {
    && (forall id :: id in s.orders ==> id in t.orders && SameTerms(s.orders[id], t.orders[id], repriced))
    && (forall key :: key in s.idempotency ==> key in t.idempotency && t.idempotency[key] == s.idempotency[key])
  }

  ghost predicate SameTerms(o: Order, p: Order, repriced: set<string>) {
    p.id == o.id && p.key == o.key && p.symbol == o.symbol && p.side == o.side && p.size == o.size
    && (o.id in repriced || p.price == o.price)
  }

  lemma CarriesOn(o: Order, p: Order, req: Request, d: Decision, repriced: set<string>, more: set<string>)
    requires Carries(o, req, d, repriced) && SameTerms(o, p, more) && repriced <= more
    ensures Carries(p, req, d, more) && Carries(o, req, d, more)
  {
    hide GatedSize;
  }

  lemma PhaseKept(
    s: State, t: State, p: Phase, begun: Option<Request>, granted: Option<Decision>, repriced: set<string>,
    more: set<string>)
    requires PhaseAsked(s, p, begun, granted, repriced) && Coherent(s) && KeepsTerms(s, t, more) && repriced <= more
    ensures PhaseAsked(t, p, begun, granted, more)
  {
    hide Carries, SizedFrom, Coherent;
    if Held(p).Some? {
      BoundKept(s, t, p, begun.value, granted.value, repriced, more);
    }
    match p {
      case Evaluating(_) =>
      case Listing(_) =>
      case Clearing(req, opens) =>
        forall o | o in opens ensures StillThere(t, o, req.symbol) {
          assert StillThere(s, o, req.symbol);
        }
      case Refusing(order, read, _) =>
        MoreRepriced(order, begun.value, granted.value, repriced, more);
        MoreRepriced(read, begun.value, granted.value, repriced, more);
      case Done(_, _, _) =>
      case _ => MoreRepriced(Working(p).value, begun.value, granted.value, repriced, more);
    }
  }

  lemma MoreRepriced(o: Order, req: Request, d: Decision, repriced: set<string>, more: set<string>)
    requires Carries(o, req, d, repriced) && repriced <= more
    ensures Carries(o, req, d, more)
  {
    hide GatedSize;
  }

  lemma BoundKept(
    s: State, t: State, p: Phase, req: Request, d: Decision, repriced: set<string>, more: set<string>)
    requires Bound(s, p, req, d, repriced) && KeepsTerms(s, t, more) && repriced <= more
    ensures Bound(t, p, req, d, more)
  {
    hide Carries, SameTerms, Held;
    if Held(p).Some? {
      var id := s.idempotency[Held(p).value];
      CarriesOn(s.orders[id], t.orders[id], req, d, repriced, more);
    }
  }

  // ----- store steps keep the terms of orders -----

  /** Writing an order back with the terms it is stored with. */
  ghost predicate WritesTerms(s: State, op: Op, repriced: set<string>) {
    op.Update? && op.order.id in s.orders ==> SameTerms(s.orders[op.order.id], op.order, repriced)
  }

  lemma StepKeepsTerms(s: State, op: Op, repriced: set<string>)
    requires Coherent(s) && !op.Upsert? && (op.Reserve? ==> op.order.id !in s.orders) && WritesTerms(s, op, repriced)
    requires op.Reprice? ==> op.id in repriced
    ensures KeepsTerms(s, Step(s, op), repriced)
  {
    hide FillPosition, PositionAt, Signed, FillOrder, Terminal, IndexExchange, KeepsTerms, SameTerms, Coherent;
    NothingKeepsTerms(s, repriced);
    match op {
      case Reserve(o) => if !Duplicate(s, o.key) { AddKeepsTerms(s, Step(s, op), o.id); }
      case Update(o) => WriteKeepsTerms(s, o, repriced);
      case Fill(id, entry, _) =>
        if Resolve(s, id) in s.orders {
          var o := s.orders[Resolve(s, id)];
          StoredId(s, Resolve(s, id));
          FillTerms(o, entry.price, entry.quantity);
          EditKeepsTerms(s, Step(s, op), Resolve(s, id), FillOrder(o, entry.price, entry.quantity), repriced);
        }
      case SetPosition(_) => SameOrdersKeepTerms(s, Step(s, op), repriced);
      case Upsert(_) =>
      case _ =>
        if op.id in s.orders && Step(s, op) != s {
          StoredId(s, op.id);
          EditIs(s, op);
          EditKeepsTerms(s, Step(s, op), op.id, Step(s, op).orders[op.id], repriced);
        }
    }
  }

  lemma SameOrdersKeepTerms(s: State, t: State, repriced: set<string>)
    requires t.orders == s.orders && t.idempotency == s.idempotency
    ensures KeepsTerms(s, t, repriced)
  {
  }

  lemma AddKeepsTerms(s: State, t: State, id: string)
    requires id !in s.orders && id in t.orders && t.orders == s.orders[id := t.orders[id]]
    requires forall key :: key in s.idempotency ==> key in t.idempotency && t.idempotency[key] == s.idempotency[key]
    ensures forall repriced :: KeepsTerms(s, t, repriced)
  {
  }

  lemma WriteKeepsTerms(s: State, o: Order, repriced: set<string>)
    requires WritesTerms(s, Update(o), repriced)
    ensures KeepsTerms(s, Step(s, Update(o)), repriced)
  {
  }

  lemma EditKeepsTerms(s: State, t: State, id: string, o: Order, repriced: set<string>)
    requires id in s.orders && SameTerms(s.orders[id], o, repriced)
    requires t.orders == s.orders[id := o] && t.idempotency == s.idempotency
    ensures KeepsTerms(s, t, repriced)
  {
  }

  /** A step on one order by its id edits that order alone, and of its terms at most the price. */
  lemma EditIs(s: State, op: Op)
    requires Coherent(s) && (op.MarkSent? || op.MarkAck? || op.Cancel? || op.Reprice? || op.Bind?) && op.id in s.orders
    ensures var t := Step(s, op);
            && op.id in t.orders && t.orders == s.orders[op.id := t.orders[op.id]] && t.idempotency == s.idempotency
            && SameTerms(s.orders[op.id], t.orders[op.id], if op.Reprice? then {op.id} else {})
    ensures op.Reprice? ==> s.orders[op.id].id == op.id
  {
    hide FillPosition, PositionAt, Signed, FillOrder, Terminal, Resolve, Duplicate, Coherent;
    StoredId(s, op.id);
  }

  lemma FillTerms(o: Order, price: real, quantity: real)
    ensures var f := FillOrder(o, price, quantity);
            && f.id == o.id && f.key == o.key && f.symbol == o.symbol && f.side == o.side && f.size == o.size
            && f.price == o.price
  {
  }

  /** Others write orders back as they read them; of orders they repriced, the price may differ. */
  ghost predicate OthersKeepTerms(boot: State, actions: seq<Action>) {
    forall n :: 0 <= n < |actions| && actions[n].Elsewhere? ==>
                  WritesTerms(SubmitProtocol.Run(boot, actions[..n]).store, actions[n].op, Repriced(actions[..n]))
  }

  lemma OthersPast(boot: State, actions: seq<Action>)
    requires OthersKeepTerms(boot, actions) && actions != []
    ensures OthersKeepTerms(boot, actions[..|actions|-1])
    ensures var a := actions[|actions|-1];
            a.Elsewhere? ==> WritesTerms(SubmitProtocol.Run(boot, actions[..|actions|-1]).store, a.op,
                                         Repriced(actions[..|actions|-1]))
  {
    hide WritesTerms, SubmitProtocol.Run, Repriced;
    var past := actions[..|actions|-1];
    forall n | 0 <= n < |past| && past[n].Elsewhere?
      ensures WritesTerms(SubmitProtocol.Run(boot, past[..n]).store, past[n].op, Repriced(past[..n]))
    {
      assert past[..n] == actions[..n];
    }
  }

  ghost predicate CallsAsked(boot: State, actions: seq<Action>) {
    var s := SubmitProtocol.Run(boot, actions);
    forall c :: c in s.calls ==>
                  PhaseAsked(s.store, s.calls[c], Begun(actions, c), Granted(boot, actions, c), Repriced(actions))
  }

  ghost predicate SendsAsked(boot: State, actions: seq<Action>) {
    var s := SubmitProtocol.Run(boot, actions);
    forall n :: 0 <= n < |s.sends| ==>
                  var c := s.sends[n].call;
                  && Begun(actions, c).Some? && Granted(boot, actions, c).Some?
                  && Carries(s.sends[n].order, Begun(actions, c).value, Granted(boot, actions, c).value,
                             Repriced(actions))
  }

  /** What a call writes back or cancels has the terms of the stored order. */
  lemma OwnOpKeepsTerms(s: System, a: Action, begun: Option<Request>, granted: Option<Decision>, repriced: set<string>)
    requires Safe(s) && !a.Elsewhere? && !a.Begin? && a.call in s.calls
    requires PhaseAsked(s.store, s.calls[a.call], begun, granted, repriced)
    ensures KeepsTerms(s.store, AfterOp(s.store, OpOf(s, a)), repriced)
  {
    hide Step, CallsOk, SendsOk, Coherent, WritesTerms, KeepsTerms, PhaseAsked;
    CallPhase(s, a.call);
    NothingKeepsTerms(s.store, repriced);
    if OpOf(s, a).Some? {
      var op := OpOf(s, a).value;
      if op.Update? {
        WriteBack(s, a, op.order, begun, granted, repriced);
      } else {
        NotAnUpdate(s.store, op, repriced);
      }
      StepKeepsTerms(s.store, op, repriced);
    }
  }

  lemma NothingKeepsTerms(s: State, repriced: set<string>)
    ensures KeepsTerms(s, s, repriced)
  {
  }

  lemma NotAnUpdate(s: State, op: Op, repriced: set<string>)
    ensures !op.Update? ==> WritesTerms(s, op, repriced)
  {
  }

  lemma WriteBack(s: System, a: Action, o: Order, begun: Option<Request>, granted: Option<Decision>,
                  repriced: set<string>)
    requires Safe(s) && !a.Elsewhere? && !a.Begin? && a.call in s.calls && OpOf(s, a) == Some(Update(o))
    requires PhaseAsked(s.store, s.calls[a.call], begun, granted, repriced)
    ensures WritesTerms(s.store, Update(o), repriced)
  {
    hide Step, CallsOk, SendsOk, GatedSize;
    CallPhase(s, a.call);
    var p := s.calls[a.call];
    assert p.Rejecting? || p.Refusing?;
    assert o.id == Working(p).value.id && s.store.idempotency[Held(p).value] == o.id;
  }

  // ----- a call's own next step -----

  lemma {:induction false} ListedMembers(orders: set<Order>)
    ensures forall o :: o in Listed(orders) ==> o in orders
    decreases |orders|
  {
    if orders != {} {
      var o :| o in orders && Listed(orders) == [o] + Listed(orders - {o});
      ListedMembers(orders - {o});
    }
  }

  lemma ListedStillThere(s: State, symbol: string)
    requires Coherent(s)
    ensures forall o :: o in Listed(OpenOrders(s, symbol)) ==> StillThere(s, o, symbol)
  {
    ListedMembers(OpenOrders(s, symbol));
  }

  lemma GateKeepsTerms(req: Request, d: Decision)
    ensures SizedFrom(SizedRequest(req, d), req, d)
  {
  }

  lemma DrawnCarries(sized: Request, req: Request, d: Decision, newId: string, repriced: set<string>)
    requires SizedFrom(sized, req, d)
    ensures Carries(NewOrder(sized, newId, New), req, d, repriced)
    ensures NewOrder(sized, newId, New).id == newId
  {
  }

  /** The status and reasons of an order are not among its terms. */
  lemma StatusIsNoTerm(o: Order, req: Request, d: Decision, repriced: set<string>, status: Status, reason: string)
    ensures Carries(o.(status := status), req, d, repriced) == Carries(o, req, d, repriced)
    ensures Carries(o.(status := status, rejectReason := reason), req, d, repriced) == Carries(o, req, d, repriced)
  {
  }

  /** A call that has an order keeps asking for the same through any phase with that order. */
  lemma OrderStays(
    t: State, p: Phase, q: Phase, begun: Option<Request>, granted: Option<Decision>, repriced: set<string>)
    requires PhaseAsked(t, p, begun, granted, repriced) && Working(p).Some?
    requires Held(q) == Held(p) && (q.Done? || Working(q).Some?)
    requires Working(q).Some? ==> SameTerms(Working(p).value, Working(q).value, {})
    requires q.Refusing? ==> SameTerms(Working(p).value, q.read, {})
    ensures PhaseAsked(t, q, begun, granted, repriced)
  {
    hide Carries, SameTerms, GatedSize;
    if Working(q).Some? {
      CarriesOn(Working(p).value, Working(q).value, begun.value, granted.value, repriced, repriced) by {
        FewerRepriced(Working(p).value, Working(q).value, repriced);
      }
      SameIds(Working(p).value, Working(q).value);
    }
    if q.Refusing? {
      CarriesOn(Working(p).value, q.read, begun.value, granted.value, repriced, repriced) by {
        FewerRepriced(Working(p).value, q.read, repriced);
      }
      SameIds(Working(p).value, q.read);
    }
  }

  lemma FewerRepriced(o: Order, p: Order, repriced: set<string>)
    requires SameTerms(o, p, {})
    ensures SameTerms(o, p, repriced)
  {
  }

  lemma SameIds(o: Order, p: Order)
    requires SameTerms(o, p, {})
    ensures p.id == o.id
  {
  }

  /** The order stored for a call past its reservation is its own. */
  lemma StoredIsAsked(s: System, c: nat, begun: Option<Request>, granted: Option<Decision>, repriced: set<string>)
    requires Safe(s) && c in s.calls && Working(s.calls[c]).Some?
    requires PhaseAsked(s.store, s.calls[c], begun, granted, repriced)
    ensures var id := Working(s.calls[c]).value.id;
            begun.Some? && granted.Some? && id in s.store.orders && s.store.orders[id].id == id
            && Carries(s.store.orders[id], begun.value, granted.value, repriced)
  {
    hide CallsOk, SendsOk, Carries;
    CallPhase(s, c);
    StoredId(s.store, Working(s.calls[c]).value.id);
  }

  /** A phase that reads the stored order anew. */
  lemma StoredStays(
    t: State, p: Phase, q: Phase, begun: Option<Request>, granted: Option<Decision>, repriced: set<string>)
    requires PhaseAsked(t, p, begun, granted, repriced) && Working(p).Some?
    requires Held(q) == Held(p) && Working(q).Some? && Carries(Working(q).value, begun.value, granted.value, repriced)
    requires q.Refusing? ==> Carries(q.read, begun.value, granted.value, repriced) && q.read.id == q.order.id
    ensures PhaseAsked(t, q, begun, granted, repriced)
  {
    hide Carries;
  }

  /** An action moves its own call only, and calls never go away. */
  lemma CallsStay(s: System, a: Action)
    ensures s.calls.Keys <= Act(s, a).calls.Keys
    ensures forall c :: c in s.calls && (a.Elsewhere? || a.Begin? || c != a.call) ==> Act(s, a).calls[c] == s.calls[c]
    ensures Act(s, a).calls.Keys == s.calls.Keys + if a.Begin? then {a.call} else {}
    ensures a.Begin? && a.call !in s.calls ==> Act(s, a).calls[a.call] == Evaluating(a.req)
    ensures forall n :: 0 <= n < |s.sends| ==> n < |Act(s, a).sends| && Act(s, a).sends[n] == s.sends[n]
    ensures |Act(s, a).sends| <= |s.sends| + 1
    ensures |Act(s, a).sends| > |s.sends| ==>
              && a.SendOut? && a.call in s.calls && s.calls[a.call].Sending?
              && Act(s, a).sends[|s.sends|].call == a.call && Act(s, a).sends[|s.sends|].order == s.calls[a.call].order
  {
    hide Step, Permitted, CallStep;
    if !a.Begin? && !a.Elsewhere? && a.call in s.calls {
      CallMovesItself(s, a);
    }
  }

  /** Only the call's own phase differs, and no send was made. */
  ghost predicate OwnOnly(s: System, t: System, c: nat) {
    c in t.calls && t.calls == s.calls[c := t.calls[c]] && t.sends == s.sends
  }

  lemma ReserveOwnOnly(s: System, c: nat, req: Request, newId: string)
    requires c in s.calls
    ensures OwnOnly(s, ReserveOrder(s, c, req, newId), c)
  {
    hide Step, NewOrder, OrderAt, Duplicate;
  }

  lemma ApplyOwnOnly(s: System, c: nat, order: Order, last: Order, steps: seq<ExchangeStep>)
    requires c in s.calls && steps != []
    ensures OwnOnly(s, ApplyFirst(s, c, order, last, steps), c)
  {
    hide Step, OrderAt, Resolve, NextStep;
  }

  lemma CallMovesItself(s: System, a: Action)
    requires !a.Begin? && !a.Elsewhere? && a.call in s.calls
    ensures var t := CallStep(s, a, s.calls[a.call]);
            if a.SendOut? && s.calls[a.call].Sending? then
              && a.call in t.calls && t.calls == s.calls[a.call := t.calls[a.call]] && |t.sends| == |s.sends| + 1
              && t.sends[..|s.sends|] == s.sends
              && t.sends[|s.sends|].call == a.call && t.sends[|s.sends|].order == s.calls[a.call].order
            else OwnOnly(s, t, a.call)
  {
    hide Step, Listed, OpenOrders, SizedRequest, NewOrder, NextStep, OrderAt, ReserveOrder, ApplyFirst;
    match (s.calls[a.call], a) {
      case (Clearing(req, opens), ReserveUnder(_, newId)) => ReserveOwnOnly(s, a.call, req, newId);
      case (Applying(order, last, steps), ApplyStep(_)) =>
        if steps != [] { ApplyOwnOnly(s, a.call, order, last, steps); }
      case _ =>
    }
  }

  lemma EarlyPhaseAsked(
    s: System, a: Action, begun: Option<Request>, granted: Option<Decision>, later: Option<Decision>,
    repriced: set<string>)
    requires Safe(s) && (a.Evaluate? || a.List? || a.Clear? || a.ReserveUnder?) && a.call in s.calls
    requires PhaseAsked(s.store, s.calls[a.call], begun, granted, repriced)
    requires later == if granted.Some? then granted else NewlyGranted(s, a, a.call)
    requires KeepsTerms(s.store, Act(s, a).store, repriced)
    ensures a.call in Act(s, a).calls
    ensures PhaseAsked(Act(s, a).store, Act(s, a).calls[a.call], begun, later, repriced)
  {
    hide Step, CallsOk, SendsOk, Coherent, Carries, SizedFrom, KeepsTerms, StillThere, OpenOrders, Listed, SizedRequest,
         NewOrder, Safe, ReserveOrder, PhaseAsked, OrderAt;
    var p, t := s.calls[a.call], Act(s, a).store;
    SafeCoherent(s);
    CallsStay(s, a);
    PhaseKept(s.store, t, p, begun, granted, repriced, repriced);
    match (p, a) {
      case (Evaluating(req), Evaluate(_, d, newId)) => EvaluateAsked(s, a, begun, granted, later, repriced);
      case (Listing(req), List(_)) =>
        ListedStillThere(s.store, req.symbol);
        ListAsked(s, a, begun, granted, repriced);
      case (Clearing(req, opens), Clear(_)) => ClearAsked(t, p, begun, granted, repriced);
      case (Clearing(req, opens), ReserveUnder(_, newId)) =>
        if opens == [] { ReserveAsked(s, a.call, req, newId, begun, granted, repriced); }
      case _ =>
    }
  }

  lemma EvaluateAsked(
    s: System, a: Action, begun: Option<Request>, granted: Option<Decision>, later: Option<Decision>,
    repriced: set<string>)
    requires a.Evaluate? && a.call in s.calls && s.calls[a.call].Evaluating?
    requires PhaseAsked(s.store, s.calls[a.call], begun, granted, repriced)
    requires later == if granted.Some? then granted else NewlyGranted(s, a, a.call)
    ensures PhaseAsked(s.store, Act(s, a).calls[a.call], begun, later, repriced)
  {
    hide SizedFrom, SizedRequest, NewOrder;
    GateKeepsTerms(s.calls[a.call].req, a.decision);
  }

  lemma ListAsked(s: System, a: Action, begun: Option<Request>, granted: Option<Decision>, repriced: set<string>)
    requires a.List? && a.call in s.calls && s.calls[a.call].Listing?
    requires PhaseAsked(s.store, s.calls[a.call], begun, granted, repriced)
    requires var req := s.calls[a.call].req;
             forall o :: o in Listed(OpenOrders(s.store, req.symbol)) ==> StillThere(s.store, o, req.symbol)
    ensures PhaseAsked(s.store, Act(s, a).calls[a.call], begun, granted, repriced)
  {
    hide SizedFrom, StillThere, OpenOrders, Listed;
  }

  lemma ClearAsked(t: State, p: Phase, begun: Option<Request>, granted: Option<Decision>, repriced: set<string>)
    requires p.Clearing? && PhaseAsked(t, p, begun, granted, repriced)
    ensures p.opens != [] ==> PhaseAsked(t, Clearing(p.req, p.opens[1..]), begun, granted, repriced)
  {
    hide SizedFrom, StillThere;
  }

  lemma ReserveAsked(
    s: System, c: nat, req: Request, newId: string, begun: Option<Request>, granted: Option<Decision>,
    repriced: set<string>)
    requires c in s.calls && s.calls[c] == Clearing(req, [])
             && PhaseAsked(s.store, s.calls[c], begun, granted, repriced)
    ensures var t := ReserveOrder(s, c, req, newId); PhaseAsked(t.store, t.calls[c], begun, granted, repriced)
  {
    hide Carries, SizedFrom, NewOrder, OrderAt;
    DrawnCarries(req, begun.value, granted.value, newId, repriced);
    DrawnStatus(req, newId);
  }

  lemma DrawnStatus(req: Request, newId: string)
    ensures var o := NewOrder(req, newId, New); o.(status := New) == o && o.key == req.key && o.id == newId
  {
  }

  lemma LatePhaseAsked(s: System, a: Action, begun: Option<Request>, granted: Option<Decision>, repriced: set<string>)
    requires Safe(s) && (a.SendOut? || a.Reject? || a.BindStep? || a.ApplyStep? || a.RefuseStep? || a.Mark?)
    requires a.call in s.calls && PhaseAsked(s.store, s.calls[a.call], begun, granted, repriced)
    requires KeepsTerms(s.store, Act(s, a).store, repriced)
    ensures a.call in Act(s, a).calls
    ensures PhaseAsked(Act(s, a).store, Act(s, a).calls[a.call], begun, granted, repriced)
  {
    hide Step, CallsOk, SendsOk, Coherent, Carries, KeepsTerms, Safe, PhaseAsked, ApplyFirst, OrderAt, SameTerms,
         Held, SendNow, NextStep;
    var c, p, t := a.call, s.calls[a.call], Act(s, a).store;
    SafeCoherent(s);
    CallsStay(s, a);
    PhaseKept(s.store, t, p, begun, granted, repriced, repriced);
    var q := Act(s, a).calls[c];
    match (p, a) {
      case (Marking(order), Mark(_)) =>
        StoredIsAsked(s, c, begun, granted, repriced);
        MarkAsked(s, c, order, begun, granted, repriced);
        StoredStays(t, p, q, begun, granted, repriced);
      case (Applying(order, last, steps), ApplyStep(_)) =>
        if steps != [] {
          StoredIsAsked(s, c, begun, granted, repriced);
          ApplyAsked(s, c, order, last, steps, t, begun, granted, repriced);
        }
      case _ =>
        LateKeepsOrder(s, a);
        if q != p {
          OrderStays(t, p, q, begun, granted, repriced);
        }
    }
  }

  /** Sending, binding and writing back keep the call at its order. */
  lemma LateKeepsOrder(s: System, a: Action)
    requires !a.Begin? && !a.Elsewhere? && a.call in s.calls
    requires a.SendOut? || a.Reject? || a.BindStep? || a.RefuseStep? || (a.Mark? && !s.calls[a.call].Marking?)
             || (a.ApplyStep? && !s.calls[a.call].Applying?)
    ensures a.call in Act(s, a).calls
    ensures var p, q := s.calls[a.call], Act(s, a).calls[a.call];
            q == p || (Working(p).Some? && Held(q) == Held(p) && !q.Refusing?
                       && (q.Done? || (Working(q).Some? && SameTerms(Working(p).value, Working(q).value, {}))))
  {
    hide Step, OrderAt, ReserveOrder, ApplyFirst, Listed, OpenOrders, NewOrder;
  }

  lemma MarkAsked(
    s: System, c: nat, order: Order, begun: Option<Request>, granted: Option<Decision>, repriced: set<string>)
    requires Safe(s) && c in s.calls && s.calls[c] == Marking(order) && begun.Some? && granted.Some?
    requires order.id in s.store.orders && Carries(s.store.orders[order.id], begun.value, granted.value, repriced)
    ensures var q := Act(s, Mark(c)).calls[c];
            && q.Sending? && Carries(q.order, begun.value, granted.value, repriced) && Held(q) == Held(s.calls[c])
  {
    hide Step, CallsOk, SendsOk, Coherent, Carries;
    CallPhase(s, c);
    StatusIsNoTerm(s.store.orders[order.id], begun.value, granted.value, repriced, Sent, "");
  }

  lemma ApplyAsked(
    s: System, c: nat, order: Order, last: Order, steps: seq<ExchangeStep>, t: State, begun: Option<Request>,
    granted: Option<Decision>, repriced: set<string>)
    requires Safe(s) && c in s.calls && s.calls[c] == Applying(order, last, steps) && steps != []
    requires PhaseAsked(t, s.calls[c], begun, granted, repriced)
    requires order.id in s.store.orders && s.store.orders[order.id].id == order.id
    requires begun.Some? && granted.Some? && Carries(s.store.orders[order.id], begun.value, granted.value, repriced)
    ensures PhaseAsked(t, ApplyFirst(s, c, order, last, steps).calls[c], begun, granted, repriced)
  {
    hide Step, CallsOk, SendsOk, Coherent, Carries, PhaseAsked, Resolve, Safe;
    var p, q := s.calls[c], ApplyFirst(s, c, order, last, steps).calls[c];
    if q.Refusing? {
      var stored := s.store.orders[order.id];
      WorkingCarries(t, p, begun, granted, repriced);
      StatusIsNoTerm(stored, begun.value, granted.value, repriced, Rejected, steps[0].cancelReason);
      StoredStays(t, p, q, begun, granted, repriced);
    } else {
      OrderStays(t, p, q, begun, granted, repriced);
    }
  }

  lemma WorkingCarries(t: State, p: Phase, begun: Option<Request>, granted: Option<Decision>, repriced: set<string>)
    requires PhaseAsked(t, p, begun, granted, repriced) && Working(p).Some?
    ensures begun.Some? && granted.Some? && Carries(Working(p).value, begun.value, granted.value, repriced)
  {
    hide Carries;
  }

  lemma OwnPhaseAsked(
    s: System, a: Action, begun: Option<Request>, granted: Option<Decision>, later: Option<Decision>,
    repriced: set<string>)
    requires Safe(s) && !a.Elsewhere? && !a.Begin? && a.call in s.calls
    requires PhaseAsked(s.store, s.calls[a.call], begun, granted, repriced)
    requires later == if granted.Some? then granted else NewlyGranted(s, a, a.call)
    requires KeepsTerms(s.store, Act(s, a).store, repriced)
    ensures a.call in Act(s, a).calls
    ensures PhaseAsked(Act(s, a).store, Act(s, a).calls[a.call], begun, later, repriced)
  {
    hide Act, Safe, PhaseAsked, KeepsTerms;
    if a.Evaluate? || a.List? || a.Clear? || a.ReserveUnder? {
      EarlyPhaseAsked(s, a, begun, granted, later, repriced);
    } else {
      LatePhaseAsked(s, a, begun, granted, repriced);
    }
  }

  // ----- over every run -----

  /** A call is granted nothing before it begins. */
  lemma {:induction false} UnbegunUngranted(boot: State, actions: seq<Action>, c: nat)
    ensures c !in SubmitProtocol.Run(boot, actions).calls ==>
              Begun(actions, c).None? && Granted(boot, actions, c).None?
  {
    hide Act;
    if actions != [] {
      var past, a := actions[..|actions|-1], actions[|actions|-1];
      UnbegunUngranted(boot, past, c);
      CallsStay(SubmitProtocol.Run(boot, past), a);
    }
  }

  /** What the next action does to the history of a call. */
  lemma NextHistory(boot: State, actions: seq<Action>, a: Action, c: nat)
    ensures var s, all := SubmitProtocol.Run(boot, actions), actions + [a];
            && SubmitProtocol.Run(boot, all) == Act(s, a)
            && Begun(all, c) == (if Begun(actions, c).Some? then Begun(actions, c)
                                 else if a.Begin? && a.call == c then Some(a.req) else None)
            && Granted(boot, all, c) == (if Granted(boot, actions, c).Some? then Granted(boot, actions, c)
                                         else NewlyGranted(s, a, c))
            && Repriced(all) == Repriced(actions) + if a.Elsewhere? && a.op.Reprice? then {a.op.id} else {}
  {
    hide Act, NewlyGranted;
    assert (actions + [a])[..|actions|] == actions;
  }

  lemma EveryOpKeepsTerms(boot: State, actions: seq<Action>, a: Action)
    requires Safe(SubmitProtocol.Run(boot, actions)) && CallsAsked(boot, actions)
    requires a.Elsewhere? ==> WritesTerms(SubmitProtocol.Run(boot, actions).store, a.op, Repriced(actions))
    ensures KeepsTerms(SubmitProtocol.Run(boot, actions).store, SubmitProtocol.Run(boot, actions + [a]).store,
                       Repriced(actions + [a]))
  {
    hide Act, Safe, PhaseAsked, KeepsTerms, WritesTerms, Step, OpOf, SubmitProtocol.Run, Granted, Begun, Repriced;
    var s, more := SubmitProtocol.Run(boot, actions), Repriced(actions + [a]);
    NextHistory(boot, actions, a, 0);
    SafeCoherent(s);
    ActIsStep(s, a);
    NothingKeepsTerms(s.store, more);
    match a {
      case Begin(_, _) => NoOp(s, a);
      case Elsewhere(op) => ElsewhereKeepsTerms(s, op, Repriced(actions), more);
      case _ =>
        if a.call in s.calls {
          OwnOpKeepsTerms(s, a, Begun(actions, a.call), Granted(boot, actions, a.call), Repriced(actions));
          assert more == Repriced(actions);
        } else {
          NoOp(s, a);
        }
    }
  }

  lemma NoOp(s: System, a: Action)
    requires a.Begin? || (!a.Elsewhere? && a.call !in s.calls)
    ensures OpOf(s, a).None?
  {
  }

  lemma ElsewhereKeepsTerms(s: System, op: Op, repriced: set<string>, more: set<string>)
    requires Coherent(s.store) && WritesTerms(s.store, op, repriced)
    requires more == repriced + if op.Reprice? then {op.id} else {}
    ensures KeepsTerms(s.store, AfterOp(s.store, OpOf(s, Elsewhere(op))), more)
  {
    hide Step, Coherent, KeepsTerms;
    NothingKeepsTerms(s.store, more);
    if Permitted(s.store, op) {
      StepKeepsTerms(s.store, op, more);
    }
  }

  lemma CallsAskedNext(boot: State, actions: seq<Action>, a: Action)
    requires Safe(SubmitProtocol.Run(boot, actions)) && CallsAsked(boot, actions)
    requires a.Elsewhere? ==> WritesTerms(SubmitProtocol.Run(boot, actions).store, a.op, Repriced(actions))
    ensures CallsAsked(boot, actions + [a])
  {
    hide Act, Safe, PhaseAsked, KeepsTerms, WritesTerms, SubmitProtocol.Run, Granted, Begun, Repriced, NewlyGranted;
    var s, t := SubmitProtocol.Run(boot, actions), SubmitProtocol.Run(boot, actions + [a]);
    EveryOpKeepsTerms(boot, actions, a);
    NextHistory(boot, actions, a, 0);
    SafeCoherent(s);
    CallsStay(s, a);
    forall c | c in t.calls
      ensures PhaseAsked(t.store, t.calls[c], Begun(actions + [a], c), Granted(boot, actions + [a], c),
                         Repriced(actions + [a]))
    {
      OneCallAsked(boot, actions, a, c);
    }
  }

  lemma OneCallAsked(boot: State, actions: seq<Action>, a: Action, c: nat)
    requires Safe(SubmitProtocol.Run(boot, actions)) && CallsAsked(boot, actions)
    requires c in SubmitProtocol.Run(boot, actions + [a]).calls
    requires KeepsTerms(SubmitProtocol.Run(boot, actions).store, SubmitProtocol.Run(boot, actions + [a]).store,
                        Repriced(actions + [a]))
    ensures var t := SubmitProtocol.Run(boot, actions + [a]);
            PhaseAsked(t.store, t.calls[c], Begun(actions + [a], c), Granted(boot, actions + [a], c),
                       Repriced(actions + [a]))
  {
    hide Act, Safe, PhaseAsked, KeepsTerms, SubmitProtocol.Run, Granted, Begun, Repriced, NewlyGranted;
    var s, t := SubmitProtocol.Run(boot, actions), SubmitProtocol.Run(boot, actions + [a]);
    NextHistory(boot, actions, a, c);
    SafeCoherent(s);
    CallsStay(s, a);
    if c !in s.calls {
      UnbegunUngranted(boot, actions, c);
      FreshAsked(t.store, a.req, Repriced(actions + [a]));
      NotGranted(s, a, c);
    } else if a.Elsewhere? || a.Begin? || a.call != c {
      NotGranted(s, a, c);
      BegunIs(s.store, s.calls[c], Begun(actions, c), Granted(boot, actions, c), Repriced(actions));
      PhaseKept(s.store, t.store, s.calls[c], Begun(actions, c), Granted(boot, actions, c), Repriced(actions),
                Repriced(actions + [a]));
    } else {
      assert Repriced(actions + [a]) == Repriced(actions);
      BegunIs(s.store, s.calls[c], Begun(actions, c), Granted(boot, actions, c), Repriced(actions));
      OwnPhaseAsked(s, a, Begun(actions, c), Granted(boot, actions, c), Granted(boot, actions + [a], c),
                    Repriced(actions));
    }
  }

  lemma FreshAsked(t: State, req: Request, repriced: set<string>)
    ensures PhaseAsked(t, Evaluating(req), Some(req), None, repriced)
  {
  }

  lemma BegunIs(s: State, p: Phase, begun: Option<Request>, granted: Option<Decision>, repriced: set<string>)
    requires PhaseAsked(s, p, begun, granted, repriced)
    ensures begun.Some?
  {
  }

  lemma NotGranted(s: System, a: Action, c: nat)
    ensures a.Elsewhere? || a.Begin? || a.call != c ==> NewlyGranted(s, a, c).None?
  {
  }

  lemma SendsAskedNext(boot: State, actions: seq<Action>, a: Action)
    requires Safe(SubmitProtocol.Run(boot, actions)) && CallsAsked(boot, actions) && SendsAsked(boot, actions)
    ensures SendsAsked(boot, actions + [a])
  {
    hide Act, Safe, PhaseAsked, SubmitProtocol.Run, Granted, Begun, Repriced, NewlyGranted, Carries;
    var s, t := SubmitProtocol.Run(boot, actions), SubmitProtocol.Run(boot, actions + [a]);
    NextHistory(boot, actions, a, 0);
    CallsStay(s, a);
    forall n | 0 <= n < |t.sends|
      ensures var c := t.sends[n].call;
              && Begun(actions + [a], c).Some? && Granted(boot, actions + [a], c).Some?
              && Carries(t.sends[n].order, Begun(actions + [a], c).value, Granted(boot, actions + [a], c).value,
                         Repriced(actions + [a]))
    {
      var c := t.sends[n].call;
      NextHistory(boot, actions, a, c);
      if n == |s.sends| {
        WorkingCarries(s.store, s.calls[c], Begun(actions, c), Granted(boot, actions, c), Repriced(actions));
      }
      MoreRepriced(t.sends[n].order, Begun(actions, c).value, Granted(boot, actions, c).value, Repriced(actions),
                   Repriced(actions + [a]));
    }
  }

  lemma {:induction false} RunAsked(boot: State, actions: seq<Action>)
    requires Coherent(boot) && OthersKeepTerms(boot, actions)
    ensures CallsAsked(boot, actions) && SendsAsked(boot, actions)
  {
    hide Act, PhaseAsked, Carries, WritesTerms, Repriced, Begun, Granted, Coherent, Safe;
    if actions != [] {
      var past, a := actions[..|actions|-1], actions[|actions|-1];
      OthersPast(boot, actions);
      RunAsked(boot, past);
      RunSafe(boot, past);
      CallsAskedNext(boot, past, a);
      SendsAskedNext(boot, past, a);
      assert past + [a] == actions;
    }
  }

  // ----- the guarantees -----

  /**
   Under every interleaving, what is sent is what the call asked for: its key, symbol and side, its size as the
   risk decision gated it, and its price unless someone else repriced the order meanwhile.
   */
  lemma SentAsAsked(boot: State, actions: seq<Action>, n: nat)
    requires Coherent(boot) && OthersKeepTerms(boot, actions) && n < |SubmitProtocol.Run(boot, actions).sends|
    ensures var o, c := SubmitProtocol.Run(boot, actions).sends[n].order,
                        SubmitProtocol.Run(boot, actions).sends[n].call;
            && Begun(actions, c).Some? && Granted(boot, actions, c).Some?
            && var req, d := Begun(actions, c).value, Granted(boot, actions, c).value;
            && d.allowed && o.key == req.key && o.symbol == req.symbol && o.side == req.side
            && o.size == (if 0.0 < d.multiplier < 1.0 && !req.reduceOnly then req.size * d.multiplier else req.size)
            && (o.id in Repriced(actions) || o.price == req.price)
  {
    hide SubmitProtocol.Run, OthersKeepTerms, Repriced, Begun, Granted, Coherent, CallsAsked;
    RunAsked(boot, actions);
    GrantedAllowed(boot, actions, SubmitProtocol.Run(boot, actions).sends[n].call);
  }

  lemma {:induction false} GrantedAllowed(boot: State, actions: seq<Action>, c: nat)
    ensures Granted(boot, actions, c).Some? ==> Granted(boot, actions, c).value.allowed
  {
    hide Act;
    if actions != [] {
      GrantedAllowed(boot, actions[..|actions|-1], c);
    }
  }

  /** The order stored under a key that a call has bound is that call's own, at any later moment. */
  lemma BoundAsAsked(boot: State, actions: seq<Action>, c: nat)
    requires Coherent(boot) && OthersKeepTerms(boot, actions)
    requires c in SubmitProtocol.Run(boot, actions).calls && Held(SubmitProtocol.Run(boot, actions).calls[c]).Some?
    ensures var s := SubmitProtocol.Run(boot, actions);
            && Begun(actions, c).Some? && Granted(boot, actions, c).Some?
            && Begun(actions, c).value.key in s.store.idempotency
            && var id := s.store.idempotency[Begun(actions, c).value.key];
            && id in s.store.orders
            && Carries(s.store.orders[id], Begun(actions, c).value, Granted(boot, actions, c).value, Repriced(actions))
  {
    hide SubmitProtocol.Run, OthersKeepTerms, Repriced, Begun, Granted, Coherent, SendsAsked, Carries;
    var s := SubmitProtocol.Run(boot, actions);
    RunAsked(boot, actions);
    RunSafe(boot, actions);
    BoundIs(s, c, Begun(actions, c), Granted(boot, actions, c), Repriced(actions));
  }

  lemma BoundIs(s: System, c: nat, begun: Option<Request>, granted: Option<Decision>, repriced: set<string>)
    requires Safe(s) && c in s.calls && Held(s.calls[c]).Some?
    requires PhaseAsked(s.store, s.calls[c], begun, granted, repriced)
    ensures begun.Some? && granted.Some? && begun.value.key in s.store.idempotency
    ensures var id := s.store.idempotency[begun.value.key];
            id in s.store.orders && Carries(s.store.orders[id], begun.value, granted.value, repriced)
  {
    hide CallsOk, SendsOk, GatedSize;
    CallPhase(s, c);
  }

  // ----- self-trade prevention -----

  lemma {:induction false} HistoryStays(boot: State, actions: seq<Action>, more: seq<Action>, c: nat)
    ensures Begun(actions, c).Some? ==> Begun(actions + more, c) == Begun(actions, c)
  {
    if more == [] {
      assert actions + more == actions;
    } else {
      HistoryStays(boot, actions, more[..|more|-1], c);
      assert (actions + more)[..|actions + more|-1] == actions + more[..|more|-1];
    }
  }

  /** The order a call's self-trade prevention cancels is of its request's symbol and on the other side. */
  lemma ClearsOpposite(boot: State, actions: seq<Action>, c: nat, id: string, reason: string)
    requires Coherent(boot) && OthersKeepTerms(boot, actions)
    requires OpOf(SubmitProtocol.Run(boot, actions), Clear(c)) == Some(Cancel(id, reason))
    ensures var s := SubmitProtocol.Run(boot, actions);
            && Begun(actions, c).Some? && id in s.store.orders
            && s.store.orders[id].symbol == Begun(actions, c).value.symbol
            && s.store.orders[id].side == Opposite(Begun(actions, c).value.side)
  {
    hide SubmitProtocol.Run, OthersKeepTerms, Repriced, Begun, Granted, Coherent, SendsAsked;
    RunAsked(boot, actions);
    var s := SubmitProtocol.Run(boot, actions);
    ClearedOpposite(s, c, id, reason, Begun(actions, c), Granted(boot, actions, c), Repriced(actions));
  }

  lemma ClearedOpposite(
    s: System, c: nat, id: string, reason: string, begun: Option<Request>, granted: Option<Decision>,
    repriced: set<string>)
    requires OpOf(s, Clear(c)) == Some(Cancel(id, reason))
    requires c in s.calls && PhaseAsked(s.store, s.calls[c], begun, granted, repriced)
    ensures begun.Some? && id in s.store.orders && s.store.orders[id].symbol == begun.value.symbol
    ensures s.store.orders[id].side == Opposite(begun.value.side)
  {
    var o := s.calls[c].opens[0];
    assert o in s.calls[c].opens && StillThere(s.store, o, s.calls[c].req.symbol);
  }

  /** No order is sent on the side, of the same symbol, that its own call's self-trade prevention has cleared. */
  lemma NeverSentAgainstItself(
    boot: State, actions: seq<Action>, more: seq<Action>, c: nat, id: string, reason: string, n: nat)
    requires Coherent(boot) && OthersKeepTerms(boot, actions) && OthersKeepTerms(boot, actions + more)
    requires OpOf(SubmitProtocol.Run(boot, actions), Clear(c)) == Some(Cancel(id, reason))
    requires n < |SubmitProtocol.Run(boot, actions + more).sends|
             && SubmitProtocol.Run(boot, actions + more).sends[n].call == c
    ensures var cleared, sent := SubmitProtocol.Run(boot, actions).store.orders,
                                 SubmitProtocol.Run(boot, actions + more).sends[n].order;
            id in cleared && cleared[id].symbol == sent.symbol && cleared[id].side == Opposite(sent.side)
  {
    hide SubmitProtocol.Run, OthersKeepTerms, Repriced, Begun, Granted, Coherent;
    ClearsOpposite(boot, actions, c, id, reason);
    HistoryStays(boot, actions, more, c);
    SentAsAsked(boot, actions + more, n);
  }

  lemma {:induction false} ListedAll(orders: set<Order>)
    ensures forall o :: o in orders ==> o in Listed(orders)
    decreases |orders|
  {
    if orders != {} {
      var o :| o in orders && Listed(orders) == [o] + Listed(orders - {o});
      ListedAll(orders - {o});
    }
  }

  /** The list a call clears holds every order of its symbol open at that moment. */
  lemma ListsEveryOpen(s: System, c: nat, req: Request, id: string)
    requires c in s.calls && s.calls[c] == Listing(req)
    requires id in s.store.orders && s.store.orders[id].symbol == req.symbol && IsOpen(s.store.orders[id].status)
    ensures var p := Act(s, List(c)).calls[c]; p.Clearing? && p.req == req && s.store.orders[id] in p.opens
  {
    hide IsOpen, Listed;
    ListedAll(OpenOrders(s.store, req.symbol));
  }

  /** It is cleared from the front: an order of the other side ends canceled, one of the same side is passed over. */
  lemma ClearCancels(s: System, c: nat, req: Request, opens: seq<Order>)
    requires Coherent(s.store) && c in s.calls && s.calls[c] == Clearing(req, opens) && opens != []
    requires opens[0].id in s.store.orders
    ensures var t, id := Act(s, Clear(c)), opens[0].id;
            && t.calls[c] == Clearing(req, opens[1..])
            && id in t.store.orders
            && (opens[0].side == Opposite(req.side) ==>
                  t.store.orders[id].status == Canceled && t.store.orders[id].cancelReason == "self_trade_prevention")
            && (opens[0].side == req.side ==> t.store == s.store)
  {
    hide Coherent;
    StoredId(s.store, opens[0].id);
  }
}

/** The intelligence engine and the gateway as objects, one call at a time. */
module Gateway {
  import opened Numeric
  import opened Store
  import opened SubmitProtocol
  import R = RiskCircuit

  class IntelligenceEngine {
    const cfg: R.Config
    var lastPrice: real
    var lastTime: Option<real>
    var volEma: real
    var latencyEma: real
    var rejectEma: real
    var failEma: real
    var inclusionEma: real
    var mempool: R.Mempool
    var snapshot: R.Snapshot

    ghost function View(): R.Intel
      reads this
    {
      R.Intel(volEma, latencyEma, rejectEma, failEma, inclusionEma, mempool, snapshot)
    }

    constructor (cfg: R.Config)
      ensures View() == R.FRESH && this.cfg == cfg && lastPrice == 0.0 && lastTime == None
    {
      this.cfg := cfg;
      lastPrice, lastTime := 0.0, None;
      volEma, latencyEma, rejectEma, failEma, inclusionEma := 0.0, 0.0, 0.0, 0.0, 0.50;
      mempool := R.CALM;
      snapshot := R.Snapshot(0.0, 0.0, 0.0, 0.0, 1.0, 0.0, 0.50, R.Closed, R.NEUTRAL);
    }

    method Recompute(gross: Option<real>, pressure: real, f: R.Feedback)
      requires cfg.maxExposure > 0.0
      modifies this`snapshot
      ensures View() == R.Recompute(cfg, old(View()), gross, pressure, f)
    {
      var exposure := if gross.Some? then R.Clamp01(gross.value / cfg.maxExposure) else snapshot.exposure;
      var e := R.Intel(volEma, latencyEma, rejectEma, failEma, inclusionEma, mempool, snapshot);
      var fragility := R.Fragility(cfg, e, f);
      var vol := R.Clamp01(volEma / 8.0);
      var stress := R.Clamp01(R.RawStress(exposure, pressure, fragility, vol, R.MarkoutStress(f)));
      var circuit := R.Closed;
      if stress > 0.90 || failEma > 0.75 || f.regime == R.Hostile {
        circuit := R.Open;
      } else if stress > 0.55 || (vol > 0.45 && pressure > 0.45) || f.regime == R.DegradedRegime {
        circuit := R.Degraded;
      }
      var multiplier := R.Clamp01(1.0 - stress * 0.65);
      if circuit == R.Degraded {
        multiplier := MinR(multiplier, 0.60);
      }
      if circuit == R.Open {
        multiplier := 0.0;
      }
      snapshot := R.Snapshot(exposure, pressure, fragility, stress, multiplier,
                             R.Clamp01(mempool.latencyPenalty), R.Clamp01(inclusionEma), circuit, f);
    }

    /** An event without a usable price changes nothing; the first one has no velocity. */
    method ObserveMarket(q: R.Quote, hash: nat, gross: real, f: R.Feedback)
      requires cfg.maxExposure > 0.0
      modifies this
      ensures var price := R.QuotePrice(q);
              if price <= 0.0 then View() == old(View()) && lastPrice == old(lastPrice) && lastTime == old(lastTime)
              else
                && lastPrice == price && lastTime == Some(q.time)
                && View() == R.ObserveMarket(cfg, old(View()), hash, q.volume,
                                             R.Velocity(old(lastPrice), old(lastTime), price, q.time), gross, f)
    {
      hide R.Recompute, R.MempoolMarket, R.Velocity, R.QuotePrice;
      var price := R.QuotePrice(q);
      if price <= 0.0 {
        return;
      }
      var velocity := R.Velocity(lastPrice, lastTime, price, q.time);
      if velocity.Some? {
        volEma := R.Ema(volEma, AbsR(velocity.value) * 1000.0, 0.05);
      }
      lastPrice, lastTime := price, Some(q.time);
      mempool := R.MempoolMarket(mempool, hash, q.volume, if velocity.Some? then velocity.value else 0.0);
      Recompute(Some(gross), R.Score(mempool), f);
    }

    method ObserveExecution(latencyMs: real, penalty: real, rejected: bool, f: R.Feedback)
      requires cfg.maxExposure > 0.0
      modifies this
      ensures View() == R.ObserveExecution(cfg, old(View()), latencyMs, penalty, rejected, f)
    {
      hide R.Recompute, R.MempoolLatency, R.MempoolFailure, R.MempoolSuccess, R.Score;
      latencyEma := R.Ema(latencyEma, latencyMs, 0.08);
      mempool := R.MempoolLatency(mempool, penalty);
      if rejected {
        rejectEma := R.Ema(rejectEma, 1.0, 0.10);
        failEma := R.Ema(failEma, 1.0, 0.10);
        inclusionEma := R.Ema(inclusionEma, 0.0, 0.06);
        mempool := R.MempoolFailure(mempool);
      } else {
        inclusionEma := R.Ema(inclusionEma, 1.0, 0.04);
        rejectEma := R.Ema(rejectEma, 0.0, 0.04);
        failEma := R.Ema(failEma, 0.0, 0.04);
        mempool := R.MempoolSuccess(mempool);
      }
      Recompute(None, R.Score(mempool), f);
    }

    /** `ObserveExecutionEvent`, once the feedback engine has taken the event in. */
    method ObserveFeedback(f: R.Feedback)
      requires cfg.maxExposure > 0.0
      modifies this`snapshot
      ensures View() == R.ObserveFeedback(cfg, old(View()), f)
    {
      Recompute(None, snapshot.mempool, f);
    }
  }

  /** The request as the risk service sees it. */
  datatype Checked = Checked(execute: bool, inTime: bool, expectedMarkout: real, gates: R.Gates, values: R.Values)

  function RiskRequest(req: Request, k: Checked): R.Request {
    R.Request(req.size, req.price, k.execute, k.inTime, req.reduceOnly, k.expectedMarkout)
  }

  // ----- what a call does to the store when nothing else runs -----

  /** The orders self-trade prevention cancels: open ones of the symbol on the other side. */
  predicate Opposing(o: Order, req: Request) {
    o.symbol == req.symbol && o.side != req.side && IsOpen(o.status)
  }

  function Prevented(o: Order): Order {
    o.(status := Canceled, cancelReason := "self_trade_prevention")
  }

  /** Those of the opposing orders whose ids are in `done` are canceled, and nothing else is touched. */
  function CancelOpposing(s: State, req: Request, done: set<string>): State {
    s.(orders := map id | id in s.orders ::
      if id in done && Opposing(s.orders[id], req) then Prevented(s.orders[id]) else s.orders[id])
  }

  /** One exchange step applied to the call's own order: the new store, and the order returned unless it fails. */
  function AfterStep(s: State, order: Order, step: ExchangeStep): (State, Option<Order>) {
    if step.exchangeId != "" && order.id !in s.orders then (s, None)
    else AfterStatus(if step.exchangeId != "" then Step(s, Bind(order.id, step.exchangeId)) else s, order, step)
  }

  function AfterStatus(s: State, order: Order, step: ExchangeStep): (State, Option<Order>) {
    var id := order.id;
    match step.status
    case Partial | Filled =>
      if step.fill.None? then (s, Some(ZERO_ORDER))
      else
        var (entry, event) := step.fill.value;
        if Resolve(s, id) !in s.orders then (s, None)
        else (Step(s, Fill(id, entry, event)), Some(FillOrder(s.orders[Resolve(s, id)], entry.price, entry.quantity)))
    case _ =>
      if id !in s.orders then (s, None)
      else
        var o := s.orders[id];
        match step.status {
          case Ack => (Step(s, MarkAck(id)), Some(o.(status := Ack)))
          case Canceled => (Step(s, Cancel(id, step.cancelReason)),
                            Some(o.(status := Canceled, cancelReason := step.cancelReason)))
          case Rejected =>
            var refused := o.(status := Rejected, rejectReason := step.cancelReason);
            (Step(s, Update(refused)), Some(refused))
          case _ => (s, Some(o))
        }
  }

  datatype Progress = Progress(store: State, last: Order, ok: bool)

  /** The steps in order, up to the first that fails. */
  function AfterSteps(s: State, order: Order, steps: seq<ExchangeStep>): Progress {
    if steps == [] then Progress(s, order, true)
    else
      var p := AfterSteps(s, order, steps[..|steps|-1]);
      if !p.ok then p
      else
        var (t, r) := AfterStep(p.store, order, steps[|steps|-1]);
        if r.None? then Progress(t, p.last, false) else Progress(t, r.value, true)
  }

  lemma {:induction false} StopsAtFailure(s: State, order: Order, steps: seq<ExchangeStep>, n: nat)
    requires n <= |steps| && !AfterSteps(s, order, steps[..n]).ok
    ensures AfterSteps(s, order, steps) == AfterSteps(s, order, steps[..n])
    decreases |steps|
  {
    if n == |steps| {
      assert steps[..n] == steps;
    } else {
      assert steps[..|steps|-1][..n] == steps[..n];
      StopsAtFailure(s, order, steps[..|steps|-1], n);
    }
  }

  function RejectedAs(order: Order, reason: string): Order {
    order.(status := Rejected, rejectReason := reason)
  }

  /** From the exchange's reply on. */
  function AfterReply(s: State, reserved: Order, reply: Reply): Progress {
    match reply
    case SendError(reason) =>
      Progress(Step(s, Update(RejectedAs(reserved, reason))), RejectedAs(reserved, reason), false)
    case Accepted(steps) => AfterSteps(s, reserved, steps)
  }

  /** From the self-trade prevention on: a duplicate is answered, another order reserved, marked sent and sent. */
  function AfterGate(s: State, req: Request, newId: string, reply: Reply): Progress {
    var t := CancelOpposing(s, req, s.orders.Keys);
    if Duplicate(t, req.key) then Progress(t, OrderAt(t, t.idempotency[req.key]), true)
    else
      var drawn := NewOrder(req, newId, New);
      AfterReply(Step(Step(t, Reserve(drawn)), MarkSent(newId)), drawn.(status := Sent), reply)
  }

  /**
   The same step taken by one call of the interleaving protocol, with no other action in between: binding, applying
   and, for a refusal, writing back leave the same store.
   */
  lemma StepIsProtocolStep(s: System, c: nat, order: Order, last: Order, steps: seq<ExchangeStep>)
    requires Safe(s) && c in s.calls && s.calls[c] == Binding(order, last, steps) && steps != []
    ensures Act(Act(Act(s, BindStep(c)), SubmitProtocol.ApplyStep(c)), RefuseStep(c)).store
            == AfterStep(s.store, order, steps[0]).0
  {
    hide Safe, Step, AfterStatus, CallStep;
    var t := Act(s, BindStep(c));
    BindIsProtocolStep(s, c, order, last, steps);
    if t.calls[c].Done? {
      assert Act(t, SubmitProtocol.ApplyStep(c)) == t && Act(t, RefuseStep(c)) == t by {
        DoneStays(t, c);
      }
    } else {
      StatusIsProtocolStep(t, c, order, last, steps);
    }
  }

  lemma DoneStays(s: System, c: nat)
    requires c in s.calls && s.calls[c].Done?
    ensures Act(s, SubmitProtocol.ApplyStep(c)) == s && Act(s, RefuseStep(c)) == s
  {
  }

  lemma BindIsProtocolStep(s: System, c: nat, order: Order, last: Order, steps: seq<ExchangeStep>)
    requires Safe(s) && c in s.calls && s.calls[c] == Binding(order, last, steps) && steps != []
    ensures var t := Act(s, BindStep(c));
            && c in t.calls
            && (if steps[0].exchangeId != "" && order.id !in s.store.orders then t.calls[c].Done? && t.store == s.store
                else
                  && t.calls[c] == Applying(order, last, steps) && Safe(t)
                  && t.store == if steps[0].exchangeId != "" then Step(s.store, Bind(order.id, steps[0].exchangeId))
                                else s.store)
  {
    hide Safe, Step;
    ActSafe(s, BindStep(c));
  }

  lemma StatusIsProtocolStep(s: System, c: nat, order: Order, last: Order, steps: seq<ExchangeStep>)
    requires Safe(s) && c in s.calls && s.calls[c] == Applying(order, last, steps) && steps != []
    ensures Act(Act(s, SubmitProtocol.ApplyStep(c)), RefuseStep(c)).store == AfterStatus(s.store, order, steps[0]).0
  {
    hide Safe, Step, FillOrder, Resolve, OrderAt;
    var t := Act(s, SubmitProtocol.ApplyStep(c));
    if steps[0].status == Rejected && order.id in s.store.orders {
      assert t.calls[c].Refusing?;
    } else {
      NoRefusal(t, c);
    }
  }

  lemma NoRefusal(s: System, c: nat)
    requires c in s.calls && !s.calls[c].Refusing?
    ensures Act(s, RefuseStep(c)) == s
  {
  }

  class SequentialGateway {
    const store: OrderStore
    const risk: IntelligenceEngine
    ghost var sends: nat
    ghost var failed: bool

    ghost function View(): R.Loop
      reads this, risk
    {
      R.Loop(risk.View(), sends, failed)
    }

    constructor (store: OrderStore, risk: IntelligenceEngine)
      ensures this.store == store && this.risk == risk && sends == 0 && !failed
    {
      this.store, this.risk, sends, failed := store, risk, 0, false;
    }

    /** Cancels the symbol's open orders on the other side. */
    method PreventSelfTrade(req: Request)
      requires Coherent(store.View())
      modifies store
      ensures Coherent(store.View()) && store.idempotency == old(store.idempotency)
      ensures store.orders.Keys == old(store.orders).Keys
      ensures forall id :: id in old(store.orders) ==> store.orders[id].key == old(store.orders)[id].key
      ensures forall id :: id in old(store.orders) && old(store.orders)[id].symbol == req.symbol
                           && old(store.orders)[id].side != req.side && IsOpen(old(store.orders)[id].status)
                           ==> store.orders[id].status == Canceled
      ensures store.View() == CancelOpposing(old(store.View()), req, old(store.orders).Keys)
    {
      hide Step, Coherent, SameKeys, OrderAt, CancelOpposing;
      var open := store.OpenOrdersBySymbol(req.symbol);
      ghost var before := store.View();
      OpenIds(before, open, req.symbol);
      SameKeysSelf(before);
      NoneCanceled(before, req);
      for i := 0 to |open|
        invariant Coherent(store.View()) && SameKeys(before, store.View())
        invariant store.View() == CancelOpposing(before, req, IdsOf(open[..i]))
        invariant forall k :: 0 <= k < i && open[k].side != req.side ==>
                                OrderAt(store.View(), open[k].id).status == Canceled
      {
        OneMoreCanceled(before, req, open[..i], open[i]);
        assert open[..i+1] == open[..i] + [open[i]];
        if open[i].side != req.side {
          CancelEffect(before, store.View(), open[i].id);
          var _ := store.CancelOrder(open[i].id, "self_trade_prevention");
        }
      }
      AllCanceled(before, req, open);
      assert open[..|open|] == open;
      SameKeysMeans(before, store.View());
      StoredAt(store.View());
      forall id | id in before.orders && before.orders[id].symbol == req.symbol
                  && before.orders[id].side != req.side && IsOpen(before.orders[id].status)
        ensures store.orders[id].status == Canceled
      {
        assert before.orders[id] in open;
        StoredId(before, id);
      }
    }

    ghost function IdsOf(orders: seq<Order>): set<string> {
      set k | 0 <= k < |orders| :: orders[k].id
    }

    lemma NoneCanceled(s: State, req: Request)
      ensures CancelOpposing(s, req, IdsOf([])) == s
    {
    }

    lemma OneMoreCanceled(s: State, req: Request, done: seq<Order>, o: Order)
      requires Coherent(s) && o.id in s.orders && s.orders[o.id] == o && o.symbol == req.symbol && IsOpen(o.status)
      ensures CancelOpposing(s, req, IdsOf(done + [o]))
              == (if o.side != req.side
                  then Step(CancelOpposing(s, req, IdsOf(done)), Cancel(o.id, "self_trade_prevention"))
                  else CancelOpposing(s, req, IdsOf(done)))
    {
      hide IdsOf, Coherent;
      IdsSnoc(done, o);
      StoredId(s, o.id);
    }

    lemma IdsSnoc(done: seq<Order>, o: Order)
      ensures IdsOf(done + [o]) == IdsOf(done) + {o.id}
    {
      forall k | 0 <= k < |done| ensures done[k].id in IdsOf(done + [o]) {
        assert (done + [o])[k].id == done[k].id;
      }
      assert (done + [o])[|done|].id == o.id;
    }

    lemma AllCanceled(s: State, req: Request, open: seq<Order>)
      requires Coherent(s)
      requires forall id :: id in s.orders && s.orders[id].symbol == req.symbol && IsOpen(s.orders[id].status) ==>
                              s.orders[id] in open
      ensures CancelOpposing(s, req, IdsOf(open)) == CancelOpposing(s, req, s.orders.Keys)
    {
      forall id | id in s.orders && Opposing(s.orders[id], req) ensures id in IdsOf(open) {
        var k :| 0 <= k < |open| && open[k] == s.orders[id];
        assert open[k].id == id;
      }
    }

    lemma StoredAt(s: State)
      ensures forall id :: id in s.orders ==> OrderAt(s, id) == s.orders[id]
    {
    }

    /** The same orders under the same keys, and the same bindings. */
    ghost predicate SameKeys(s: State, t: State) {
      && t.idempotency == s.idempotency && t.orders.Keys == s.orders.Keys
      && forall id :: id in s.orders ==> t.orders[id].key == s.orders[id].key
    }

    lemma SameKeysSelf(s: State)
      ensures SameKeys(s, s)
    {
    }

    lemma SameKeysMeans(s: State, t: State)
      requires SameKeys(s, t)
      ensures t.idempotency == s.idempotency && t.orders.Keys == s.orders.Keys
      ensures forall id :: id in s.orders ==> t.orders[id].key == s.orders[id].key
    {
    }

    lemma CancelEffect(before: State, s: State, id: string)
      requires Coherent(s) && SameKeys(before, s) && id in before.orders
      ensures var t := Step(s, Cancel(id, "self_trade_prevention"));
              && Coherent(t) && SameKeys(before, t) && OrderAt(t, id).status == Canceled
              && forall other :: other != id ==> OrderAt(t, other) == OrderAt(s, other)
    {
      StepCoherent(s, Cancel(id, "self_trade_prevention"));
      StoredId(s, id);
      hide Coherent;
    }

    lemma OpenIds(s: State, open: seq<Order>, symbol: string)
      requires Coherent(s)
      requires forall o :: o in open ==> exists id :: id in s.orders && s.orders[id] == o && o.symbol == symbol
                                                      && IsOpen(o.status)
      ensures forall k :: 0 <= k < |open| ==> open[k].id in s.orders && s.orders[open[k].id] == open[k]
    {
      forall k | 0 <= k < |open| ensures open[k].id in s.orders && s.orders[open[k].id] == open[k] {
        assert open[k] in open;
      }
    }

    /** `applyStep` for a step of this call's own order; None stands for its error returns. */
    method ApplyStep(order: Order, step: ExchangeStep, f: R.Feedback)
      returns (r: Option<Order>, ghost observed: seq<R.Feedback>)
      requires risk.cfg.maxExposure > 0.0 && Coherent(store.View())
      modifies store, risk
      ensures Coherent(store.View()) && store.idempotency == old(store.idempotency)
      ensures observed == [] || observed == [f]
      ensures risk.View() == R.Fills(risk.cfg, old(risk.View()), observed)
      ensures observed == [f] <==> |store.ledger| == |old(store.ledger)| + 1
      ensures store.View() == AfterStep(old(store.View()), order, step).0
              && r == AfterStep(old(store.View()), order, step).1
    {
      hide Step, Coherent, AfterStatus, R.Fills;
      if step.exchangeId != "" {
        StepCoherent(store.View(), Bind(order.id, step.exchangeId));
        StepKeeps(store.View(), Bind(order.id, step.exchangeId));
        BindLogs(store.View(), order.id, step.exchangeId);
        var bound := store.BindExchangeOrderID(order.id, step.exchangeId);
        if bound.None? {
          NoFills(risk.cfg, risk.View());
          return None, [];
        }
      }
      r, observed := ApplyStatus(order, step, f);
    }

    lemma BindLogs(s: State, id: string, exchangeId: string)
      ensures Step(s, Bind(id, exchangeId)).ledger == s.ledger
    {
    }

    /** The second half of `applyStep`, after the exchange id is bound. */
    method ApplyStatus(order: Order, step: ExchangeStep, f: R.Feedback)
      returns (r: Option<Order>, ghost observed: seq<R.Feedback>)
      requires risk.cfg.maxExposure > 0.0 && Coherent(store.View())
      modifies store, risk
      ensures Coherent(store.View()) && store.idempotency == old(store.idempotency)
      ensures observed == [] || observed == [f]
      ensures risk.View() == R.Fills(risk.cfg, old(risk.View()), observed)
      ensures observed == [f] <==> |store.ledger| == |old(store.ledger)| + 1
      ensures store.View() == AfterStatus(old(store.View()), order, step).0
              && r == AfterStatus(old(store.View()), order, step).1
    {
      hide Step, FillOrder, FillPosition, Coherent, R.Recompute, R.ObserveFeedback;
      observed := [];
      NoFills(risk.cfg, risk.View());
      OneFill(risk.cfg, risk.View(), f);
      ghost var s := store.View();
      match step.status {
        case Ack =>
          StepCoherent(s, MarkAck(order.id));
          StepKeeps(s, MarkAck(order.id));
          r := store.MarkOrderAck(order.id);
        case Canceled =>
          StepCoherent(s, Cancel(order.id, step.cancelReason));
          StepKeeps(s, Cancel(order.id, step.cancelReason));
          r := store.CancelOrder(order.id, step.cancelReason);
        case Partial | Filled =>
          if step.fill.None? {
            return Some(ZERO_ORDER), [];
          }
          StepCoherent(s, Fill(order.id, step.fill.value.0, step.fill.value.1));
          StepKeeps(s, Fill(order.id, step.fill.value.0, step.fill.value.1));
          var applied := store.ApplyExternalFill(order.id, step.fill.value.0, step.fill.value.1);
          if applied.None? {
            return None, [];
          }
          risk.ObserveFeedback(f);
          observed := [f];
          r := Some(applied.value.0);
        case Rejected =>
          if order.id !in store.orders {
            return None, [];
          }
          var refused := store.orders[order.id].(status := Rejected, rejectReason := step.cancelReason);
          StepCoherent(s, Update(refused));
          StepKeeps(s, Update(refused));
          store.UpdateOrder(refused);
          r := Some(refused);
        case New | Sent =>
          r := if order.id in store.orders then Some(store.orders[order.id]) else None;
      }
    }

    /** From the exchange call on: an error is written back, otherwise the exchange's steps are applied in order. */
    method SendAndApply(reserved: Order, reply: Reply, latencyMs: real, penalty: real, f: R.Feedback,
                        fills: seq<R.Feedback>)
      returns (order: Order, outcome: Outcome, ghost done: R.Outcome)
      requires risk.cfg.maxExposure > 0.0 && Coherent(store.View())
      requires reply.Accepted? ==> |fills| == |reply.steps|
      modifies this`sends, this`failed, store, risk
      ensures Coherent(store.View()) && store.idempotency == old(store.idempotency)
      ensures outcome in {SendFailed, StepFailed, Completed} && !done.AlreadyReserved?
      ensures var p := AfterReply(old(store.View()), reserved, reply);
              && store.View() == p.store && order == p.last
              && outcome == if reply.SendError? then SendFailed else if p.ok then Completed else StepFailed
      ensures View() == match done
                        case SendFails(l, p, g) =>
                          R.Loop(R.ObserveExecution(risk.cfg, old(risk.View()), l, p, true, g), old(sends) + 1, true)
                        case SendSucceeds(l, p, g, seen) =>
                          R.Loop(R.Fills(risk.cfg, R.ObserveExecution(risk.cfg, old(risk.View()), l, p, false, g),
                                         seen), old(sends) + 1, old(failed))
                        case AlreadyReserved => old(View())
    {
      hide R.ObserveExecution, R.ObserveFeedback, R.Fills, Coherent, Step, AfterStep;
      sends := sends + 1;
      match reply
      case SendError(reason) =>
        risk.ObserveExecution(latencyMs, penalty, true, f);
        failed, done := true, R.SendFails(latencyMs, penalty, f);
        order, outcome := reserved.(status := Rejected, rejectReason := reason), SendFailed;
        StepCoherent(store.View(), Update(order));
        WriteEffect(store.View(), order);
        store.UpdateOrder(order);
      case Accepted(steps) =>
        risk.ObserveExecution(latencyMs, penalty, false, f);
        ghost var after := risk.View();
        ghost var seen: seq<R.Feedback> := [];
        NoFills(risk.cfg, after);
        order, outcome := reserved, Completed;
        for i := 0 to |steps|
          invariant Coherent(store.View()) && store.idempotency == old(store.idempotency)
          invariant risk.View() == R.Fills(risk.cfg, after, seen)
          invariant sends == old(sends) + 1 && failed == old(failed) && outcome == Completed
          invariant AfterSteps(old(store.View()), reserved, steps[..i]) == Progress(store.View(), order, true)
        {
          assert steps[..i+1][..i] == steps[..i];
          var updated, observed := ApplyStep(reserved, steps[i], fills[i]);
          FillsAppend(risk.cfg, after, seen, observed);
          seen := seen + observed;
          if updated.None? {
            outcome := StepFailed;
            StopsAtFailure(old(store.View()), reserved, steps, i + 1);
            break;
          }
          order := updated.value;
        }
        assert steps[..|steps|] == steps;
        done := R.SendSucceeds(latencyMs, penalty, f, seen);
    }

    /** One whole call, with nothing else running: gate, reserve, send, and the exchange's steps. */
    method Submit(req: Request, k: Checked, newId: string, reply: Reply,
                  latencyMs: real, penalty: real, f: R.Feedback, fills: seq<R.Feedback>)
      returns (order: Order, outcome: Outcome, sent: Option<Order>, ghost done: R.Outcome)
      requires risk.cfg.maxExposure > 0.0 && Coherent(store.View())
      requires reply.Accepted? ==> |fills| == |reply.steps|
      requires newId !in store.orders
      modifies this`sends, this`failed, store, risk
      ensures Coherent(store.View())
      // the risk side takes exactly one step of the closed loop
      ensures if req.key == "" then View() == old(View())
              else View() == R.LoopStep(risk.cfg, old(View()), R.Submit(k.gates, RiskRequest(req, k), k.values, done))
      // what is sent is the gated request at its reduced size, under a newly bound key
      ensures sent.Some? <==> sends == old(sends) + 1
      ensures sent.Some? ==>
                && !Duplicate(old(store.View()), req.key) && req.key in store.idempotency
                   && store.idempotency[req.key] == newId
                && sent.value.id == newId && sent.value.key == req.key && sent.value.status == Sent
                && sent.value.size == R.SentSize(RiskRequest(req, k),
                                                 R.Gate(risk.cfg, k.gates, old(risk.snapshot), RiskRequest(req, k),
                                                        k.values))
      ensures sent.Some? ==>
                && sent.value.symbol == req.symbol && sent.value.side == req.side && sent.value.price == req.price
                && sent.value.filled == 0.0 && sent.value.exchangeId == ""
      // a denied request is answered with its own fields
      ensures outcome == RiskRejected ==>
                && sent.None? && order.id == newId && order.key == req.key && order.symbol == req.symbol
                && order.side == req.side && order.size == req.size && order.price == req.price
                && order.status == Rejected
      ensures outcome == WasDuplicate ==>
                sent.None? && Duplicate(old(store.View()), req.key) && req.key in store.idempotency
                && order == OrderAt(store.View(), store.idempotency[req.key])
      // the store, and the order handed back
      ensures var d := R.Gate(risk.cfg, k.gates, old(risk.snapshot), RiskRequest(req, k), k.values);
              if req.key == "" || !d.allowed then store.View() == old(store.View())
              else
                var p := AfterGate(old(store.View()), SizedRequest(req, Decision(d.allowed, d.multiplier)), newId,
                                   reply);
                store.View() == p.store && order == p.last
    {
      hide R.Gate, R.ObserveExecution, R.ObserveFeedback, R.Fills, Coherent, Step, SizedRequest;
      sent, done := None, R.AlreadyReserved;
      if req.key == "" {
        return ZERO_ORDER, MissingKey, None, done;
      }
      var decision := R.Gate(risk.cfg, k.gates, risk.snapshot, RiskRequest(req, k), k.values);
      if !decision.allowed {
        return NewOrder(req, newId, Rejected), RiskRejected, None, done;
      }
      var sized := SizedRequest(req, Decision(decision.allowed, decision.multiplier));
      SizedAsChecked(req, k, decision);
      PreventSelfTrade(sized);
      var drawn := NewOrder(sized, newId, New);
      StepCoherent(store.View(), Reserve(drawn));
      ReserveEffect(store.View(), drawn);
      var reserved, duplicate := store.ReserveOrder(drawn);
      if duplicate {
        BoundStays(store.View(), req.key);
        return reserved, WasDuplicate, None, done;
      }
      MarkEffect(store.View(), newId);
      var marked := store.MarkOrderSent(newId);
      reserved := marked.value;
      sent := Some(reserved);
      order, outcome, done := SendAndApply(reserved, reply, latencyMs, penalty, f, fills);
    }
  }

  lemma SizedAsChecked(req: Request, k: Checked, d: R.Decision)
    ensures var sized := SizedRequest(req, Decision(d.allowed, d.multiplier));
            && sized.size == R.SentSize(RiskRequest(req, k), d) && sized.key == req.key && sized.symbol == req.symbol
            && sized.side == req.side && sized.price == req.price
  {
  }

  lemma ReserveEffect(s: State, o: Order)
    ensures var t := Step(s, Reserve(o));
            !Duplicate(s, o.key) ==>
              && t.idempotency == s.idempotency[o.key := o.id]
              && t.orders == s.orders[o.id := o.(status := New)]
    ensures Duplicate(s, o.key) ==> Step(s, Reserve(o)) == s
  {
  }

  lemma BoundStays(s: State, key: string)
    ensures Duplicate(s, key) <==> key in s.idempotency
  {
  }

  lemma MarkEffect(s: State, id: string)
    requires Coherent(s)
    ensures var t := Step(s, MarkSent(id)); Coherent(t) && t.idempotency == s.idempotency
  {
    StepCoherent(s, MarkSent(id));
    hide Coherent;
  }

  lemma WriteEffect(s: State, o: Order)
    ensures Step(s, Update(o)).idempotency == s.idempotency
  {
  }

  lemma OneFill(cfg: R.Config, e: R.Intel, f: R.Feedback)
    requires cfg.maxExposure > 0.0
    ensures R.Fills(cfg, e, [f]) == R.ObserveFeedback(cfg, e, f)
  {
    hide R.ObserveFeedback;
    assert [f][..0] == [];
  }

  /** These steps leave bindings alone, and the ledger unless they apply a fill. */
  lemma StepKeeps(s: State, op: Op)
    requires !op.Reserve? && !op.Upsert?
    ensures Step(s, op).idempotency == s.idempotency
    ensures |Step(s, op).ledger| == |s.ledger| + if op.Fill? && Resolve(s, op.id) in s.orders then 1 else 0
    ensures (op.MarkAck? || op.Cancel? || op.Bind?) && op.id !in s.orders ==> Step(s, op) == s
    ensures op.Fill? && Resolve(s, op.id) !in s.orders ==> Step(s, op) == s
  {
    hide FillOrder, FillPosition, PositionAt;
  }

  lemma NoFills(cfg: R.Config, e: R.Intel)
    requires cfg.maxExposure > 0.0
    ensures R.Fills(cfg, e, []) == e
  {
  }

  lemma FillsAppend(cfg: R.Config, e: R.Intel, a: seq<R.Feedback>, b: seq<R.Feedback>)
    requires cfg.maxExposure > 0.0 && |b| <= 1
    ensures R.Fills(cfg, e, a + b) == R.Fills(cfg, R.Fills(cfg, e, a), b)
  {
    hide R.ObserveFeedback;
    if b == [] {
      assert a + b == a;
    } else {
      assert (a + b)[..|a|] == a && b[..0] == [];
    }
  }
}

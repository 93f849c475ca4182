/** What the store's fill bookkeeping means over whole runs. */
module FillAccounting {
  import opened Numeric
  import opened Domain
  import opened Store
  import L = Ledger
  import LR = LedgerRuns

  // ----- the fills a run applied -----

  datatype Applied = Applied(orderId: string, symbol: string, side: Side, price: real, quantity: real)

  function AppliedBy(s: State, op: Op): seq<Applied> {
    if op.Fill? && Resolve(s, op.id) in s.orders then
      var o := s.orders[Resolve(s, op.id)];
      [Applied(o.id, o.symbol, o.side, op.entry.price, op.entry.quantity)]
    else []
  }

  function AppliedLog(ops: seq<Op>): seq<Applied> {
    if ops == [] then []
    else AppliedLog(ops[..|ops|-1]) + AppliedBy(Run(EMPTY, ops[..|ops|-1]), ops[|ops|-1])
  }

  function SumQuantity(log: seq<Applied>, id: string): real {
    if log == [] then 0.0
    else SumQuantity(log[..|log|-1], id) + if log[|log|-1].orderId == id then log[|log|-1].quantity else 0.0
  }

  function SumNotional(log: seq<Applied>, id: string): real {
    if log == [] then 0.0
    else
      SumNotional(log[..|log|-1], id) +
      if log[|log|-1].orderId == id then log[|log|-1].price * log[|log|-1].quantity else 0.0
  }

  // ----- an order's own account -----

  ghost predicate LogKnown(s: State, log: seq<Applied>) {
    forall k :: 0 <= k < |log| ==> log[k].orderId in s.orders
  }

  lemma {:induction false} UnknownOrderUnfilled(log: seq<Applied>, id: string)
    requires forall k :: 0 <= k < |log| ==> log[k].orderId != id
    ensures SumQuantity(log, id) == 0.0 && SumNotional(log, id) == 0.0
  {
    if log != [] {
      UnknownOrderUnfilled(log[..|log|-1], id);
    }
  }

  ghost predicate FilledAgrees(s: State, log: seq<Applied>) {
    forall id :: id in s.orders ==> s.orders[id].filled == SumQuantity(log, id)
  }

  function Worth(o: Order): real {
    o.avgFillPrice * o.filled
  }

  ghost predicate AverageAgrees(s: State, log: seq<Applied>) {
    forall id :: id in s.orders ==> Worth(s.orders[id]) == SumNotional(log, id)
  }

  lemma LogStep(log: seq<Applied>, a: Applied, id: string)
    ensures SumQuantity(log + [a], id) == SumQuantity(log, id) + if a.orderId == id then a.quantity else 0.0
    ensures SumNotional(log + [a], id) == SumNotional(log, id) + if a.orderId == id then a.price * a.quantity else 0.0
  {
    assert (log + [a])[..|log|] == log;
  }

  /** The order a step writes whole, if any: reservations, updates and upserts do. */
  function Written(s: State, op: Op): Option<Order> {
    match op
    case Reserve(o) => if Duplicate(s, o.key) then None else Some(o)
    case Update(o) => Some(o)
    case Upsert(o) =>
      Some(if o.key in s.idempotency && s.idempotency[o.key] != "" then o.(id := s.idempotency[o.key]) else o)
    case _ => None
  }

  /** The step writes no order with another filled quantity than is stored (none, for an order not stored). */
  predicate KeepsFilled(s: State, op: Op) {
    Written(s, op).Some? ==> var o := Written(s, op).value; o.filled == OrderAt(s, o.id).filled
  }

  /** Likewise for the average, and a fill leaves the order with a positive filled quantity, or moves nothing. */
  predicate KeepsWorth(s: State, op: Op) {
    && (Written(s, op).Some? ==> var o := Written(s, op).value; Worth(o) == Worth(OrderAt(s, o.id)))
    && (op.Fill? && Resolve(s, op.id) in s.orders ==>
          var o := s.orders[Resolve(s, op.id)];
          o.filled + op.entry.quantity > 0.0 || op.entry.quantity == 0.0 || op.entry.price == o.avgFillPrice)
  }

  /** What a step that applies no fill does to filled quantities and averages. */
  lemma QuietStep(s: State, op: Op)
    requires Coherent(s) && AppliedBy(s, op) == []
    ensures forall id :: id in Step(s, op).orders ==>
              var o := Step(s, op).orders[id];
              if Written(s, op).Some? && id == Written(s, op).value.id
              then o.filled == Written(s, op).value.filled && o.avgFillPrice == Written(s, op).value.avgFillPrice
              else id in s.orders && o.filled == s.orders[id].filled && o.avgFillPrice == s.orders[id].avgFillPrice
    ensures Written(s, op).Some? ==> Written(s, op).value.id in Step(s, op).orders
    ensures s.orders.Keys <= Step(s, op).orders.Keys
  {
    hide Terminal, FillOrder, FillPosition, PositionAt, Signed, IndexExchange, Coherent;
    match op
    case MarkSent(id) => SameId(s, id);
    case MarkAck(id) => SameId(s, id);
    case Cancel(id, _) => SameId(s, id);
    case Reprice(id, _) => SameId(s, id);
    case Bind(id, _) => SameId(s, id);
    case _ =>
  }

  lemma SameId(s: State, id: string)
    requires Coherent(s)
    ensures id in s.orders ==> s.orders[id].id == id
  {
  }

  lemma StepKnows(s: State, op: Op, log: seq<Applied>)
    requires Coherent(s) && LogKnown(s, log)
    ensures LogKnown(Step(s, op), log + AppliedBy(s, op))
  {
    hide Step, Coherent;
    StepCoherent(s, op);
    if op.Fill? && Resolve(s, op.id) in s.orders {
      StoredId(s, Resolve(s, op.id));
    }
  }

  lemma UnknownUnfilled(s: State, log: seq<Applied>, id: string)
    requires LogKnown(s, log) && FilledAgrees(s, log)
    ensures SumQuantity(log, id) == OrderAt(s, id).filled
  {
    if id !in s.orders {
      UnknownOrderUnfilled(log, id);
    }
  }

  lemma UnknownWorthless(s: State, log: seq<Applied>, id: string)
    requires LogKnown(s, log) && AverageAgrees(s, log)
    ensures SumNotional(log, id) == Worth(OrderAt(s, id))
  {
    if id !in s.orders {
      UnknownOrderUnfilled(log, id);
    }
  }

  /**
   One step keeps every order's filled quantity equal to what was applied to it exactly when it writes back
   none other.
   */
  lemma StepFilledIff(s: State, op: Op, log: seq<Applied>)
    requires Coherent(s) && LogKnown(s, log) && FilledAgrees(s, log)
    ensures FilledAgrees(Step(s, op), log + AppliedBy(s, op)) <==> KeepsFilled(s, op)
  {
    hide Step, Coherent, Written, SumQuantity;
    var t, more := Step(s, op), AppliedBy(s, op);
    if more == [] {
      assert log + more == log;
      QuietStep(s, op);
      if Written(s, op).Some? {
        UnknownUnfilled(s, log, Written(s, op).value.id);
      }
    } else {
      FillFilledSum(s, op, log);
    }
  }

  lemma FillFilledSum(s: State, op: Op, log: seq<Applied>)
    requires Coherent(s) && FilledAgrees(s, log) && AppliedBy(s, op) != []
    ensures FilledAgrees(Step(s, op), log + AppliedBy(s, op)) && KeepsFilled(s, op)
  {
    hide FillPosition, PositionAt, Signed, FillOrder, SumQuantity;
    var t, a := Step(s, op), AppliedBy(s, op)[0];
    assert log + AppliedBy(s, op) == log + [a];
    FillFilled(s.orders[a.orderId], a.price, a.quantity);
    forall id | id in t.orders ensures t.orders[id].filled == SumQuantity(log + [a], id) {
      LogStep(log, a, id);
    }
  }

  /** Every prefix of a run of store steps. */
  function Upto(ops: seq<Op>, n: nat): State
    requires n <= |ops|
  {
    Run(EMPTY, ops[..n])
  }

  ghost predicate FilledAt(ops: seq<Op>, n: nat)
    requires n <= |ops|
  {
    FilledAgrees(Upto(ops, n), AppliedLog(ops[..n]))
  }

  lemma {:induction false} RunKnows(ops: seq<Op>)
    ensures LogKnown(Run(EMPTY, ops), AppliedLog(ops)) && Coherent(Run(EMPTY, ops))
  {
    hide Step, AppliedBy, Coherent;
    RunCoherent(ops);
    if ops != [] {
      RunKnows(ops[..|ops|-1]);
      StepKnows(Run(EMPTY, ops[..|ops|-1]), ops[|ops|-1], AppliedLog(ops[..|ops|-1]));
    }
  }

  lemma RunNext(ops: seq<Op>, n: nat)
    requires n < |ops|
    ensures Upto(ops, n + 1) == Step(Upto(ops, n), ops[n])
    ensures AppliedLog(ops[..n+1]) == AppliedLog(ops[..n]) + AppliedBy(Upto(ops, n), ops[n])
  {
    hide Step, AppliedBy;
    assert ops[..n+1][..n] == ops[..n];
  }

  /**
   Over every run of store steps, whatever they are: each order's filled quantity is always the sum of the
   fills applied to it exactly when no step writes an order back with another filled quantity than is stored.
   */
  lemma FilledIsSum(ops: seq<Op>)
    ensures (forall n :: 0 <= n <= |ops| ==> FilledAt(ops, n))
            <==> forall n :: 0 <= n < |ops| ==> KeepsFilled(Upto(ops, n), ops[n])
  {
    hide KeepsFilled, FilledAt, Upto;
    if forall n :: 0 <= n <= |ops| ==> FilledAt(ops, n) {
      forall n | 0 <= n < |ops| ensures KeepsFilled(Upto(ops, n), ops[n]) {
        FilledNext(ops, n);
        assert FilledAt(ops, n + 1);
      }
    }
    if forall n :: 0 <= n < |ops| ==> KeepsFilled(Upto(ops, n), ops[n]) {
      RunStart(ops);
      for n := 0 to |ops|
        invariant forall m :: 0 <= m <= n ==> FilledAt(ops, m)
      {
        FilledNext(ops, n);
      }
    }
  }

  lemma RunStart(ops: seq<Op>)
    ensures FilledAt(ops, 0) && AveragedAt(ops, 0)
  {
  }

  lemma FlatStart(ops: seq<Op>, symbol: string)
    ensures AgreesAt(ops, 0, symbol)
  {
  }

  lemma FilledNext(ops: seq<Op>, n: nat)
    requires n < |ops| && FilledAt(ops, n)
    ensures FilledAt(ops, n + 1) <==> KeepsFilled(Upto(ops, n), ops[n])
  {
    hide KeepsFilled, Step, AppliedBy, Coherent, LogKnown;
    RunKnows(ops[..n]);
    RunNext(ops, n);
    StepFilledIff(Upto(ops, n), ops[n], AppliedLog(ops[..n]));
  }

  /**
   One fill keeps average price times filled quantity equal to the notional exactly when the order
   ends up with a positive filled quantity, or the fill is empty or at the average itself: the
   program skips the average whenever the new filled quantity is not positive.
   */
  lemma AverageKeptIff(o: Order, price: real, quantity: real)
    ensures var f := FillOrder(o, price, quantity);
            Worth(f) == Worth(o) + price * quantity
            <==> o.filled + quantity > 0.0 || quantity == 0.0 || price == o.avgFillPrice
  {
    var a, filled := o.avgFillPrice, o.filled + quantity;
    if filled > 0.0 {
      var n := a * o.filled + price * quantity;
      Undivide(n, filled);
      assert Worth(FillOrder(o, price, quantity)) == n / filled * filled;
    } else {
      assert a * filled == a * o.filled + a * quantity;
      ProductsEqualIff(a, price, quantity);
      assert Worth(FillOrder(o, price, quantity)) == a * filled;
    }
  }

  lemma ProductsEqualIff(a: real, b: real, q: real)
    ensures a * q == b * q <==> q == 0.0 || a == b
  {
    assert a * q - b * q == (a - b) * q;
  }

  lemma WorthOf(o: Order, p: Order)
    ensures o.filled == p.filled && o.avgFillPrice == p.avgFillPrice ==> Worth(o) == Worth(p)
    ensures o.filled == 0.0 ==> Worth(o) == 0.0
  {
  }

  lemma StepAverageIff(s: State, op: Op, log: seq<Applied>)
    requires Coherent(s) && LogKnown(s, log) && AverageAgrees(s, log)
    ensures AverageAgrees(Step(s, op), log + AppliedBy(s, op)) <==> KeepsWorth(s, op)
  {
    hide Step, Coherent, Written, SumNotional, Worth, LogKnown;
    var t, more := Step(s, op), AppliedBy(s, op);
    if more == [] {
      assert log + more == log;
      QuietStep(s, op);
      if Written(s, op).Some? {
        var o := Written(s, op).value;
        UnknownWorthless(s, log, o.id);
        WorthOf(t.orders[o.id], o);
      }
      forall id | id in t.orders && !(Written(s, op).Some? && id == Written(s, op).value.id)
        ensures Worth(t.orders[id]) == SumNotional(log, id)
      {
        WorthOf(t.orders[id], s.orders[id]);
      }
    } else {
      FillAverageSum(s, op, log);
    }
  }

  lemma FillAverageSum(s: State, op: Op, log: seq<Applied>)
    requires Coherent(s) && AverageAgrees(s, log) && AppliedBy(s, op) != []
    ensures AverageAgrees(Step(s, op), log + AppliedBy(s, op)) <==> KeepsWorth(s, op)
  {
    hide FillPosition, PositionAt, Signed, FillOrder, SumNotional, Worth;
    var t, a := Step(s, op), AppliedBy(s, op)[0];
    var o := s.orders[a.orderId];
    assert log + AppliedBy(s, op) == log + [a];
    FillFilled(o, a.price, a.quantity);
    AverageKeptIff(o, a.price, a.quantity);
    forall id | id in t.orders
      ensures SumNotional(log + [a], id) == SumNotional(log, id) + if a.orderId == id then a.price * a.quantity else 0.0
    {
      LogStep(log, a, id);
    }
    assert t.orders == s.orders[o.id := FillOrder(o, a.price, a.quantity)];
  }

  lemma FillFilled(o: Order, price: real, quantity: real)
    ensures FillOrder(o, price, quantity).filled == o.filled + quantity && FillOrder(o, price, quantity).id == o.id
  {
  }

  ghost predicate AveragedAt(ops: seq<Op>, n: nat)
    requires n <= |ops|
  {
    AverageAgrees(Upto(ops, n), AppliedLog(ops[..n]))
  }

  lemma AverageNext(ops: seq<Op>, n: nat)
    requires n < |ops| && AveragedAt(ops, n)
    ensures AveragedAt(ops, n + 1) <==> KeepsWorth(Upto(ops, n), ops[n])
  {
    hide KeepsWorth, Step, AppliedBy, Coherent, LogKnown;
    RunKnows(ops[..n]);
    RunNext(ops, n);
    StepAverageIff(Upto(ops, n), ops[n], AppliedLog(ops[..n]));
  }

  /**
   Over every run of store steps average price times filled quantity is always the traded notional exactly
   when every step keeps it.
   */
  lemma AverageIsNotional(ops: seq<Op>)
    ensures (forall n :: 0 <= n <= |ops| ==> AveragedAt(ops, n))
            <==> forall n :: 0 <= n < |ops| ==> KeepsWorth(Upto(ops, n), ops[n])
  {
    hide KeepsWorth, AveragedAt, Upto;
    if forall n :: 0 <= n <= |ops| ==> AveragedAt(ops, n) {
      forall n | 0 <= n < |ops| ensures KeepsWorth(Upto(ops, n), ops[n]) {
        AverageNext(ops, n);
        assert AveragedAt(ops, n + 1);
      }
    }
    if forall n :: 0 <= n < |ops| ==> KeepsWorth(Upto(ops, n), ops[n]) {
      RunStart(ops);
      for n := 0 to |ops|
        invariant forall m :: 0 <= m <= n ==> AveragedAt(ops, m)
      {
        AverageNext(ops, n);
      }
    }
  }

  /** Write-backs that keep both figures, and no negative fills: what every producer of fills delivers. */
  ghost predicate PlainStep(s: State, op: Op) {
    && KeepsFilled(s, op)
    && (Written(s, op).Some? ==> var o := Written(s, op).value; o.avgFillPrice == OrderAt(s, o.id).avgFillPrice)
    && (op.Fill? ==> op.entry.quantity >= 0.0)
  }

  lemma {:induction false} SumNonNegative(log: seq<Applied>, id: string)
    requires forall k :: 0 <= k < |log| ==> log[k].quantity >= 0.0
    ensures SumQuantity(log, id) >= 0.0
  {
    if log != [] {
      SumNonNegative(log[..|log|-1], id);
    }
  }

  lemma {:induction false} LogNonNegative(ops: seq<Op>)
    requires forall n :: 0 <= n < |ops| && ops[n].Fill? ==> ops[n].entry.quantity >= 0.0
    ensures forall k :: 0 <= k < |AppliedLog(ops)| ==> AppliedLog(ops)[k].quantity >= 0.0
  {
    if ops != [] {
      LogNonNegative(ops[..|ops|-1]);
    }
  }

  /** In such runs both laws hold throughout. */
  lemma PlainRunsBalance(ops: seq<Op>)
    requires forall n :: 0 <= n < |ops| ==> PlainStep(Upto(ops, n), ops[n])
    ensures forall n :: 0 <= n <= |ops| ==> FilledAt(ops, n) && AveragedAt(ops, n)
  {
    hide KeepsFilled, KeepsWorth, FilledAt, AveragedAt, Upto;
    assert forall n :: 0 <= n < |ops| ==> KeepsFilled(Upto(ops, n), ops[n]) by {
      forall n | 0 <= n < |ops| ensures KeepsFilled(Upto(ops, n), ops[n]) { assert PlainStep(Upto(ops, n), ops[n]); }
    }
    FilledIsSum(ops);
    AverageIsNotional(ops);
    forall n | 0 <= n < |ops| ensures KeepsWorth(Upto(ops, n), ops[n]) {
      assert PlainStep(Upto(ops, n), ops[n]);
      forall m | 0 <= m < n && ops[m].Fill? ensures ops[m].entry.quantity >= 0.0 {
        assert PlainStep(Upto(ops, m), ops[m]);
      }
      LogNonNegative(ops[..n]);
      FilledMeans(ops, n);
      PlainKeepsWorth(Upto(ops, n), ops[n], AppliedLog(ops[..n]));
    }
  }

  lemma FilledMeans(ops: seq<Op>, n: nat)
    requires n <= |ops| && FilledAt(ops, n)
    ensures FilledAgrees(Upto(ops, n), AppliedLog(ops[..n]))
  {
  }

  lemma PlainKeepsWorth(s: State, op: Op, log: seq<Applied>)
    requires PlainStep(s, op) && FilledAgrees(s, log) && forall k :: 0 <= k < |log| ==> log[k].quantity >= 0.0
    ensures KeepsWorth(s, op)
  {
    hide Written, SumQuantity, Worth;
    if Written(s, op).Some? {
      WorthOf(Written(s, op).value, OrderAt(s, Written(s, op).value.id));
    }
    if op.Fill? && Resolve(s, op.id) in s.orders {
      SumNonNegative(log, Resolve(s, op.id));
    }
  }

  /**
   Writing back an order read earlier keeps the account exactly when no fill came in between: an
   update restores whatever filled quantity the caller had read.
   */
  lemma UpdateKeepsFilledIff(s: State, o: Order, log: seq<Applied>)
    requires Coherent(s) && LogKnown(s, log) && FilledAgrees(s, log)
    ensures FilledAgrees(Step(s, Update(o)), log) <==> o.filled == OrderAt(s, o.id).filled
  {
    hide Coherent, SumQuantity;
    StepFilledIff(s, Update(o), log);
    assert log + AppliedBy(s, Update(o)) == log;
  }

  // ----- when an order is filled -----

  /** The step sets the order's status: by writing it whole, marking it, canceling it or filling it. */
  predicate WritesStatus(s: State, op: Op, id: string) {
    || (Written(s, op).Some? && Written(s, op).value.id == id)
    || ((op.MarkSent? || op.MarkAck? || op.Cancel?) && op.id == id)
    || (op.Fill? && Resolve(s, op.id) == id)
  }

  lemma StatusKept(s: State, op: Op, id: string)
    requires Coherent(s) && id in s.orders && !WritesStatus(s, op, id)
    ensures var t := Step(s, op);
            && id in t.orders && t.orders[id].status == s.orders[id].status && t.orders[id].size == s.orders[id].size
            && t.orders[id].filled == s.orders[id].filled
  {
    hide Terminal, FillOrder, FillPosition, PositionAt, Signed, IndexExchange, Coherent;
    match op
    case Fill(_, entry, _) =>
      if Resolve(s, op.id) in s.orders {
        StoredId(s, Resolve(s, op.id));
        FillMeans(s.orders[Resolve(s, op.id)], entry.price, entry.quantity);
      }
    case MarkSent(other) => SameId(s, other);
    case MarkAck(other) => SameId(s, other);
    case Cancel(other, _) => SameId(s, other);
    case Reprice(other, _) => SameId(s, other);
    case Bind(other, _) => SameId(s, other);
    case _ =>
  }

  /** The step at n fills the order, and none after it sets its status. */
  ghost predicate LastFilledAt(ops: seq<Op>, id: string, n: nat) {
    && n < |ops| && ops[n].Fill? && Resolve(Upto(ops, n), ops[n].id) == id && id in Upto(ops, n).orders
    && forall m :: n < m < |ops| ==> !WritesStatus(Upto(ops, m), ops[m], id)
  }

  /** The status, size and filled quantity the order had once that fill was applied. */
  ghost predicate AsFilled(ops: seq<Op>, id: string, n: nat, m: nat)
    requires n < m <= |ops|
  {
    && id in Upto(ops, m).orders && id in Upto(ops, n + 1).orders
    && var o, f := Upto(ops, m).orders[id], Upto(ops, n + 1).orders[id];
    o.status == f.status && o.size == f.size && o.filled == f.filled
  }

  lemma AsFilledNext(ops: seq<Op>, id: string, n: nat, m: nat)
    requires LastFilledAt(ops, id, n) && n < m < |ops| && AsFilled(ops, id, n, m)
    ensures AsFilled(ops, id, n, m + 1)
  {
    hide Step, WritesStatus, Upto, Coherent;
    RunNext(ops, m);
    PrefixCoherent(ops, m);
    StatusKept(Upto(ops, m), ops[m], id);
  }

  lemma PrefixCoherent(ops: seq<Op>, n: nat)
    requires n <= |ops|
    ensures Coherent(Upto(ops, n))
  {
    hide Coherent;
    RunCoherent(ops[..n]);
  }

  lemma FillApplied(ops: seq<Op>, id: string, n: nat)
    requires LastFilledAt(ops, id, n)
    ensures AsFilled(ops, id, n, n + 1)
    ensures var f := Upto(ops, n + 1).orders[id];
            (f.status == Filled <==> f.filled >= f.size) && (f.status == Partial <==> f.filled < f.size)
  {
    hide WritesStatus, Upto, Coherent, FillOrder, FillPosition, PositionAt, Signed;
    RunNext(ops, n);
    PrefixCoherent(ops, n);
    StoredId(Upto(ops, n), id);
    FillMeans(Upto(ops, n).orders[id], ops[n].entry.price, ops[n].entry.quantity);
  }

  /**
   Over every run in which write-backs keep filled quantities: once the last step to set an order's status is a
   fill, the order is Filled exactly when the sum of its fills reaches its size, and Partial otherwise.
   */
  lemma FilledIffReached(ops: seq<Op>, id: string, n: nat)
    requires LastFilledAt(ops, id, n)
    requires forall m :: 0 <= m < |ops| ==> KeepsFilled(Upto(ops, m), ops[m])
    ensures id in Run(EMPTY, ops).orders
    ensures var o := Run(EMPTY, ops).orders[id];
            && (o.status == Filled <==> SumQuantity(AppliedLog(ops), id) >= o.size)
            && (o.status == Partial <==> SumQuantity(AppliedLog(ops), id) < o.size)
  {
    hide KeepsFilled, FilledAt, AsFilled, LastFilledAt, SumQuantity, Upto;
    LastIsWithin(ops, id, n);
    FilledIsSum(ops);
    FillApplied(ops, id, n);
    for m := n + 1 to |ops|
      invariant AsFilled(ops, id, n, m)
    {
      AsFilledNext(ops, id, n, m);
    }
    AtEnd(ops, id, n);
  }

  lemma LastIsWithin(ops: seq<Op>, id: string, n: nat)
    requires LastFilledAt(ops, id, n)
    ensures n < |ops|
  {
  }

  lemma AtEnd(ops: seq<Op>, id: string, n: nat)
    requires n < |ops| && AsFilled(ops, id, n, |ops|) && FilledAt(ops, |ops|)
    ensures id in Run(EMPTY, ops).orders && id in Upto(ops, n + 1).orders
    ensures var o, f := Run(EMPTY, ops).orders[id], Upto(ops, n + 1).orders[id];
            && o.status == f.status && o.size == f.size && o.filled == f.filled == SumQuantity(AppliedLog(ops), id)
  {
    assert ops[..|ops|] == ops;
  }

  // ----- positions, and the Rust ledger -----

  function SymbolTotal(log: seq<Applied>, symbol: string): real {
    if log == [] then 0.0
    else
      SymbolTotal(log[..|log|-1], symbol) +
      if log[|log|-1].symbol == symbol then Signed(log[|log|-1].side, log[|log|-1].quantity) else 0.0
  }

  function SymbolCount(log: seq<Applied>, symbol: string): nat {
    if log == [] then 0
    else SymbolCount(log[..|log|-1], symbol) + if log[|log|-1].symbol == symbol then 1 else 0
  }

  lemma SymbolStep(log: seq<Applied>, a: Applied, symbol: string)
    ensures SymbolTotal(log + [a], symbol)
            == SymbolTotal(log, symbol) + if a.symbol == symbol then Signed(a.side, a.quantity) else 0.0
    ensures SymbolCount(log + [a], symbol) == SymbolCount(log, symbol) + if a.symbol == symbol then 1 else 0
  {
    assert (log + [a])[..|log|] == log;
  }

  lemma FillPositionSize(p: Position, symbol: string, signed: real, price: real, quantity: real)
    ensures AbsR(FillPosition(p, symbol, signed, price, quantity).size - p.size - signed) <= FLAT
  {
  }

  lemma StepSize(s: State, op: Op, symbol: string)
    requires !op.SetPosition?
    ensures var change := PositionAt(Step(s, op), symbol).size - PositionAt(s, symbol).size;
            var more := AppliedBy(s, op);
            if more != [] && more[0].symbol == symbol
            then AbsR(change - Signed(more[0].side, more[0].quantity)) <= FLAT
            else change == 0.0
  {
    hide FillPosition, FillOrder, Signed, AbsR;
    if AppliedBy(s, op) != [] {
      var o, t := s.orders[Resolve(s, op.id)], Step(s, op);
      var signed := Signed(o.side, op.entry.quantity);
      FillKeepsId(o, op.entry.price, op.entry.quantity);
      FillPositionSize(PositionAt(s, o.symbol), o.symbol, signed, op.entry.price, op.entry.quantity);
      assert t.positions == s.positions[o.symbol :=
        FillPosition(PositionAt(s, o.symbol), o.symbol, signed, op.entry.price, op.entry.quantity)];
    }
  }

  /** Between position resets from the exchange, n fills leave the position within n cut-offs of their signed sum. */
  lemma {:induction false} PositionTracks(ops: seq<Op>, symbol: string)
    requires forall k :: 0 <= k < |ops| ==> !ops[k].SetPosition?
    ensures AbsR(PositionAt(Run(EMPTY, ops), symbol).size - SymbolTotal(AppliedLog(ops), symbol))
            <= SymbolCount(AppliedLog(ops), symbol) as real * FLAT
  {
    hide Step, AppliedBy, AbsR, Signed, FillOrder;
    if ops == [] {
      LR.Accumulate(0.0, 0.0, 0, FLAT, false);
    } else {
      var past, op := ops[..|ops|-1], ops[|ops|-1];
      var s := Run(EMPTY, past);
      var log, more := AppliedLog(past), AppliedBy(s, op);
      PositionTracks(past, symbol);
      StepSize(s, op, symbol);
      AppliedShape(s, op);
      var x := PositionAt(s, symbol).size - SymbolTotal(log, symbol);
      var y := PositionAt(Step(s, op), symbol).size - SymbolTotal(log + more, symbol) - x;
      if more == [] {
        assert log + more == log;
        LR.Accumulate(0.0, 0.0, 0, FLAT, false);
      } else {
        SymbolStep(log, more[0], symbol);
        assert log + more == log + [more[0]];
        LR.Accumulate(0.0, 0.0, 0, FLAT, false);
        LR.Accumulate(x, y, SymbolCount(log, symbol), FLAT, more[0].symbol == symbol);
      }
    }
  }

  lemma AppliedShape(s: State, op: Op)
    ensures AppliedBy(s, op) != [] ==>
              && |AppliedBy(s, op)| == 1 && op.Fill? && Resolve(s, op.id) in s.orders
              && AppliedBy(s, op)[0].symbol == s.orders[Resolve(s, op.id)].symbol
  {
  }

  // ----- what a position's average should be -----

  /** A position by the book: its size, and what its open quantity was traded for in all. */
  datatype Holding = Holding(size: real, cost: real)

  /**
   Nothing when flat; more cost when growing; cost pro rata when shrinking; the fill's own cost when opened or
   crossed.
   */
  function Hold(h: Holding, signed: real, price: real): Holding {
    var size := h.size + signed;
    if AbsR(size) < FLAT then Holding(0.0, 0.0)
    else if h.size == 0.0 || SignOf(h.size) == SignOf(signed) then Holding(size, h.cost + price * AbsR(signed))
    else if SignOf(size) == SignOf(h.size) then Holding(size, Share(h.cost, size, h.size))
    else Holding(size, price * AbsR(size))
  }

  function Share(cost: real, size: real, whole: real): real
    requires whole != 0.0
  {
    cost / AbsR(whole) * AbsR(size)
  }

  function CostOf(p: Position): real {
    p.avgPrice * AbsR(p.size)
  }

  /** The stored average is the average cost of the open quantity. */
  predicate Agrees(p: Position, h: Holding) {
    p.size == h.size && CostOf(p) == h.cost
  }

  predicate Grows(size: real, signed: real) {
    AbsR(size + signed) >= FLAT && (size == 0.0 || SignOf(size) == SignOf(signed))
  }

  /** The fill carries the position through zero. */
  predicate Crosses(size: real, signed: real) {
    AbsR(size + signed) >= FLAT && SignOf(size) == -SignOf(signed) != 0 && SignOf(size + signed) == SignOf(signed)
  }

  predicate AverageOk(p: Position, signed: real, price: real, quantity: real) {
    && (Crosses(p.size, signed) ==> p.avgPrice == price)
    && (Grows(p.size, signed) ==> quantity >= 0.0 || price == 0.0)
  }

  /**
   For every fill of every position: the average stays the average cost exactly when the fill does not cross
   zero, or crosses it at the old average (and a negative quantity does not make the position grow).
   */
  lemma FillAverageIff(p: Position, h: Holding, symbol: string, side: Side, price: real, quantity: real)
    requires Agrees(p, h)
    ensures var signed := Signed(side, quantity);
            Agrees(FillPosition(p, symbol, signed, price, quantity), Hold(h, signed, price))
            <==> AverageOk(p, signed, price, quantity)
  {
    hide Agrees, Hold, FillPosition, Signed;
    var signed := Signed(side, quantity);
    SignedSize(side, quantity);
    if AbsR(p.size + signed) < FLAT {
      FlatAgrees(p, h, symbol, signed, price, quantity);
    } else if p.size == 0.0 || SignOf(p.size) == SignOf(signed) {
      GrownAgrees(p, h, symbol, signed, price, quantity);
    } else {
      KeptAgrees(p, h, symbol, signed, price, quantity);
    }
  }

  lemma FlatAgrees(p: Position, h: Holding, symbol: string, signed: real, price: real, quantity: real)
    requires Agrees(p, h) && AbsR(p.size + signed) < FLAT
    ensures Agrees(FillPosition(p, symbol, signed, price, quantity), Hold(h, signed, price))
  {
  }

  lemma GrownAgrees(p: Position, h: Holding, symbol: string, signed: real, price: real, quantity: real)
    requires Agrees(p, h) && Grows(p.size, signed) && AbsR(signed) == AbsR(quantity)
    ensures Agrees(FillPosition(p, symbol, signed, price, quantity), Hold(h, signed, price))
            <==> quantity >= 0.0 || price == 0.0
  {
    hide CostOf;
    GrownCost(p, symbol, p.size + signed, price, quantity, AbsR(signed));
  }

  lemma KeptAgrees(p: Position, h: Holding, symbol: string, signed: real, price: real, quantity: real)
    requires Agrees(p, h) && AbsR(p.size + signed) >= FLAT && p.size != 0.0 && SignOf(p.size) != SignOf(signed)
    ensures Agrees(FillPosition(p, symbol, signed, price, quantity), Hold(h, signed, price))
            <==> (Crosses(p.size, signed) ==> p.avgPrice == price)
  {
    hide CostOf, Share;
    KeptCost(p, p.size + signed, price);
  }

  lemma SignedSize(side: Side, quantity: real)
    ensures AbsR(Signed(side, quantity)) == AbsR(quantity)
  {
  }

  lemma GrownCost(p: Position, symbol: string, size: real, price: real, quantity: real, grown: real)
    requires AbsR(size) > 0.0 && grown == AbsR(quantity)
    ensures CostOf(Position(symbol, size, (p.avgPrice * AbsR(p.size) + price * quantity) / AbsR(size)))
            == CostOf(p) + price * grown
            <==> quantity >= 0.0 || price == 0.0
  {
    Undivide(p.avgPrice * AbsR(p.size) + price * quantity, AbsR(size));
    if quantity < 0.0 {
      assert price * grown == -(price * quantity);
      ProductsEqualIff(price, 0.0, quantity);
    }
  }

  lemma KeptCost(p: Position, size: real, price: real)
    requires p.size != 0.0 && AbsR(size) > 0.0
    ensures CostOf(p.(size := size)) == Share(CostOf(p), size, p.size)
    ensures CostOf(p.(size := size)) == price * AbsR(size) <==> p.avgPrice == price
  {
    Redivide(p.avgPrice, AbsR(p.size));
    ProductsEqualIff(p.avgPrice, price, AbsR(size));
  }

  lemma Redivide(a: real, b: real)
    requires b > 0.0
    ensures a * b / b == a
  {
  }

  /** The book kept over a run: a report from the exchange replaces it. */
  function HoldingOf(ops: seq<Op>, symbol: string): Holding {
    if ops == [] then Holding(0.0, 0.0)
    else NextHolding(HoldingOf(ops[..|ops|-1], symbol), Run(EMPTY, ops[..|ops|-1]), ops[|ops|-1], symbol)
  }

  function NextHolding(h: Holding, s: State, op: Op, symbol: string): Holding {
    if op.SetPosition? && op.position.symbol == symbol then Holding(op.position.size, CostOf(op.position))
    else
      var more := AppliedBy(s, op);
      if more != [] && more[0].symbol == symbol then Hold(h, Signed(more[0].side, more[0].quantity), more[0].price)
      else h
  }

  /** The step is no fill of the symbol, or one that keeps the average right. */
  predicate KeepsAverage(s: State, op: Op, symbol: string) {
    var more := AppliedBy(s, op);
    more != [] && more[0].symbol == symbol ==>
      AverageOk(PositionAt(s, symbol), Signed(more[0].side, more[0].quantity), more[0].price, more[0].quantity)
  }

  lemma StepAgrees(s: State, op: Op, symbol: string, h: Holding)
    requires Agrees(PositionAt(s, symbol), h)
    ensures Agrees(PositionAt(Step(s, op), symbol), NextHolding(h, s, op, symbol)) <==> KeepsAverage(s, op, symbol)
  {
    hide Hold, AverageOk, FillPosition, Signed, FillOrder, CostOf;
    var more := AppliedBy(s, op);
    if more != [] {
      var o := s.orders[Resolve(s, op.id)];
      FillKeepsId(o, op.entry.price, op.entry.quantity);
      if o.symbol == symbol {
        FillAverageIff(PositionAt(s, symbol), h, symbol, o.side, op.entry.price, op.entry.quantity);
      }
    }
  }

  ghost predicate AgreesAt(ops: seq<Op>, n: nat, symbol: string)
    requires n <= |ops|
  {
    Agrees(PositionAt(Upto(ops, n), symbol), HoldingOf(ops[..n], symbol))
  }

  lemma AgreesNext(ops: seq<Op>, symbol: string, n: nat)
    requires n < |ops| && AgreesAt(ops, n, symbol)
    ensures AgreesAt(ops, n + 1, symbol) <==> KeepsAverage(Upto(ops, n), ops[n], symbol)
  {
    hide KeepsAverage, Step, NextHolding, PositionAt, Agrees;
    RunNext(ops, n);
    assert ops[..n+1][..n] == ops[..n];
    StepAgrees(Upto(ops, n), ops[n], symbol, HoldingOf(ops[..n], symbol));
  }

  /**
   Over every run, reports from the exchange included: a position's average is always the average cost of what is
   open exactly when no fill crosses zero at another price than the average (and none of negative quantity grows it).
   */
  lemma PositionAverageIff(ops: seq<Op>, symbol: string)
    ensures (forall n :: 0 <= n <= |ops| ==> AgreesAt(ops, n, symbol))
            <==> forall n :: 0 <= n < |ops| ==> KeepsAverage(Upto(ops, n), ops[n], symbol)
  {
    hide KeepsAverage, AgreesAt, Upto;
    if forall n :: 0 <= n <= |ops| ==> AgreesAt(ops, n, symbol) {
      forall n | 0 <= n < |ops| ensures KeepsAverage(Upto(ops, n), ops[n], symbol) {
        AgreesNext(ops, symbol, n);
        assert AgreesAt(ops, n + 1, symbol);
      }
    }
    if forall n :: 0 <= n < |ops| ==> KeepsAverage(Upto(ops, n), ops[n], symbol) {
      FlatStart(ops, symbol);
      for n := 0 to |ops|
        invariant forall m :: 0 <= m <= n ==> AgreesAt(ops, m, symbol)
      {
        AgreesNext(ops, symbol, n);
      }
    }
  }

  /** The Rust ledger saw the same fills, in the same order. */
  ghost predicate SameFills(log: seq<Applied>, events: seq<L.Event>) {
    && |log| == |events|
    && forall k :: 0 <= k < |log| ==>
                     && events[k].Traded? && events[k].fill.symbol == log[k].symbol
                        && events[k].fill.side == log[k].side
                     && events[k].fill.quantity == log[k].quantity >= 0.0
  }

  lemma {:induction false} SameFlows(log: seq<Applied>, events: seq<L.Event>, symbol: string)
    requires SameFills(log, events)
    ensures SymbolTotal(log, symbol) == LR.SymbolFlow(events, symbol)
    ensures SymbolCount(log, symbol) == LR.SymbolFills(events, symbol)
  {
    hide Sign;
    if log != [] {
      SameFlows(log[..|log|-1], events[..|events|-1], symbol);
    }
  }

  /** Folding the same n fills of a symbol, the Go position and the Rust net quantity differ by at most 2n cut-offs. */
  lemma PositionAgainstLedger(ops: seq<Op>, events: seq<L.Event>, symbol: string, how: L.Matching)
    requires forall k :: 0 <= k < |ops| ==> !ops[k].SetPosition?
    requires SameFills(AppliedLog(ops), events)
    ensures AbsR(PositionAt(Run(EMPTY, ops), symbol).size - LR.NetQuantity(L.Run(events, how, L.CUTOFF), symbol))
            <= 2.0 * (SymbolCount(AppliedLog(ops), symbol) as real * FLAT)
  {
    hide Run, L.Run, LR.NetQuantity, SymbolTotal, SymbolCount, AppliedLog, SameFills, LR.SymbolFlow, LR.SymbolFills,
         PositionAt;
    SameFlows(AppliedLog(ops), events, symbol);
    PositionTracks(ops, symbol);
    LR.NetQuantityTracks(events, symbol, how, L.CUTOFF);
  }
}

/** What the store's reconciliation flag does and does not establish. */
module ReconciliationCheck {
  import opened Numeric
  import opened Store

  // ----- what the two sums are -----

  ghost predicate Mentions(ledger: seq<FillEntry>, id: string) {
    exists k :: 0 <= k < |ledger| && ledger[k].orderId == id
  }

  ghost predicate Executed(events: seq<ExecutionEvent>, id: string) {
    exists k :: 0 <= k < |events| && events[k].orderId == id
  }

  function LedgerQuantity(ledger: seq<FillEntry>, id: string): real {
    if ledger == [] then 0.0
    else LedgerQuantity(ledger[..|ledger|-1], id) +
         if ledger[|ledger|-1].orderId == id then ledger[|ledger|-1].quantity else 0.0
  }

  function ExecutedQuantity(events: seq<ExecutionEvent>, id: string): real {
    if events == [] then 0.0
    else ExecutedQuantity(events[..|events|-1], id) +
         if events[|events|-1].orderId == id then events[|events|-1].filledQuantity else 0.0
  }

  lemma {:induction false} LedgerSumsAre(ledger: seq<FillEntry>, id: string)
    ensures id in LedgerSums(ledger) <==> Mentions(ledger, id)
    ensures QtyOf(LedgerSums(ledger), id) == LedgerQuantity(ledger, id)
  {
    if ledger != [] {
      var past, last := ledger[..|ledger|-1], ledger[|ledger|-1];
      LedgerSumsAre(past, id);
      assert ledger[|ledger|-1].orderId == last.orderId;
      assert forall k :: 0 <= k < |past| ==> past[k] == ledger[k];
    }
  }

  lemma {:induction false} ExecutionSumsAre(events: seq<ExecutionEvent>, id: string)
    ensures id in ExecutionSums(events) <==> Executed(events, id)
    ensures QtyOf(ExecutionSums(events), id) == ExecutedQuantity(events, id)
  {
    if events != [] {
      var past, last := events[..|events|-1], events[|events|-1];
      ExecutionSumsAre(past, id);
      assert events[|events|-1].orderId == last.orderId;
      assert forall k :: 0 <= k < |past| ==> past[k] == events[k];
    }
  }

  // ----- the flag is never raised for nothing -----

  ghost predicate PairAgrees(e: FillEntry, x: ExecutionEvent) {
    e.orderId == x.orderId && e.quantity == x.filledQuantity
  }

  /** Every producer builds a fill's ledger entry and its execution event for the same order and quantity. */
  ghost predicate PairsAgree(ops: seq<Op>) {
    forall k :: 0 <= k < |ops| && ops[k].Fill? ==> PairAgrees(ops[k].entry, ops[k].event)
  }

  ghost predicate LogsAgree(s: State) {
    |s.ledger| == |s.executions| && forall k :: 0 <= k < |s.ledger| ==> PairAgrees(s.ledger[k], s.executions[k])
  }

  lemma {:induction false} RunLogsAgree(ops: seq<Op>)
    requires PairsAgree(ops)
    ensures LogsAgree(Run(EMPTY, ops))
  {
    hide Step, PairAgrees, Resolve;
    if ops != [] {
      RunLogsAgree(ops[..|ops|-1]);
      StepLogs(Run(EMPTY, ops[..|ops|-1]), ops[|ops|-1]);
    }
  }

  lemma {:induction false} AgreeingSums(ledger: seq<FillEntry>, events: seq<ExecutionEvent>)
    requires |ledger| == |events| && forall k :: 0 <= k < |ledger| ==> PairAgrees(ledger[k], events[k])
    ensures LedgerSums(ledger) == ExecutionSums(events)
  {
    if ledger != [] {
      AgreeingSums(ledger[..|ledger|-1], events[..|events|-1]);
    }
  }

  /** When every applied pair agrees on order and quantity, every reachable store reports Matched. */
  lemma AgreeingPairsMatch(ops: seq<Op>)
    requires PairsAgree(ops)
    ensures var s := Run(EMPTY, ops); Matches(LedgerSums(s.ledger), ExecutionSums(s.executions))
  {
    hide Run, LedgerSums, ExecutionSums;
    RunLogsAgree(ops);
    AgreeingSums(Run(EMPTY, ops).ledger, Run(EMPTY, ops).executions);
  }

  // ----- what a raised flag means -----

  lemma SameSizeSubset(a: set<string>, b: set<string>)
    requires a <= b && |a| == |b|
    ensures a == b
  {
    assert b == a + (b - a);
    assert |b| == |a| + |b - a|;
    assert forall x :: x in b ==> x !in b - a;
  }

  /** The same orders on both sides, and every order's quantities within tolerance. */
  ghost predicate Reconciled(ledger: seq<FillEntry>, events: seq<ExecutionEvent>) {
    && (forall id :: Mentions(ledger, id) <==> Executed(events, id))
    && (forall id :: Executed(events, id) ==>
                       AbsR(ExecutedQuantity(events, id) - LedgerQuantity(ledger, id)) <= TOLERANCE)
  }

  /** Every order missing from the ledger was executed for more than the tolerance. */
  ghost predicate NothingHides(ledger: seq<FillEntry>, events: seq<ExecutionEvent>) {
    forall id :: Executed(events, id) && !Mentions(ledger, id) ==> AbsR(ExecutedQuantity(events, id)) > TOLERANCE
  }

  lemma SumsOf(ledger: seq<FillEntry>, events: seq<ExecutionEvent>)
    ensures forall id :: (id in LedgerSums(ledger) <==> Mentions(ledger, id))
                         && QtyOf(LedgerSums(ledger), id) == LedgerQuantity(ledger, id)
    ensures forall id :: (id in ExecutionSums(events) <==> Executed(events, id))
                         && QtyOf(ExecutionSums(events), id) == ExecutedQuantity(events, id)
  {
    forall id
      ensures (id in LedgerSums(ledger) <==> Mentions(ledger, id))
              && QtyOf(LedgerSums(ledger), id) == LedgerQuantity(ledger, id)
    {
      LedgerSumsAre(ledger, id);
    }
    forall id
      ensures (id in ExecutionSums(events) <==> Executed(events, id))
              && QtyOf(ExecutionSums(events), id) == ExecutedQuantity(events, id)
    {
      ExecutionSumsAre(events, id);
    }
  }

  /** Matched means reconciled exactly when no executed order that the ledger lacks hides within the tolerance. */
  lemma MatchedMeansReconciled(ledger: seq<FillEntry>, events: seq<ExecutionEvent>)
    ensures Reconciled(ledger, events) ==> Matches(LedgerSums(ledger), ExecutionSums(events))
    ensures Matches(LedgerSums(ledger), ExecutionSums(events))
            ==> (Reconciled(ledger, events) <==> NothingHides(ledger, events))
  {
    hide LedgerSums, ExecutionSums, Mentions, Executed, LedgerQuantity, ExecutedQuantity;
    var l, x := LedgerSums(ledger), ExecutionSums(events);
    SumsOf(ledger, events);
    if Reconciled(ledger, events) {
      assert l.Keys == x.Keys;
      assert |l| == |l.Keys| && |x| == |x.Keys|;
      forall id | id in x ensures AbsR(x[id] - QtyOf(l, id)) <= TOLERANCE {
        assert x[id] == QtyOf(x, id);
        assert Executed(events, id);
      }
    }
    if Matches(l, x) && NothingHides(ledger, events) {
      assert x.Keys <= l.Keys by {
        forall id | id in x ensures id in l {
          assert x[id] == QtyOf(x, id);
          assert Executed(events, id);
        }
      }
      assert |l| == |l.Keys| && |x| == |x.Keys|;
      SameSizeSubset(x.Keys, l.Keys);
      forall id | Executed(events, id)
        ensures AbsR(ExecutedQuantity(events, id) - LedgerQuantity(ledger, id)) <= TOLERANCE
      {
        assert id in x && x[id] == QtyOf(x, id);
      }
      forall id ensures Mentions(ledger, id) <==> Executed(events, id) {
        assert id in l.Keys <==> id in x.Keys;
      }
    }
  }

  lemma {:induction false} LargeQuantitiesSum(events: seq<ExecutionEvent>, id: string)
    requires forall k :: 0 <= k < |events| ==> events[k].filledQuantity > TOLERANCE
    ensures ExecutedQuantity(events, id) >= 0.0
    ensures Executed(events, id) ==> ExecutedQuantity(events, id) > TOLERANCE
  {
    if events != [] {
      var past := events[..|events|-1];
      LargeQuantitiesSum(past, id);
      assert Executed(events, id) ==> Executed(past, id) || events[|events|-1].orderId == id by {
        if Executed(events, id) {
          var k :| 0 <= k < |events| && events[k].orderId == id;
          assert k < |past| ==> past[k].orderId == id;
        }
      }
    }
  }

  /** When every executed quantity exceeds the tolerance, Matched is exactly reconciliation. */
  lemma MatchedIffReconciled(ledger: seq<FillEntry>, events: seq<ExecutionEvent>)
    requires forall k :: 0 <= k < |events| ==> events[k].filledQuantity > TOLERANCE
    ensures Matches(LedgerSums(ledger), ExecutionSums(events)) <==> Reconciled(ledger, events)
  {
    hide Matches, Reconciled, LedgerSums, ExecutionSums, ExecutedQuantity, Executed, Mentions;
    MatchedMeansReconciled(ledger, events);
    forall id | Executed(events, id) ensures AbsR(ExecutedQuantity(events, id)) > TOLERANCE {
      LargeQuantitiesSum(events, id);
    }
  }

  /** A fill of 5 booked under the wrong order goes unnoticed beside an execution within the tolerance. */
  lemma TinyExecutionHidesMismatch(e: FillEntry, x: ExecutionEvent)
    requires e.orderId != x.orderId && e.quantity == 5.0 && x.filledQuantity == TOLERANCE
    ensures Matches(LedgerSums([e]), ExecutionSums([x])) && !Reconciled([e], [x])
  {
    assert [e][..0] == [] && [x][..0] == [];
    assert LedgerSums([e]) == map[e.orderId := 5.0];
    assert ExecutionSums([x]) == map[x.orderId := TOLERANCE];
    assert [e][0].orderId == e.orderId;
    assert Mentions([e], e.orderId) && !Executed([x], e.orderId);
  }
}

/** From the agent to the store: a published plan ends as its report says, whatever crashes on the way. */
module EndToEnd {
  import opened Models
  import opened Ledger
  import opened Tables
  import opened Replay
  import opened Consumers
  import opened Guarantees
  import opened Independence
  import opened Planner

  /** What the outcome check expects of the server, from the report alone. */
  function Expected(p: PlanOutcome): (Status, int, seq<EventType>) {
    if p.completed then (StatusCompleted, 5, p.events)
    else if p.lastSeq == 0 then (StatusAborted, 0, [])
    else (StatusAborted, p.lastSeq, p.events)
  }

  function Records(es: seq<Event>): (rs: seq<Record>)
    ensures |rs| == |es| && forall i | 0 <= i < |es| :: rs[i] == Parsed(es[i])
  {
    seq(|es|, i requires 0 <= i < |es| => Parsed(es[i]))
  }

  /** The plan's first `n` events are applied, and nothing is buffered. */
  ghost predicate Applied(o: Order, es: seq<Event>, n: nat, l: Ledger) {
    && n <= |es| && l.pending == map[] && l.notes == es[..n]
    && if n == 0 then l.row.None?
       else
         && Sequenced(es[n - 1])
         && l.row == Some(OrderRow(o.planId, o.userId, StatusOf(es[n - 1]), Some(o.totalAmount), n))
  }

  lemma {:induction false} StepsApply(o: Order, es: seq<Event>, n: nat, k: nat)
    requires o.orderId.Uuid? && o.planId != ""
    requires k <= n <= |es| && FirstSteps(o, es[..n])
    ensures Applied(o, es, k, Pass(o.orderId, Records(es), k))
  {
    if k > 0 {
      StepsApply(o, es, n, k - 1);
      assert es[..n][k - 1] == es[k - 1];
    }
  }

  /** Step by step: after the k-th event of the plan the order has the k-th status, its user and its amount. */
  lemma {:induction false} RowAfterSteps(o: Order, es: seq<Event>, k: nat)
    requires o.orderId.Uuid? && o.planId != "" && EndingOf(o) != Raises && Publishes(o, es)
    requires 1 <= k <= |es| && es[k - 1].eventType != AbortPlan
    ensures k <= 5
    ensures var status := [StatusPending, StatusValidated, StatusPaid, StatusShipped, StatusCompleted][k - 1];
      Pass(o.orderId, Records(es), k).row == Some(OrderRow(o.planId, o.userId, status, Some(o.totalAmount), k))
  {
    var n := if EndingOf(o) == Completes then |es| else |es| - 1;
    assert es[..|es|] == es;
    StepsApply(o, es, n, k);
    assert IsNth(o, es[..n][k - 1], k - 1);
  }

  lemma {:induction false} LastSeqBeforeAbort(o: Order, es: seq<Event>)
    requires es != [] && FirstSteps(o, es[..|es| - 1]) && IsAbortOf(o, es[|es| - 1])
    ensures LastSeqOf(es) == |es| - 1
  {
    LastSeqOfSteps(o, es[..|es| - 1]);
  }

  /** The server's state of the order is the one the report leads to expect. */
  ghost predicate AsExpected(o: Order, p: PlanOutcome, l: Ledger) {
    && l.row.Some? && l.row.value.planId == o.planId
    && (l.row.value.status, l.row.value.lastSeq, TypesOf(l.notes)) == Expected(p)
    && l.pending == map[]
    && (p.lastSeq > 0 ==> l.row.value.userId == o.userId && l.row.value.total == Some(o.totalAmount))
    && (p.lastSeq == 0 ==> l.row.value.userId == "unknown" && l.row.value.total == None)
  }

  lemma {:induction false} CompletePlan(o: Order, es: seq<Event>, p: PlanOutcome)
    requires o.orderId.Uuid? && o.planId != ""
    requires EndingOf(o) == Completes && Publishes(o, es) && ReportsOn(o, es, p)
    ensures AsExpected(o, p, Pass(o.orderId, Records(es), |es|))
  {
    var n := |es|;
    assert es[..n] == es;
    StepsApply(o, es, n, n);
    assert IsNth(o, es[n - 1], n - 1);
  }

  lemma {:induction false} AbortedPlanOutcome(o: Order, es: seq<Event>, p: PlanOutcome)
    requires o.orderId.Uuid? && o.planId != ""
    requires EndingOf(o).AbortsAfter? && Publishes(o, es) && ReportsOn(o, es, p)
    ensures AsExpected(o, p, Pass(o.orderId, Records(es), |es|))
  {
    var n := |es| - 1;
    StepsApply(o, es, n, n);
    LastSeqBeforeAbort(o, es);
    var l, e := Pass(o.orderId, Records(es), n), es[n];
    if n > 0 {
      assert IsNth(o, es[..n][n - 1], n - 1);
    }
    assert DropPlan(map[], e.orderId, e.planId) == map[];
    assert Pass(o.orderId, Records(es), n + 1) == DeliverAbort(l, e);
    if n > 0 {
      assert l.notes + [e] == es;
    }
  }

  /** The steps of a plan come in order, so none of them ever waits in the buffer. */
  lemma {:induction false} PlanNeverBuffers(o: Order, es: seq<Event>, p: PlanOutcome, log: seq<Record>)
    requires o.orderId.Uuid? && o.planId != ""
    requires Publishes(o, es) && EndingOf(o) != Raises && ReportsOn(o, es, p)
    requires Only(o.orderId, log) == Records(es)
    ensures NeverBuffers(o.orderId, log)
  {
    forall n: nat | n <= |log| ensures Pass(o.orderId, log, n).pending == map[] {
      var mine := Only(o.orderId, log[..n]);
      PassOfPrefix(o.orderId, log, n, n);
      PassOfOnly(o.orderId, log[..n]);
      OnlyOfPrefix(o.orderId, log, n);
      assert mine == Records(es)[..|mine|];
      PassOfPrefix(o.orderId, Records(es), |mine|, |mine|);
      PlanPrefix(o, es, p, |mine|);
    }
  }

  lemma {:induction false} PlanPrefix(o: Order, es: seq<Event>, p: PlanOutcome, k: nat)
    requires o.orderId.Uuid? && o.planId != "" && k <= |es|
    requires Publishes(o, es) && EndingOf(o) != Raises && ReportsOn(o, es, p)
    ensures Pass(o.orderId, Records(es), k).pending == map[]
  {
    var n := if EndingOf(o).AbortsAfter? then |es| - 1 else |es|;
    assert es[..|es|] == es;
    if k <= n {
      StepsApply(o, es, n, k);
    } else {
      PlanAlone(o, es, p);
    }
  }

  lemma {:induction false} PlanAlone(o: Order, es: seq<Event>, p: PlanOutcome)
    requires o.orderId.Uuid? && o.planId != ""
    requires Publishes(o, es) && EndingOf(o) != Raises && ReportsOn(o, es, p)
    ensures AsExpected(o, p, Pass(o.orderId, Records(es), |es|))
  {
    if EndingOf(o) == Completes {
      CompletePlan(o, es, p);
    } else {
      AbortedPlanOutcome(o, es, p);
    }
  }

  /** Nothing the agent publishes for an order comes after its OrderCompleted. */
  lemma {:induction false} CompletionIsLast(o: Order, es: seq<Event>, log: seq<Record>)
    requires Publishes(o, es) && Only(o.orderId, log) == Records(es)
    ensures NothingAfterCompleted(o.orderId, log)
  {
    forall a, b | Parsed(a) in log && Parsed(b) in log && IsStep(a) && IsStep(b)
      && a.orderId == b.orderId == o.orderId && a.planId == b.planId && a.eventType == OrderCompleted
      ensures SeqOf(b) <= SeqOf(a)
    {
      OnlyMembers(o.orderId, log, Parsed(a));
      OnlyMembers(o.orderId, log, Parsed(b));
      var i :| 0 <= i < |es| && Records(es)[i] == Parsed(a);
      var j :| 0 <= j < |es| && Records(es)[j] == Parsed(b);
    }
  }

  /**
   End to end: for every order and every simulated outcome, if the partition holds of this
   order exactly what one run of its plan published, in order, and a consumer has settled
   the partition - with any retries, crashes, restarts and sweeps, but none of its data
   rejected - then the store holds exactly what the outcome check computes from the plan's
   report.
   */
  lemma AgentToStore(c: Consumer, q: nat, o: Order, es: seq<Event>, p: PlanOutcome)
    requires o.orderId.Uuid? && o.planId != ""
    requires Publishes(o, es) && EndingOf(o) != Raises && ReportsOn(o, es, p)
    requires c.Valid() && q < |c.log| && KeptIn(c.log, o.orderId, q)
    requires Only(o.orderId, c.log[q]) == Records(es)
    requires NoneRefused(c.log, c.history, o.orderId)
    requires c.committed[q] == |c.log[q]| || (c.running && c.position[q] == |c.log[q]|)
    ensures AsExpected(o, p, View(c.store.Snapshot(), o.orderId))
  {
    CompletionIsLast(o, es, c.log[q]);
    PlanNeverBuffers(o, es, p, c.log[q]);
    WholePartitionInOrder(c, o.orderId, q);
    PassOfOnly(o.orderId, c.log[q]);
    PlanAlone(o, es, p);
  }

  /**
   The same, read off the order itself: what the store holds in the end about an order that
   the agent planned for, case by case.
   */
  lemma {:induction false} OrderToStore(c: Consumer, q: nat, o: Order, es: seq<Event>, p: PlanOutcome)
    requires o.orderId.Uuid? && o.planId != ""
    requires Publishes(o, es) && EndingOf(o) != Raises && ReportsOn(o, es, p)
    requires c.Valid() && q < |c.log| && KeptIn(c.log, o.orderId, q)
    requires Only(o.orderId, c.log[q]) == Records(es)
    requires NoneRefused(c.log, c.history, o.orderId)
    requires c.committed[q] == |c.log[q]| || (c.running && c.position[q] == |c.log[q]|)
    ensures var l := View(c.store.Snapshot(), o.orderId);
      var fits := o.items != [] && 0.0 < o.totalAmount <= 100000.00 && -0.01 <= Sum(o.items) - o.totalAmount <= 0.01;
      && l.pending == map[]
      && (!fits ==> l.row == Some(OrderRow(o.planId, "unknown", StatusAborted, None, 0)) && l.notes == [])
      && (fits && o.inventoryFails ==>
            && l.row == Some(OrderRow(o.planId, o.userId, StatusAborted, Some(o.totalAmount), 1))
            && TypesOf(l.notes) == [OrderCreated, AbortPlan])
      && (fits && !o.inventoryFails && o.paymentFails ==>
            && l.row == Some(OrderRow(o.planId, o.userId, StatusAborted, Some(o.totalAmount), 2))
            && TypesOf(l.notes) == [OrderCreated, InventoryValidated, AbortPlan])
      && (fits && !o.inventoryFails && !o.paymentFails ==>
            && l.row == Some(OrderRow(o.planId, o.userId, StatusCompleted, Some(o.totalAmount), 5))
            && TypesOf(l.notes) == [OrderCreated, InventoryValidated, PaymentProcessed, OrderShipped, OrderCompleted])
  {
    AgentToStore(c, q, o, es, p);
    PublishedMeans(o, es);
    ReportMeans(o, es, p);
  }
}

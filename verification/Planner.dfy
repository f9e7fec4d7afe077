/** The agent: the plan graph decides step by step, and the runner publishes each event once. */
module Planner {
  import opened Models

  datatype Item = Item(productId: string, quantity: int, unitPrice: real)

  /** An order to plan for; the two simulated failures are inputs. */
  datatype Order = Order(
    orderId: OrderId, planId: PlanId, userId: string,
    items: seq<Item>, totalAmount: real,
    inventoryFails: bool, paymentFails: bool)

  datatype PlanStatus = Planning | Publishing | Aborted

  datatype PlanState = PlanState(
    order: Order, currentSeq: nat, events: seq<Event>, status: PlanStatus, abortReason: string)

  datatype Node =
    | GeneratePlan
    | CreateOrder
    | CreateInventory
    | CreatePayment
    | CreateShipping
    | CreateCompletion
    | AbortNode

  /** A node returns the updated state, or its payload fails validation and it raises. */
  datatype Stepped = Value(state: PlanState) | Raised

  const ORDER_MAX_AMOUNT := 100000.00

  function Total(items: seq<Item>): real {
    if items == [] then 0.0
    else Total(items[..|items| - 1]) + items[|items| - 1].quantity as real * items[|items| - 1].unitPrice
  }

  function Abs(x: real): real {
    if x < 0.0 then -x else x
  }

  /** Why `generate_plan` refuses the order. */
  function Refusal(o: Order): Option<string> {
    if o.items == [] then Some("items_empty")
    else if o.totalAmount <= 0.0 then Some("invalid_amount")
    else if o.totalAmount > ORDER_MAX_AMOUNT then Some("amount_exceeds_limit")
    else if Abs(Total(o.items) - o.totalAmount) > 0.01 then Some("amount_mismatch")
    else None
  }

  /** What OrderCreatedData demands of each item; the plan checks do not. */
  predicate PayloadValid(o: Order) {
    forall i | 0 <= i < |o.items| :: 1 <= o.items[i].quantity && 0.0 <= o.items[i].unitPrice
  }

  function Envelope(s: PlanState, id: string, t: EventType, seqId: Option<int>): Event {
    Event(id, t, s.order.planId, seqId, s.order.orderId, None, None)
  }

  /** The node that creates the next numbered event. */
  function Created(s: PlanState, e: Event): PlanState {
    s.(currentSeq := s.currentSeq + 1, events := s.events + [e])
  }

  function Execute(node: Node, s: PlanState, id: string): Stepped {
    var seqId := Some(s.currentSeq + 1);
    match node
    case GeneratePlan =>
      (match Refusal(s.order)
       case Some(reason) => Value(s.(status := Aborted, abortReason := reason))
       case None => Value(s.(status := Planning, currentSeq := 0, events := [])))
    case CreateOrder =>
      if PayloadValid(s.order) then
        var e := Envelope(s, id, OrderCreated, seqId);
        Value(Created(s, e.(userId := Some(s.order.userId), totalAmount := Some(s.order.totalAmount))))
      else Raised
    case CreateInventory =>
      if s.order.inventoryFails then Value(s.(status := Aborted, abortReason := "inventory_failed"))
      else Value(Created(s, Envelope(s, id, InventoryValidated, seqId)))
    case CreatePayment =>
      if s.order.paymentFails then Value(s.(status := Aborted, abortReason := "payment_rejected"))
      else Value(Created(s, Envelope(s, id, PaymentProcessed, seqId)))
    case CreateShipping => Value(Created(s, Envelope(s, id, OrderShipped, seqId)))
    case CreateCompletion => Value(Created(s, Envelope(s, id, OrderCompleted, seqId)).(status := Publishing))
    case AbortNode => Value(s.(events := s.events + [Envelope(s, id, AbortPlan, None)], status := Aborted))
  }

  /** `_abort_or` and the edge table; None is END. */
  function NextNode(node: Node, s: PlanState): Option<Node> {
    match node
    case GeneratePlan => Some(if s.status == Aborted then AbortNode else CreateOrder)
    case CreateOrder => Some(CreateInventory)
    case CreateInventory => Some(if s.status == Aborted then AbortNode else CreatePayment)
    case CreatePayment => Some(if s.status == Aborted then AbortNode else CreateShipping)
    case CreateShipping => Some(CreateCompletion)
    case CreateCompletion => None
    case AbortNode => None
  }

  datatype PlanOutcome = PlanOutcome(
    orderId: OrderId, planId: PlanId, completed: bool, abortReason: string,
    events: seq<EventType>, lastSeq: int)

  datatype Report = Reported(outcome: PlanOutcome) | Crashed

  /* ----- what a plan publishes ----- */

  /** How the plan of an order ends, read off the order. */
  datatype Ending = Completes | AbortsAfter(steps: nat, reason: string) | Raises

  function EndingOf(o: Order): Ending {
    if Refusal(o).Some? then AbortsAfter(0, Refusal(o).value)
    else if !PayloadValid(o) then Raises
    else if o.inventoryFails then AbortsAfter(1, "inventory_failed")
    else if o.paymentFails then AbortsAfter(2, "payment_rejected")
    else Completes
  }

  const KINDS: seq<EventType> := [OrderCreated, InventoryValidated, PaymentProcessed, OrderShipped, OrderCompleted]

  predicate IsNth(o: Order, e: Event, i: int)
    requires 0 <= i < |KINDS|
  {
    && e.eventType == KINDS[i] && e.planId == o.planId && e.orderId == o.orderId && e.seqId == Some(i + 1)
    && e.userId == (if i == 0 then Some(o.userId) else None)
    && e.totalAmount == (if i == 0 then Some(o.totalAmount) else None)
  }

  /** Events 1, 2, .. of the plan, in the order of the kinds. */
  predicate FirstSteps(o: Order, es: seq<Event>) {
    |es| <= |KINDS| && forall i | 0 <= i < |es| :: IsNth(o, es[i], i)
  }

  predicate IsAbortOf(o: Order, e: Event) {
    && e.eventType == AbortPlan && e.planId == o.planId && e.orderId == o.orderId && e.seqId.None?
    && e.userId.None? && e.totalAmount.None?
  }

  /** All five steps, or the first few and an abort. */
  predicate Publishes(o: Order, es: seq<Event>) {
    match EndingOf(o)
    case Completes => |es| == |KINDS| && FirstSteps(o, es)
    case AbortsAfter(n, _) => |es| == n + 1 && FirstSteps(o, es[..n]) && IsAbortOf(o, es[n])
    case Raises => es == []
  }

  function TypesOf(es: seq<Event>): (ts: seq<EventType>)
    ensures |ts| == |es| && forall i | 0 <= i < |es| :: ts[i] == es[i].eventType
  {
    seq(|es|, i requires 0 <= i < |es| => es[i].eventType)
  }

  /** Where the plan stands before `node`: so many steps created, or an abort due. */
  ghost predicate Before(o: Order, node: Node, s: PlanState) {
    && s.order == o && FirstSteps(o, s.events) && s.currentSeq == |s.events|
    && match node
       case GeneratePlan => s.events == [] && s.status == Planning
       case AbortNode => s.status == Aborted && EndingOf(o) == AbortsAfter(|s.events|, s.abortReason)
       case _ =>
         && s.status == Planning && Refusal(o).None?
         && |s.events| == (match node
                           case CreateOrder => 0
                           case CreateInventory => 1
                           case CreatePayment => 2
                           case CreateShipping => 3
                           case _ => 4)
         && (1 <= |s.events| ==> PayloadValid(o))
         && (2 <= |s.events| ==> !o.inventoryFails)
         && (3 <= |s.events| ==> !o.paymentFails)
  }

  /** The state at END tells how the plan ended. */
  ghost predicate Ended(o: Order, s: PlanState) {
    && Publishes(o, s.events)
    && match EndingOf(o)
       case Completes => s.status != Aborted
       case AbortsAfter(_, reason) => s.status == Aborted && s.abortReason == reason
       case Raises => false
  }

  /** What a node does, and where that leaves the plan. */
  lemma NodeMovesOn(o: Order, node: Node, s: PlanState, id: string)
    requires Before(o, node, s)
    ensures var r := Execute(node, s, id);
      if r.Raised? then EndingOf(o) == Raises && s.events == []
      else
        && s.events <= r.state.events
        && (r.state.events != s.events ==>
              |r.state.events| == |s.events| + 1 && r.state.events[|s.events|].eventId == id
              && |s.events| < EventCount(o))
        && match NextNode(node, r.state)
           case Some(next) => Before(o, next, r.state)
           case None => Ended(o, r.state)
  {
  }

  function Left(node: Option<Node>): nat {
    match node
    case None => 0
    case Some(GeneratePlan) => 7
    case Some(CreateOrder) => 6
    case Some(CreateInventory) => 5
    case Some(CreatePayment) => 4
    case Some(CreateShipping) => 3
    case Some(CreateCompletion) => 2
    case Some(AbortNode) => 1
  }

  /** `max((e.get("seq_id") or 0 for e in published), default=0)`. */
  function LastSeqOf(es: seq<Event>): int {
    if es == [] then 0
    else
      var m, last := LastSeqOf(es[..|es| - 1]), es[|es| - 1];
      var n := if last.seqId.Some? then last.seqId.value else 0;
      if n < m then m else n
  }

  lemma {:induction false} LastSeqOfSteps(o: Order, es: seq<Event>)
    requires FirstSteps(o, es)
    ensures LastSeqOf(es) == |es|
  {
    if es != [] {
      LastSeqOfSteps(o, es[..|es| - 1]);
      assert IsNth(o, es[|es| - 1], |es| - 1);
    }
  }

  /** The report tells how the plan ended, and what it published. */
  predicate ReportsOn(o: Order, published: seq<Event>, p: PlanOutcome) {
    && p.orderId == o.orderId && p.planId == o.planId
    && (p.completed <==> EndingOf(o) == Completes)
    && p.abortReason == (if EndingOf(o).AbortsAfter? then EndingOf(o).reason else "")
    && p.events == TypesOf(published)
    && p.lastSeq == LastSeqOf(published)
  }

  /** How many events the plan publishes. */
  function EventCount(o: Order): nat {
    match EndingOf(o)
    case Completes => |KINDS|
    case AbortsAfter(n, _) => n + 1
    case Raises => 0
  }

  /* ----- what the report says about the order ----- */

  /** What the items cost together, from the first one on. */
  function Sum(items: seq<Item>): real {
    if items == [] then 0.0 else items[0].quantity as real * items[0].unitPrice + Sum(items[1..])
  }

  lemma {:induction false} SumOfBoth(a: seq<Item>, b: seq<Item>)
    ensures Sum(a + b) == Sum(a) + Sum(b)
  {
    if a == [] {
      assert a + b == b;
    } else {
      assert (a + b)[1..] == a[1..] + b;
      SumOfBoth(a[1..], b);
    }
  }

  lemma {:induction false} TotalIsSum(items: seq<Item>)
    ensures Total(items) == Sum(items)
  {
    if items != [] {
      var front, last := items[..|items| - 1], items[|items| - 1];
      TotalIsSum(front);
      SumOfBoth(front, [last]);
      assert items == front + [last] && [last][1..] == [];
    }
  }

  /** The order passes the checks of the plan: it has items, and its amount is positive, allowed, and theirs. */
  ghost predicate Fits(o: Order) {
    && o.items != []
    && 0.0 < o.totalAmount <= 100000.00
    && -0.01 <= Sum(o.items) - o.totalAmount <= 0.01
  }

  /** The first check that fails gives the reason. */
  lemma RefusalMeans(o: Order)
    ensures Refusal(o).None? <==>
            o.items != [] && 0.0 < o.totalAmount <= 100000.00 && -0.01 <= Sum(o.items) - o.totalAmount <= 0.01
    ensures Refusal(o).None? <==> Fits(o)
    ensures Refusal(o) == Some("items_empty") <==> o.items == []
    ensures Refusal(o) == Some("invalid_amount") <==> o.items != [] && o.totalAmount <= 0.0
    ensures Refusal(o) == Some("amount_exceeds_limit") <==> o.items != [] && 100000.00 < o.totalAmount
    ensures Refusal(o) == Some("amount_mismatch") <==>
            o.items != [] && 0.0 < o.totalAmount <= 100000.00
            && (Sum(o.items) - o.totalAmount < -0.01 || 0.01 < Sum(o.items) - o.totalAmount)
  {
    TotalIsSum(o.items);
  }

  lemma TypesOfSteps(o: Order, es: seq<Event>, n: nat)
    requires n <= |es| && FirstSteps(o, es[..n])
    ensures TypesOf(es)[..n] == KINDS[..n]
  {
    forall i | 0 <= i < n ensures TypesOf(es)[i] == KINDS[i] {
      assert IsNth(o, es[..n][i], i);
    }
  }

  /** What was published, and how far it got, read off the order. */
  lemma {:induction false} PublishedMeans(o: Order, published: seq<Event>)
    requires EndingOf(o) != Raises && Publishes(o, published)
    ensures var fits, types, last := Fits(o), TypesOf(published), LastSeqOf(published);
      && (!fits ==> types == [AbortPlan] && last == 0)
      && (fits && o.inventoryFails ==> types == [OrderCreated, AbortPlan] && last == 1)
      && (fits && !o.inventoryFails && o.paymentFails ==>
            types == [OrderCreated, InventoryValidated, AbortPlan] && last == 2)
      && (fits && !o.inventoryFails && !o.paymentFails ==>
            types == [OrderCreated, InventoryValidated, PaymentProcessed, OrderShipped, OrderCompleted] && last == 5)
  {
    RefusalMeans(o);
    var n := if EndingOf(o) == Completes then |published| else |published| - 1;
    TypesOfSteps(o, published, n);
    LastSeqOfSteps(o, published[..n]);
    assert published[..|published|] == published;
  }

  /** Why the plan ended, read off the order; and when it raises. */
  lemma EndingMeans(o: Order)
    ensures var fits, ending := Fits(o), EndingOf(o);
      && (ending == Completes ==> fits && !o.inventoryFails && !o.paymentFails)
      && (ending == Raises <==> fits && exists item :: item in o.items && (item.quantity < 1 || item.unitPrice < 0.0))
      && (ending.AbortsAfter? ==>
            if !fits then Refusal(o) == Some(ending.reason)
            else if o.inventoryFails then ending.reason == "inventory_failed"
            else o.paymentFails && ending.reason == "payment_rejected")
  {
    RefusalMeans(o);
    if !PayloadValid(o) {
      var i :| 0 <= i < |o.items| && !(1 <= o.items[i].quantity && 0.0 <= o.items[i].unitPrice);
      assert o.items[i] in o.items;
    }
  }

  /** Some orders pass every check of the plan and still raise: a second item, of quantity 0. */
  lemma SomePlansRaise(id: OrderId, plan: PlanId) returns (o: Order)
    ensures o.orderId == id && o.planId == plan && Refusal(o).None? && EndingOf(o) == Raises
  {
    var items := [Item("a", 1, 10.0), Item("b", 0, 5.0)];
    o := Order(id, plan, "u", items, 10.0, false, false);
    assert items[..1][..0] == [] && items[..1] == [items[0]];
    assert Total(items[..1]) == Total([]) + 10.0;
    assert !PayloadValid(o) by {
      assert o.items[1].quantity == 0;
    }
  }

  /** The broker confirms every publish, or the one after `confirmed` others fails. */
  predicate Fails(confirmed: Option<nat>, k: nat) {
    confirmed == Some(k)
  }

  /** Publishes the events that are new since the last step, until one is not confirmed. */
  method PublishNew(before: seq<Event>, events: seq<Event>, confirmed: Option<nat>)
    returns (published: seq<Event>, ok: bool)
    requires before <= events && (confirmed.Some? ==> |before| <= confirmed.value)
    ensures before <= published <= events
    ensures ok ==> published == events && (confirmed.Some? ==> |events| <= confirmed.value)
    ensures !ok ==> Fails(confirmed, |published|) && |published| < |events|
  {
    published := before;
    for k := |before| to |events|
      invariant published == events[..k] && (confirmed.Some? ==> k <= confirmed.value)
    {
      if Fails(confirmed, k) {
        ok := false;
        return;
      }
      published := published + [events[k]];
    }
    ok := true;
  }

  /** What a run that did not get to its report has published: the first steps, in order, and no more. */
  ghost predicate CutShort(o: Order, published: seq<Event>, confirmed: Option<nat>) {
    && FirstSteps(o, published)
    && if EndingOf(o) == Raises then published == [] else Fails(confirmed, |published|)
  }

  /** Each event carries the id drawn by the node that made it; `used` tells which node that was. */
  ghost predicate Named(events: seq<Event>, ids: nat -> string, used: seq<nat>, n: nat) {
    && |used| == |events|
    && (forall k | 0 <= k < |used| :: used[k] < n && events[k].eventId == ids(used[k]))
    && forall j, k | 0 <= j < k < |used| :: used[j] < used[k]
  }

  lemma NamedOneMore(
    events: seq<Event>, more: seq<Event>, ids: nat -> string, used: seq<nat>, n: nat) returns (used': seq<nat>)
    requires Named(events, ids, used, n) && events <= more
    requires more != events ==> |more| == |events| + 1 && more[|events|].eventId == ids(n)
    ensures Named(more, ids, used', n + 1)
  {
    used' := if more == events then used else used + [n];
  }

  ghost predicate DifferentIds(events: seq<Event>) {
    forall j, k | 0 <= j < k < |events| :: events[j].eventId != events[k].eventId
  }

  lemma NamedAreDifferent(events: seq<Event>, published: seq<Event>, ids: nat -> string, used: seq<nat>, n: nat)
    requires Named(events, ids, used, n) && published <= events
    ensures (forall i, j | i != j :: ids(i) != ids(j)) ==> DifferentIds(published)
  {
  }

  method ExecuteNode(ghost o: Order, node: Node, s: PlanState, id: string) returns (r: Stepped)
    requires Before(o, node, s)
    ensures r.Raised? ==> EndingOf(o) == Raises && s.events == []
    ensures r.Value? ==>
              && s.events <= r.state.events
              && (r.state.events != s.events ==>
                    |r.state.events| == |s.events| + 1 && r.state.events[|s.events|].eventId == id
                    && |s.events| < EventCount(o))
              && match NextNode(node, r.state)
                 case Some(next) => Before(o, next, r.state) && Left(Some(next)) < Left(Some(node))
                 case None => Ended(o, r.state)
  {
    NodeMovesOn(o, node, s, id);
    r := Execute(node, s, id);
  }

  /** Runs the graph and publishes each new event as soon as a node has produced it; None if that is cut short. */
  method StreamPlan(o: Order, ids: nat -> string, confirmed: Option<nat>)
    returns (published: seq<Event>, final: Option<PlanState>)
    ensures final.None? <==> EndingOf(o) == Raises || (confirmed.Some? && confirmed.value < EventCount(o))
    ensures final.None? ==> CutShort(o, published, confirmed)
    ensures final.Some? ==> Ended(o, final.value) && published == final.value.events
    ensures (forall i, j | i != j :: ids(i) != ids(j)) ==> DifferentIds(published)
  {
    var state := PlanState(o, 0, [], Planning, "");
    var node := Some(GeneratePlan);
    var n := 0;
    ghost var used := [];
    published := [];
    while node.Some?
      invariant published == state.events && Named(published, ids, used, n)
      invariant confirmed.Some? ==> |published| <= confirmed.value
      invariant node.Some? ==> Before(o, node.value, state)
      invariant node.None? ==> Ended(o, state)
      decreases Left(node)
    {
      var stepped := ExecuteNode(o, node.value, state, ids(n));
      match stepped {
        case Raised =>
          final := None;
          return;
        case Value(values) =>
          used := NamedOneMore(state.events, values.events, ids, used, n);
          var ok;
          published, ok := PublishNew(published, values.events, confirmed);
          if !ok {
            assert published == state.events;
            NamedAreDifferent(values.events, published, ids, used, n + 1);
            final := None;
            return;
          }
          node, state, n := NextNode(node.value, values), values, n + 1;
      }
    }
    NamedAreDifferent(published, published, ids, used, n);
    final := Some(state);
  }

  /** The report tells how the plan ended, and why, read off the order. */
  lemma ReportMeans(o: Order, published: seq<Event>, p: PlanOutcome)
    requires EndingOf(o) != Raises && Publishes(o, published) && ReportsOn(o, published, p)
    ensures var sum := Sum(o.items);
      var fits := o.items != [] && 0.0 < o.totalAmount <= 100000.00 && -0.01 <= sum - o.totalAmount <= 0.01;
      && (p.completed <==> fits && !o.inventoryFails && !o.paymentFails)
      && (p.abortReason == "items_empty" <==> o.items == [])
      && (p.abortReason == "invalid_amount" <==> o.items != [] && o.totalAmount <= 0.0)
      && (p.abortReason == "amount_exceeds_limit" <==> o.items != [] && 100000.00 < o.totalAmount)
      && (p.abortReason == "amount_mismatch" <==>
            o.items != [] && 0.0 < o.totalAmount <= 100000.00 && !(-0.01 <= sum - o.totalAmount <= 0.01))
      && (p.abortReason == "inventory_failed" <==> fits && o.inventoryFails)
      && (p.abortReason == "payment_rejected" <==> fits && !o.inventoryFails && o.paymentFails)
  {
    RefusalMeans(o);
    EndingMeans(o);
  }

  /**
   Publishes the events of the plan, each one once, and reports; a publish that is not
   confirmed ends the run. `ids` are the random event ids.
   */
  method RunPlan(o: Order, ids: nat -> string, confirmed: Option<nat>)
    returns (published: seq<Event>, report: Report)
    ensures report.Crashed? <==> EndingOf(o) == Raises || (confirmed.Some? && confirmed.value < EventCount(o))
    ensures report.Crashed? ==> CutShort(o, published, confirmed)
    ensures report.Reported? ==> Publishes(o, published) && ReportsOn(o, published, report.outcome)
    ensures report.Reported? && report.outcome.completed ==>
              && o.items != [] && 0.0 < o.totalAmount <= 100000.00 && -0.01 <= Sum(o.items) - o.totalAmount <= 0.01
              && !o.inventoryFails && !o.paymentFails
    ensures (forall i, j | i != j :: ids(i) != ids(j)) ==> DifferentIds(published)
  {
    var final;
    published, final := StreamPlan(o, ids, confirmed);
    if final.None? {
      report := Crashed;
    } else {
      var aborted := final.value.status == Aborted;
      var reason := if aborted then final.value.abortReason else "";
      report := Reported(PlanOutcome(
        o.orderId, o.planId, !aborted, reason, TypesOf(published), LastSeqOf(published)));
      ReportMeans(o, published, report.outcome);
    }
  }
}

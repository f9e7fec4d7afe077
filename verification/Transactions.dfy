/**
 What the store's transactions do to the tables, and the proof that each order sees of
 it exactly what the ledger of that order prescribes. `pos` is the first outbox position
 that the transaction draws, `now` its time.
 */
module Transactions {
  import opened Models
  import opened Sequencing
  import opened Ledger
  import opened Tables

  /** Upserts the order and notifies. */
  function Upserted(t: Tables, e: Step, pos: nat, now: int): Tables {
    Exec(Exec(t, PutOrder(e.orderId, Written(RowIn(t, e.orderId), e))), Append(FreshRow(pos, e, now)))
  }

  function Taken(t: Tables, k: PendingKey, pos: nat, now: int): Tables
    requires k in t.pending
  {
    Upserted(Exec(t, DeletePending({k})), t.pending[k].event, pos, now)
  }

  function DrainedTables(t: Tables, o: OrderId, plan: PlanId, next: int, pos: nat, now: int): Tables
    decreases t.pending.Keys
  {
    var k := PendingKey(o, plan, next);
    if k in t.pending then DrainedTables(Taken(t, k, pos, now), o, plan, next + 1, pos + 1, now) else t
  }

  function DeliveredTables(t: Tables, e: Step, pos: nat, now: int): Tables {
    match Decide(StateOf(View(t, e.orderId)), e.planId, SeqOf(e))
    case Apply => DrainedTables(Upserted(t, e, pos, now), e.orderId, e.planId, SeqOf(e) + 1, pos + 1, now)
    case Buffer => if KeyOf(e) in t.pending then t else Exec(t, PutPending(KeyOf(e), PendingRow(e, now)))
    case _ => t
  }

  function PlanKeys(p: map<PendingKey, PendingRow>, o: OrderId, plan: PlanId): set<PendingKey> {
    set k | k in p && k.orderId == o && k.planId == plan
  }

  function AbortedTables(t: Tables, e: Abort, pos: nat, now: int): Tables {
    var gone := DeletePending(PlanKeys(t.pending, e.orderId, e.planId));
    match DecideAbort(StateOf(View(t, e.orderId)), e.planId)
    case Apply =>
      var row := RowIn(t, e.orderId).value.(status := StatusAborted);
      Exec(Exec(Exec(t, PutOrder(e.orderId, row)), Append(FreshRow(pos, e, now))), gone)
    case Tombstone =>
      Exec(Exec(t, PutOrder(e.orderId, OrderRow(e.planId, UserOf(e), StatusAborted, None, 0))), gone)
    case _ => t
  }

  /* ----- each order's view ----- */

  lemma ViewOfUpserted(t: Tables, e: Step, pos: nat, now: int, p: OrderId)
    ensures View(Upserted(t, e, pos, now), p) ==
            if p == e.orderId then ApplyOne(View(t, p), e) else View(t, p)
  {
    var put := PutOrder(e.orderId, Written(RowIn(t, e.orderId), e));
    ViewOfExec(t, put, p);
    ViewOfExec(Exec(t, put), Append(FreshRow(pos, e, now)), p);
  }

  /** The buffer of order `o` is keyed by what it holds. */
  ghost predicate KeyedFor(t: Tables, o: OrderId) {
    forall k | k in t.pending && k.orderId == o :: KeyOf(t.pending[k].event) == k
  }

  lemma ViewOfTaken(t: Tables, k: PendingKey, pos: nat, now: int, p: OrderId)
    requires k in t.pending && KeyOf(t.pending[k].event) == k
    ensures p == k.orderId ==> k in View(t, p).pending
    ensures View(Taken(t, k, pos, now), p) == if p == k.orderId then TakeOne(View(t, p), k) else View(t, p)
  {
    ViewOfExec(t, DeletePending({k}), p);
    ViewOfUpserted(Exec(t, DeletePending({k})), t.pending[k].event, pos, now, p);
    if p != k.orderId {
      assert View(t, p).pending - {k} == View(t, p).pending;
    }
  }

  lemma {:induction false} ViewOfDrained(t: Tables, o: OrderId, plan: PlanId, next: int, pos: nat, now: int, p: OrderId)
    requires KeyedFor(t, o)
    ensures View(DrainedTables(t, o, plan, next, pos, now), p) ==
            if p == o then Drain(View(t, p), o, plan, next) else View(t, p)
    decreases t.pending.Keys
  {
    var k := PendingKey(o, plan, next);
    if k in t.pending {
      var u := Taken(t, k, pos, now);
      ViewOfTaken(t, k, pos, now, p);
      TakenGoesOn(t, o, plan, next, pos, now);
      ViewOfDrained(u, o, plan, next + 1, pos + 1, now, p);
      if p == o {
        DrainTakes(View(t, p), o, plan, next);
      }
    }
  }

  /** One round of a drain: what is left is a drain of the rest, with one row more in the outbox. */
  lemma TakenGoesOn(t: Tables, o: OrderId, plan: PlanId, next: int, pos: nat, now: int)
    requires KeyedFor(t, o) && PendingKey(o, plan, next) in t.pending
    ensures var u := Taken(t, PendingKey(o, plan, next), pos, now);
      && o in u.orders && KeyedFor(u, o) && |u.outbox| == |t.outbox| + 1
      && u.pending == t.pending - {PendingKey(o, plan, next)}
      && DrainedTables(t, o, plan, next, pos, now) == DrainedTables(u, o, plan, next + 1, pos + 1, now)
  {
  }

  lemma KeyedIsKeyedFor(t: Tables, o: OrderId)
    requires Keyed(o, View(t, o).pending)
    ensures KeyedFor(t, o)
  {
  }

  lemma ViewOfApplied(t: Tables, e: Step, pos: nat, now: int, p: OrderId)
    requires KeyedFor(t, e.orderId)
    requires Decide(StateOf(View(t, e.orderId)), e.planId, SeqOf(e)) == Apply
    ensures View(DeliveredTables(t, e, pos, now), p) ==
            if p == e.orderId then DeliverStep(View(t, p), e) else View(t, p)
  {
    ViewOfUpserted(t, e, pos, now, p);
    ViewOfDrained(Upserted(t, e, pos, now), e.orderId, e.planId, SeqOf(e) + 1, pos + 1, now, p);
  }

  lemma ViewOfBuffered(t: Tables, e: Step, now: int, p: OrderId)
    ensures KeyOf(e) in t.pending <==> KeyOf(e) in View(t, e.orderId).pending
    ensures View(Exec(t, PutPending(KeyOf(e), PendingRow(e, now))), p) ==
            if p == e.orderId then View(t, p).(pending := View(t, p).pending[KeyOf(e) := e]) else View(t, p)
  {
    ViewOfExec(t, PutPending(KeyOf(e), PendingRow(e, now)), p);
  }

  /** Refinement: the transaction on the tables is the ledger's step for its order and nothing for the others. */
  lemma ViewOfDelivered(t: Tables, e: Step, pos: nat, now: int, p: OrderId)
    requires Keyed(e.orderId, View(t, e.orderId).pending)
    ensures View(DeliveredTables(t, e, pos, now), p) ==
            if p == e.orderId then DeliverStep(View(t, p), e) else View(t, p)
  {
    var d := Decide(StateOf(View(t, e.orderId)), e.planId, SeqOf(e));
    if d == Apply {
      KeyedIsKeyedFor(t, e.orderId);
      ViewOfApplied(t, e, pos, now, p);
    } else {
      ViewOfBuffered(t, e, now, p);
    }
  }

  lemma ViewOfDiscarded(t: Tables, o: OrderId, plan: PlanId, p: OrderId)
    ensures View(t, p).pending - PlanKeys(t.pending, o, plan) ==
            if p == o then DropPlan(View(t, p).pending, o, plan) else View(t, p).pending
  {
  }

  lemma ViewOfAborted(t: Tables, e: Abort, pos: nat, now: int, p: OrderId)
    ensures View(AbortedTables(t, e, pos, now), p) ==
            if p == e.orderId then DeliverAbort(View(t, p), e) else View(t, p)
  {
    var gone := DeletePending(PlanKeys(t.pending, e.orderId, e.planId));
    ViewOfDiscarded(t, e.orderId, e.planId, p);
    match DecideAbort(StateOf(View(t, e.orderId)), e.planId)
    case Apply =>
      var a := PutOrder(e.orderId, RowIn(t, e.orderId).value.(status := StatusAborted));
      var b := Append(FreshRow(pos, e, now));
      ViewOfExec(t, a, p);
      ViewOfExec(Exec(t, a), b, p);
      ViewOfExec(Exec(Exec(t, a), b), gone, p);
    case Tombstone =>
      var a := PutOrder(e.orderId, OrderRow(e.planId, UserOf(e), StatusAborted, None, 0));
      ViewOfExec(t, a, p);
      ViewOfExec(Exec(t, a), gone, p);
    case _ =>
  }

  /* ----- what a delivery reports, and the rows it leaves ----- */

  /** The outbox rows a transaction added: undelivered, with consecutive positions from `from` on. */
  ghost predicate Grown(before: seq<OutboxRow>, after: seq<OutboxRow>, from: nat, now: int) {
    && before <= after
    && forall i | |before| <= i < |after| ::
         after[i] == FreshRow(from + i - |before|, after[i].event, now)
  }

  /** The drain moves the row by as many seqs as it adds notifications. */
  lemma {:induction false} DrainReport(t: Tables, o: OrderId, plan: PlanId, next: int, pos: nat, now: int)
    requires KeyedFor(t, o) && o in t.orders && t.orders[o].lastSeq == next - 1
    ensures var t' := DrainedTables(t, o, plan, next, pos, now);
      && |t.outbox| <= |t'.outbox|
      && o in t'.orders && t'.orders[o].lastSeq == next - 1 + |t'.outbox| - |t.outbox|
      && Grown(t.outbox, t'.outbox, pos, now)
      && (forall k | k in t'.pending :: k in t.pending && t'.pending[k] == t.pending[k])
    decreases t.pending.Keys
  {
    var k := PendingKey(o, plan, next);
    if k in t.pending {
      var u := Taken(t, k, pos, now);
      assert u.outbox == t.outbox + [FreshRow(pos, t.pending[k].event, now)];
      DrainReport(u, o, plan, next + 1, pos + 1, now);
      var t' := DrainedTables(u, o, plan, next + 1, pos + 1, now);
      assert t'.outbox[|t.outbox|] == u.outbox[|t.outbox|];
    }
  }

  lemma {:induction false} AppliedReport(t: Tables, e: Step, pos: nat, now: int)
    requires KeyedFor(t, e.orderId)
    ensures var t' := DrainedTables(Upserted(t, e, pos, now), e.orderId, e.planId, SeqOf(e) + 1, pos + 1, now);
      && Grown(t.outbox, t'.outbox, pos, now)
      && e.orderId in t'.orders && t'.orders[e.orderId].lastSeq == SeqOf(e) + |t'.outbox| - |t.outbox| - 1
      && (forall k | k in t'.pending :: k in t.pending && t'.pending[k] == t.pending[k])
  {
    var u := Upserted(t, e, pos, now);
    assert u.outbox == t.outbox + [FreshRow(pos, e, now)];
    DrainReport(u, e.orderId, e.planId, SeqOf(e) + 1, pos + 1, now);
    var t' := DrainedTables(u, e.orderId, e.planId, SeqOf(e) + 1, pos + 1, now);
    assert t'.outbox[|t.outbox|] == u.outbox[|t.outbox|];
  }

  lemma {:induction false} DeliveredApplies(t: Tables, e: Step, pos: nat, now: int)
    requires Decide(StateOf(View(t, e.orderId)), e.planId, SeqOf(e)) == Apply
    ensures DeliveredTables(t, e, pos, now) ==
            DrainedTables(Upserted(t, e, pos, now), e.orderId, e.planId, SeqOf(e) + 1, pos + 1, now)
  {
  }

  /**
   `LastSeq` of the result is the order's last applied seq once the transaction commits;
   the outbox only grows, and what stays buffered keeps the row it had.
   */
  lemma DeliveryReport(t: Tables, e: Step, pos: nat, now: int)
    requires KeyedFor(t, e.orderId)
    ensures var t', applied := DeliveredTables(t, e, pos, now),
                               Decide(StateOf(View(t, e.orderId)), e.planId, SeqOf(e)) == Apply;
      && Grown(t.outbox, t'.outbox, pos, now)
      && (applied ==> e.orderId in t'.orders && t'.orders[e.orderId].lastSeq == SeqOf(e) + |t'.outbox| - |t.outbox| - 1)
      && (!applied ==> t'.orders == t.orders && t'.outbox == t.outbox)
      && (forall k | k in t'.pending ::
            (k in t.pending && t'.pending[k] == t.pending[k])
            || (k == KeyOf(e) && k !in t.pending && t'.pending[k] == PendingRow(e, now)))
  {
    if Decide(StateOf(View(t, e.orderId)), e.planId, SeqOf(e)) == Apply {
      DeliveredApplies(t, e, pos, now);
      AppliedReport(t, e, pos, now);
    }
  }

  /**
   An abort that takes effect on a started order adds one undelivered notification, at the
   position drawn and due at once; no other abort adds any. It only takes rows out of the
   buffer, and those are its plan's.
   */
  lemma AbortReport(t: Tables, e: Abort, pos: nat, now: int)
    ensures var t' := AbortedTables(t, e, pos, now);
      && t'.outbox == (if DecideAbort(StateOf(View(t, e.orderId)), e.planId) == Apply
                       then t.outbox + [OutboxRow(pos, e, false, 0, now, None, false)] else t.outbox)
      && Grown(t.outbox, t'.outbox, pos, now)
      && (forall k | k in t'.pending :: k in t.pending && t'.pending[k] == t.pending[k])
      && (forall k | k in t.pending && k !in t'.pending :: k.orderId == e.orderId && k.planId == e.planId)
  {
  }

  ghost predicate AllGood(t: Tables) {
    forall o :: Good(o, View(t, o))
  }

  lemma GoodIsKeyed(t: Tables, o: OrderId)
    requires AllGood(t)
    ensures KeyedFor(t, o)
  {
    KeyedIsKeyedFor(t, o);
  }

  lemma DeliveredIsGood(t: Tables, e: Step, pos: nat, now: int)
    requires AllGood(t)
    ensures AllGood(DeliveredTables(t, e, pos, now))
    ensures forall p :: View(DeliveredTables(t, e, pos, now), p) ==
                        if p == e.orderId then DeliverStep(View(t, p), e) else View(t, p)
  {
    StepKeepsGood(e.orderId, View(t, e.orderId), e);
    forall p
      ensures View(DeliveredTables(t, e, pos, now), p) ==
              if p == e.orderId then DeliverStep(View(t, p), e) else View(t, p)
    {
      ViewOfDelivered(t, e, pos, now, p);
    }
  }

  lemma AbortedIsGood(t: Tables, e: Abort, pos: nat, now: int)
    requires AllGood(t)
    ensures AllGood(AbortedTables(t, e, pos, now))
    ensures forall p :: View(AbortedTables(t, e, pos, now), p) ==
                        if p == e.orderId then DeliverAbort(View(t, p), e) else View(t, p)
  {
    AbortKeepsGood(e.orderId, View(t, e.orderId), e);
    forall p
      ensures View(AbortedTables(t, e, pos, now), p) ==
              if p == e.orderId then DeliverAbort(View(t, p), e) else View(t, p)
    {
      ViewOfAborted(t, e, pos, now, p);
    }
  }

  lemma SweptIsGood(t: Tables, keys: set<PendingKey>)
    requires AllGood(t)
    ensures AllGood(Exec(t, DeletePending(keys)))
    ensures forall p :: View(Exec(t, DeletePending(keys)), p) == Expire(View(t, p), keys)
  {
    forall p ensures View(Exec(t, DeletePending(keys)), p) == Expire(View(t, p), keys) {
      ViewOfExec(t, DeletePending(keys), p);
    }
    forall p ensures Good(p, Expire(View(t, p), keys)) {
      PerformKeepsGood(p, View(t, p), Sweep(keys));
    }
  }
}

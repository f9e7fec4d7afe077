/**
 The Postgres repository. Each method is one transaction: SQL statements that update the
 tables one after the other, any of which may fail, and then the tables are as the
 transaction found them.
 */
module Repositories {
  import opened Models
  import opened Sequencing
  import opened Ledger
  import opened Tables
  import opened Transactions
  import opened Outbox

  /** IsPermanent: the database rejected the data itself (SQLSTATE class 22 or 23). */
  datatype StoreError = DataRejected | TransientFailure

  datatype Result<+T> = Ok(value: T) | Err(error: StoreError)

  datatype TxResult = TxResult(outcome: Outcome, lastSeq: int, drained: nat)

  class Repository {
    var orders: map<OrderId, OrderRow>
    var pending: map<PendingKey, PendingRow>
    var outbox: seq<OutboxRow>
    /** The identity counter of outbox.position; a rollback does not take it back. */
    var nextPosition: nat
    /** The environment: how many more statements succeed, and the kind of failure after them. */
    var failIn: Option<nat>
    var failure: StoreError

    ghost function Snapshot(): Tables
      reads this
    {
      Tables(orders, pending, outbox)
    }

    ghost function ViewOf(o: OrderId): Ledger
      reads this
    {
      View(Snapshot(), o)
    }

    /** Every order's ledger satisfies the ledger invariant, and outbox positions rise. */
    ghost predicate Valid()
      reads this
    {
      AllGood(Snapshot()) && Positioned(outbox, nextPosition)
    }

    constructor ()
      ensures Valid() && Snapshot() == EMPTY_TABLES && nextPosition == 0
    {
      orders, pending, outbox, nextPosition := map[], map[], [], 0;
      failIn, failure := None, TransientFailure;
      new;
      forall o ensures Good(o, View(Snapshot(), o)) {
        assert BufferOf(map[], o) == map[];
      }
    }

    /** Every SQL statement goes through here. */
    method Statement() returns (ok: bool)
      modifies this`failIn
      ensures old(failIn).None? ==> ok && failIn.None?
      ensures old(failIn) == Some(0) ==> !ok
    {
      ok := true;
      if failIn.Some? {
        if failIn.value == 0 {
          ok, failIn := false, None;
        } else {
          failIn := Some(failIn.value - 1);
        }
      }
    }

    /** Takes the order's advisory lock and reads its state. */
    method LockOrder(o: OrderId) returns (ok: bool, state: OrderState)
      modifies this`failIn
      ensures old(failIn).None? ==> ok && failIn.None?
      ensures ok ==> state == StateOf(ViewOf(o))
    {
      state := Missing;
      ok := Statement();
      if !ok {
        return;
      }
      ok := Statement();
      if o in orders {
        state := Existing(orders[o].planId, orders[o].lastSeq, orders[o].status);
      }
    }

    method InsertOutbox(e: Event, now: int) returns (ok: bool)
      modifies this`failIn, this`outbox, this`nextPosition
      ensures old(failIn).None? ==> ok && failIn.None?
      ensures ok ==> Snapshot() == Exec(old(Snapshot()), Append(FreshRow(old(nextPosition), e, now)))
      ensures nextPosition == old(nextPosition) + if ok then 1 else 0
    {
      ok := Statement();
      if ok {
        outbox := outbox + [FreshRow(nextPosition, e, now)];
        nextPosition := nextPosition + 1;
      }
    }

    /** `applyEvent`: writes the order and notifies. */
    method WriteEvent(orderExists: bool, e: Step, now: int) returns (ok: bool)
      requires orderExists <==> e.orderId in orders
      modifies this`failIn, this`orders, this`outbox, this`nextPosition
      ensures old(failIn).None? ==> ok && failIn.None?
      ensures ok ==> Snapshot() == Upserted(old(Snapshot()), e, old(nextPosition), now)
      ensures nextPosition == old(nextPosition) + if ok then 1 else 0
    {
      var status := StatusOf(e);
      ok := Statement();
      if !ok {
        return;
      }
      if orderExists {
        var r := orders[e.orderId];
        var total := if e.totalAmount.Some? then e.totalAmount else r.total;
        orders := orders[e.orderId := r.(status := status, total := total, lastSeq := SeqOf(e))];
      } else {
        orders := orders[e.orderId := OrderRow(e.planId, UserOf(e), status, e.totalAmount, SeqOf(e))];
      }
      ok := InsertOutbox(e, now);
    }

    /** Takes one row of the reorder buffer: `DELETE .. RETURNING payload`. */
    method TakePending(k: PendingKey) returns (ok: bool, found: Option<Step>)
      modifies this`failIn, this`pending
      ensures old(failIn).None? ==> ok && failIn.None?
      ensures ok ==> found == if k in old(pending) then Some(old(pending)[k].event) else None
      ensures ok ==> pending == old(pending) - {k}
    {
      found := None;
      ok := Statement();
      if ok {
        if k in pending {
          found := Some(pending[k].event);
        }
        pending := pending - {k};
      }
    }

    /** Applies the buffered event under `k`, if there is one. */
    method DrainOne(k: PendingKey, now: int) returns (ok: bool, found: bool)
      requires k in pending ==> k.orderId in orders && KeyOf(pending[k].event) == k
      modifies this`failIn, this`orders, this`pending, this`outbox, this`nextPosition
      ensures old(failIn).None? ==> ok && failIn.None?
      ensures ok ==> found == (k in old(pending))
      ensures ok ==> Snapshot() ==
                     if found then Taken(old(Snapshot()), k, old(nextPosition), now) else old(Snapshot())
      ensures nextPosition == old(nextPosition) + if ok && found then 1 else 0
    {
      ghost var t := Snapshot();
      found := false;
      var event: Option<Step>;
      ok, event := TakePending(k);
      if ok && event.Some? {
        found := true;
        assert Snapshot() == Exec(t, DeletePending({k}));
        ok := WriteEvent(true, event.value, now);
      } else {
        assert ok ==> Snapshot() == t;
      }
    }

    /** Applies the buffered events of the plan from `start` on, for as long as they are consecutive. */
    method DrainPending(o: OrderId, plan: PlanId, start: int, now: int) returns (ok: bool, drained: nat)
      requires o in orders && KeyedFor(Snapshot(), o)
      modifies this`failIn, this`orders, this`pending, this`outbox, this`nextPosition
      ensures old(failIn).None? ==> ok && failIn.None?
      ensures ok ==> Snapshot() == DrainedTables(old(Snapshot()), o, plan, start, old(nextPosition), now)
      ensures ok ==> |outbox| == |old(outbox)| + drained
      ensures nextPosition == old(nextPosition) + drained
    {
      drained := 0;
      var next := start;
      ghost var t := Snapshot();
      while true
        invariant old(failIn).None? ==> failIn.None?
        invariant t == Snapshot() && o in t.orders && KeyedFor(t, o)
        invariant next == start + drained && |t.outbox| == |old(outbox)| + drained
        invariant nextPosition == old(nextPosition) + drained
        invariant DrainedTables(t, o, plan, next, nextPosition, now) ==
                  DrainedTables(old(Snapshot()), o, plan, start, old(nextPosition), now)
        decreases t.pending.Keys
      {
        ghost var pos := nextPosition;
        var found;
        ok, found := DrainOne(PendingKey(o, plan, next), now);
        if !ok || !found {
          return;
        }
        TakenGoesOn(t, o, plan, next, pos, now);
        drained, next, t := drained + 1, next + 1, Taken(t, PendingKey(o, plan, next), pos, now);
      }
    }

    /** INSERT .. ON CONFLICT DO NOTHING: an event that is already buffered stays as it is. */
    method BufferEvent(e: Step, now: int) returns (ok: bool)
      modifies this`failIn, this`pending
      ensures old(failIn).None? ==> ok && failIn.None?
      ensures ok ==> pending ==
                     (if KeyOf(e) in old(pending) then old(pending) else old(pending)[KeyOf(e) := PendingRow(e, now)])
    {
      ok := Statement();
      if ok && KeyOf(e) !in pending {
        pending := pending[KeyOf(e) := PendingRow(e, now)];
      }
    }

    /** The next event, and what the buffer has after it. */
    method ApplyNow(orderExists: bool, e: Step, now: int) returns (ok: bool, drained: nat)
      requires (orderExists <==> e.orderId in orders) && KeyedFor(Snapshot(), e.orderId)
      modifies this`failIn, this`orders, this`pending, this`outbox, this`nextPosition
      ensures old(failIn).None? ==> ok && failIn.None?
      ensures ok ==>
                && Snapshot() == DrainedTables(Upserted(old(Snapshot()), e, old(nextPosition), now),
                                               e.orderId, e.planId, SeqOf(e) + 1, old(nextPosition) + 1, now)
                && |outbox| == |old(outbox)| + 1 + drained
                && nextPosition == old(nextPosition) + 1 + drained
      ensures old(nextPosition) <= nextPosition
    {
      drained := 0;
      ok := WriteEvent(orderExists, e, now);
      if ok {
        ok, drained := DrainPending(e.orderId, e.planId, SeqOf(e) + 1, now);
      }
    }

    /** The statements of ApplyEvent, between BEGIN and COMMIT. */
    method ApplyInside(e: Step, now: int) returns (ok: bool, res: TxResult)
      requires KeyedFor(Snapshot(), e.orderId)
      modifies this`failIn, this`orders, this`pending, this`outbox, this`nextPosition
      ensures old(failIn).None? ==> ok && failIn.None?
      ensures ok ==> Snapshot() == DeliveredTables(old(Snapshot()), e, old(nextPosition), now)
      ensures ok ==> res.outcome == Decide(StateOf(old(ViewOf(e.orderId))), e.planId, SeqOf(e))
      ensures ok ==> |outbox| == |old(outbox)| + (if res.outcome == Apply then 1 + res.drained else 0)
      ensures ok && res.outcome != Apply ==> res.drained == 0
      ensures ok ==> res.lastSeq == (if res.outcome == Apply then SeqOf(e) + res.drained
                                     else if e.orderId in old(orders) then old(orders)[e.orderId].lastSeq else 0)
      ensures old(nextPosition) <= nextPosition
      ensures ok ==> nextPosition == old(nextPosition) + |outbox| - |old(outbox)|
    {
      res := TxResult(Duplicate, 0, 0);
      var state;
      ok, state := LockOrder(e.orderId);
      if !ok {
        return;
      }
      var outcome := Decide(state, e.planId, SeqOf(e));
      res := TxResult(outcome, if state.Existing? then state.lastSeq else 0, 0);
      match outcome
      case Apply =>
        var drained;
        ok, drained := ApplyNow(state.Existing?, e, now);
        res := TxResult(outcome, SeqOf(e) + drained, drained);
      case Buffer =>
        ok := BufferEvent(e, now);
      case _ =>
    }

    /** pgx.BeginFunc: on any error the tables are what they were; the identity counter is not. */
    method Rollback(o: map<OrderId, OrderRow>, p: map<PendingKey, PendingRow>, x: seq<OutboxRow>)
      modifies this`orders, this`pending, this`outbox
      ensures orders == o && pending == p && outbox == x
    {
      orders, pending, outbox := o, p, x;
    }

    /**
     One sequenced event, one transaction: the order's ledger takes the step, no other
     order changes, and a failure leaves no trace. The result tells what was decided,
     the order's last applied seq after the commit, and how many events were drained.
     */
    method ApplyEvent(e: Step, now: int) returns (res: Result<TxResult>)
      requires Valid()
      modifies this`failIn, this`orders, this`pending, this`outbox, this`nextPosition
      ensures Valid()
      ensures res.Err? ==> Snapshot() == old(Snapshot()) && res.error == failure && old(failIn).Some?
      ensures old(failIn).None? ==> failIn.None?
      ensures res.Ok? ==> Snapshot() == DeliveredTables(old(Snapshot()), e, old(nextPosition), now)
      ensures res.Ok? ==> ViewOf(e.orderId) == DeliverStep(old(ViewOf(e.orderId)), e)
      ensures forall p | p != e.orderId :: ViewOf(p) == old(ViewOf(p))
      ensures res.Ok? ==>
                && res.value.outcome == Decide(StateOf(old(ViewOf(e.orderId))), e.planId, SeqOf(e))
                && |outbox| == |old(outbox)| + (if res.value.outcome == Apply then 1 + res.value.drained else 0)
                && (res.value.outcome != Apply ==> res.value.drained == 0)
                && res.value.lastSeq == (if e.orderId in orders then orders[e.orderId].lastSeq else 0)
      ensures old(outbox) <= outbox
      ensures forall i | |old(outbox)| <= i < |outbox| ::
                var position := old(nextPosition) + i - |old(outbox)|;
                outbox[i] == OutboxRow(position, outbox[i].event, false, 0, now, None, false)
      ensures old(nextPosition) <= nextPosition
    {
      var savedOrders, savedPending, savedOutbox := orders, pending, outbox;
      ghost var t, pos := Snapshot(), nextPosition;
      GoodIsKeyed(t, e.orderId);
      var ok, tx := ApplyInside(e, now);
      if ok {
        res := Ok(tx);
        DeliveryReport(t, e, pos, now);
        DeliveredIsGood(t, e, pos, now);
        GrownIsPositioned(t.outbox, outbox, pos, now);
      } else {
        Rollback(savedOrders, savedPending, savedOutbox);
        res := Err(failure);
        assert Snapshot() == t;
      }
    }

    method SetOrder(o: OrderId, row: OrderRow) returns (ok: bool)
      modifies this`failIn, this`orders
      ensures old(failIn).None? ==> ok && failIn.None?
      ensures ok ==> Snapshot() == Exec(old(Snapshot()), PutOrder(o, row))
    {
      ok := Statement();
      if ok {
        orders := orders[o := row];
      }
    }

    /** DELETE .. WHERE order_id AND plan_id. */
    method DiscardPending(o: OrderId, plan: PlanId) returns (ok: bool)
      modifies this`failIn, this`pending
      ensures old(failIn).None? ==> ok && failIn.None?
      ensures ok ==> Snapshot() == Exec(old(Snapshot()), DeletePending(PlanKeys(old(pending), o, plan)))
    {
      ok := Statement();
      if ok {
        pending := map k | k in pending && !(k.orderId == o && k.planId == plan) :: pending[k];
        assert pending == old(pending) - PlanKeys(old(pending), o, plan);
      }
    }

    /** The statements of AbortPlan, between BEGIN and COMMIT. */
    method AbortInside(e: Abort, now: int) returns (ok: bool, res: TxResult)
      modifies this`failIn, this`orders, this`pending, this`outbox, this`nextPosition
      ensures old(failIn).None? ==> ok && failIn.None?
      ensures ok ==> Snapshot() == AbortedTables(old(Snapshot()), e, old(nextPosition), now)
      ensures ok ==> res.outcome == DecideAbort(StateOf(old(ViewOf(e.orderId))), e.planId) && res.drained == 0
      ensures ok ==> res.lastSeq == (if e.orderId in old(orders) then old(orders)[e.orderId].lastSeq else 0)
      ensures old(nextPosition) <= nextPosition
      ensures ok ==> nextPosition == old(nextPosition) + |outbox| - |old(outbox)|
    {
      res := TxResult(Duplicate, 0, 0);
      var state;
      ok, state := LockOrder(e.orderId);
      if !ok {
        return;
      }
      var outcome := DecideAbort(state, e.planId);
      res := TxResult(outcome, if state.Existing? then state.lastSeq else 0, 0);
      if outcome == Apply {
        ok := SetOrder(e.orderId, orders[e.orderId].(status := StatusAborted));
        if ok {
          ok := InsertOutbox(e, now);
        }
      } else if outcome == Tombstone {
        ok := SetOrder(e.orderId, OrderRow(e.planId, UserOf(e), StatusAborted, None, 0));
      } else {
        return;
      }
      if ok {
        ok := DiscardPending(e.orderId, e.planId);
      }
    }

    /** ABORT_PLAN, one transaction: the order's ledger is aborted, or refuses, and nothing else changes. */
    method AbortPlan(e: Abort, now: int) returns (res: Result<TxResult>)
      requires Valid()
      modifies this`failIn, this`orders, this`pending, this`outbox, this`nextPosition
      ensures Valid()
      ensures res.Err? ==> Snapshot() == old(Snapshot()) && res.error == failure && old(failIn).Some?
      ensures old(failIn).None? ==> failIn.None?
      ensures res.Ok? ==> Snapshot() == AbortedTables(old(Snapshot()), e, old(nextPosition), now)
      ensures res.Ok? ==> ViewOf(e.orderId) == DeliverAbort(old(ViewOf(e.orderId)), e)
      ensures forall p | p != e.orderId :: ViewOf(p) == old(ViewOf(p))
      ensures res.Ok? ==>
                && res.value.outcome == DecideAbort(StateOf(old(ViewOf(e.orderId))), e.planId) && res.value.drained == 0
                && res.value.lastSeq == (if e.orderId in orders then orders[e.orderId].lastSeq else 0)
      ensures outbox == old(outbox) + if res.Ok? && res.value.outcome == Apply
                                      then [OutboxRow(old(nextPosition), e, false, 0, now, None, false)] else []
      ensures old(nextPosition) <= nextPosition
    {
      var savedOrders, savedPending, savedOutbox := orders, pending, outbox;
      ghost var t, pos := Snapshot(), nextPosition;
      var ok, tx := AbortInside(e, now);
      if ok {
        res := Ok(tx);
        AbortReport(t, e, pos, now);
        AbortedIsGood(t, e, pos, now);
        GrownIsPositioned(t.outbox, outbox, pos, now);
      } else {
        Rollback(savedOrders, savedPending, savedOutbox);
        res := Err(failure);
        assert Snapshot() == t;
      }
    }

    /**
     What the sweep's SELECT may return: distinct rows older than the cutoff, oldest
     first, at most `limit`; which of the eligible ones is up to SKIP LOCKED.
     */
    static predicate SweepOf(p: map<PendingKey, PendingRow>, rows: seq<PendingKey>, cutoff: int, limit: nat) {
      && |rows| <= limit
      && (forall i | 0 <= i < |rows| :: rows[i] in p && p[rows[i]].receivedAt < cutoff)
      && (forall i, j | 0 <= i < j < |rows| ::
            rows[i] != rows[j] && p[rows[i]].receivedAt <= p[rows[j]].receivedAt)
    }

    /** The buffered events of `rows`, in that order. */
    static ghost function EventsOf(p: map<PendingKey, PendingRow>, rows: seq<PendingKey>): (es: seq<Step>)
      requires forall i | 0 <= i < |rows| :: rows[i] in p
      ensures |es| == |rows| && forall i | 0 <= i < |rows| :: es[i] == p[rows[i]].event
    {
      seq(|rows|, i requires 0 <= i < |rows| => p[rows[i]].event)
    }

    /**
     One sweep. `rows` is what the SELECT returned and `accepts` how the sink answers, event
     by event. The rows leave the buffer together, after the sink took every one of them;
     if the sweep fails they all stay, although the sink has taken those in `sent`.
     */
    method ExpirePending(rows: seq<PendingKey>, accepts: seq<bool>, ghost cutoff: int, ghost limit: nat)
      returns (res: Result<nat>, sent: seq<Step>)
      requires Valid() && SweepOf(pending, rows, cutoff, limit) && |accepts| == |rows|
      modifies this`failIn, this`pending
      ensures Valid()
      ensures sent <= EventsOf(old(pending), rows) && forall i | 0 <= i < |sent| :: accepts[i]
      ensures res.Err? ==> Snapshot() == old(Snapshot())
      ensures res.Ok? ==> res.value == |rows| && sent == EventsOf(old(pending), rows)
      ensures res.Ok? ==> Snapshot() == Exec(old(Snapshot()), DeletePending(KeySet(rows)))
      ensures res.Ok? ==> pending == old(pending) - KeySet(rows) && orders == old(orders) && outbox == old(outbox)
      ensures res.Ok? ==> forall p :: ViewOf(p) == Expire(old(ViewOf(p)), KeySet(rows))
      ensures old(failIn).None? ==> failIn.None? && (res.Ok? <==> false !in accepts)
      ensures old(failIn).None? && res.Err? ==> |sent| < |rows| && !accepts[|sent|]
    {
      var saved := pending;
      ghost var t := Snapshot();
      var expired := 0;
      sent := [];
      var ok := Statement();
      while ok && expired < |rows|
        invariant expired <= |rows| && |sent| >= expired
        invariant sent <= EventsOf(saved, rows) && forall i | 0 <= i < |sent| :: accepts[i]
        invariant ok ==> |sent| == expired && pending == saved - KeySet(rows[..expired])
        invariant ok ==> false !in accepts[..expired]
        invariant old(failIn).None? ==> failIn.None? && (!ok ==> |sent| < |rows| && !accepts[|sent|])
        decreases |rows| - expired, ok
      {
        var k := rows[expired];
        assert k !in rows[..expired];
        ok := accepts[expired];
        if ok {
          sent := sent + [pending[k].event];
          ok := Statement();
          if ok {
            pending := pending - {k};
            expired := expired + 1;
            assert rows[..expired] == rows[..expired - 1] + [k];
            assert accepts[..expired] == accepts[..expired - 1] + [true];
          }
        }
      }
      if ok {
        res := Ok(expired);
        assert rows[..expired] == rows && accepts[..expired] == accepts;
        ghost var keys := KeySet(rows);
        assert Snapshot() == Exec(t, DeletePending(keys));
        SweptIsGood(t, keys);
      } else {
        pending := saved;
        res := Err(failure);
        assert Snapshot() == t;
      }
    }

    /**
     Leases up to `limit` of the entries that are ready and head of their aggregate, oldest
     first; `locked` are rows that another transaction holds at the moment.
     */
    method ClaimOutbox(limit: nat, lease: nat, locked: set<nat>, now: int) returns (res: Result<seq<OutboxEntry>>)
      requires Valid()
      modifies this`failIn, this`outbox
      ensures Valid() && forall p :: ViewOf(p) == old(ViewOf(p))
      ensures old(failIn).None? ==> res.Ok? && failIn.None?
      ensures SameEvents(old(outbox), outbox)
      ensures res.Err? ==> outbox == old(outbox)
      ensures res.Ok? ==> OldestOf(old(outbox), res.value, EligibleRows(old(outbox), now) - locked, limit)
      ensures res.Ok? ==> outbox == Leased(old(outbox), IdsOf(res.value), now + lease)
    {
      ghost var t := Snapshot();
      var ok := Statement();
      if !ok {
        res := Err(failure);
        return;
      }
      var entries := PickOldest(EligibleRows(outbox, now) - locked, limit);
      outbox := Leased(outbox, IdsOf(entries), now + lease);
      res := Ok(entries);
      SameViews(t, Snapshot());
    }

    /** ORDER BY position LIMIT. */
    method PickOldest(candidates: set<nat>, limit: nat) returns (entries: seq<OutboxEntry>)
      requires forall k | k in candidates :: k < |outbox|
      ensures OldestOf(outbox, entries, candidates, limit)
    {
      var left := candidates;
      entries := [];
      while |entries| < limit && left != {}
        invariant left == candidates - IdsOf(entries) && |entries| <= limit
        invariant forall i | 0 <= i < |entries| ::
          && entries[i].id in candidates
          && entries[i].event == outbox[entries[i].id].event && entries[i].attempts == outbox[entries[i].id].attempts
        invariant forall i, j | 0 <= i < j < |entries| :: entries[i].id != entries[j].id
        invariant forall k, e | k in left && e in entries :: outbox[e.id].position <= outbox[k].position
        decreases left
      {
        OldestExists(outbox, left);
        var i: nat :| Oldest(outbox, i, left);
        var e := OutboxEntry(i, outbox[i].event, outbox[i].attempts);
        assert forall f | f in entries :: f.id in IdsOf(entries);
        entries := entries + [e];
        left := left - {i};
      }
      assert forall k | k in candidates && k !in IdsOf(entries) :: k in left;
    }

    method MarkOutboxDelivered(id: nat, now: int) returns (ok: bool)
      requires Valid() && id < |outbox|
      modifies this`failIn, this`outbox
      ensures Valid() && forall p :: ViewOf(p) == old(ViewOf(p))
      ensures old(failIn).None? ==> ok && failIn.None?
      ensures old(failIn) == Some(0) ==> !ok
      ensures outbox == if ok then old(outbox)[id := Recorded(old(outbox)[id], MarkDelivered, now)] else old(outbox)
    {
      ghost var t := Snapshot();
      ok := Statement();
      if ok {
        var r := outbox[id];
        outbox := outbox[id := r.(processed := true, attempts := r.attempts + 1, leaseUntil := None)];
      }
      SameViews(t, Snapshot());
    }

    method MarkOutboxFailed(id: nat, retryIn: int, dead: bool, now: int) returns (ok: bool)
      requires Valid() && id < |outbox|
      modifies this`failIn, this`outbox
      ensures Valid() && forall p :: ViewOf(p) == old(ViewOf(p))
      ensures old(failIn).None? ==> ok && failIn.None?
      ensures old(failIn) == Some(0) ==> !ok
      ensures outbox ==
              if ok then old(outbox)[id := Recorded(old(outbox)[id], MarkFailed(retryIn, dead), now)] else old(outbox)
    {
      ghost var t := Snapshot();
      ok := Statement();
      if ok {
        var r := outbox[id];
        var failed := r.(attempts := r.attempts + 1, leaseUntil := None, nextAttemptAt := now + retryIn, dead := dead);
        outbox := outbox[id := failed];
      }
      SameViews(t, Snapshot());
    }

    method ReleaseOutbox(id: nat, now: int) returns (ok: bool)
      requires Valid() && id < |outbox|
      modifies this`failIn, this`outbox
      ensures Valid() && forall p :: ViewOf(p) == old(ViewOf(p))
      ensures old(failIn).None? ==> ok && failIn.None?
      ensures old(failIn) == Some(0) ==> !ok
      ensures outbox == if ok then old(outbox)[id := Recorded(old(outbox)[id], Release, now)] else old(outbox)
    {
      ghost var t := Snapshot();
      ok := Statement();
      if ok {
        outbox := outbox[id := outbox[id].(leaseUntil := None)];
      }
      SameViews(t, Snapshot());
    }
  }
}

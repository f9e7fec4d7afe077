/**
 No event is lost: whatever the store, the reorder buffer and the dead letter queue do,
 each settled event can be accounted for.
 */
module Accounting {
  import opened Models
  import opened Sequencing
  import opened Ledger
  import opened Replay

  /**
   What one step of the gateway committed. `Refused` is data the database rejected
   permanently: its transaction left no trace and the DLQ acknowledged the event.
   `SweepUndone` is a sweep that failed after the sink had accepted the events of `keys`.
   */
  datatype Turn =
    | Settled(record: Record)
    | Refused(record: Record)
    | Swept(keys: set<PendingKey>)
    | SweepUndone(keys: set<PendingKey>)

  /** One order's ledger, and the events of that order which the DLQ acknowledged. */
  datatype Gate = Gate(ledger: Ledger, letters: set<Event>)

  const FRESH := Gate(EMPTY, {})

  /** PLAN_MISMATCH and INVALID_EVENT go to the DLQ as well. */
  predicate NeedsLetter(l: Ledger, e: Event) {
    if IsStep(e) then Decide(StateOf(l), e.planId, SeqOf(e)) == PlanMismatch
    else if IsAbort(e) then DecideAbort(StateOf(l), e.planId) == PlanMismatch
    else true
  }

  function Sent(l: Ledger, keys: set<PendingKey>): set<Event> {
    set k | k in keys && k in l.pending :: l.pending[k]
  }

  function Turned(o: OrderId, g: Gate, t: Turn): Gate {
    match t
    case Settled(r) =>
      Gate(Handle(o, g.ledger, r),
           if r.Parsed? && r.event.orderId == o && NeedsLetter(g.ledger, r.event)
           then g.letters + {r.event} else g.letters)
    case Refused(r) =>
      if r.Parsed? && r.event.orderId == o then g.(letters := g.letters + {r.event}) else g
    case Swept(keys) => Gate(Expire(g.ledger, keys), g.letters + Sent(g.ledger, keys))
    case SweepUndone(keys) => g.(letters := g.letters + Sent(g.ledger, keys))
  }

  function Turns(o: OrderId, ts: seq<Turn>): Gate {
    if ts == [] then FRESH else Turned(o, Turns(o, ts[..|ts| - 1]), ts[|ts| - 1])
  }

  /** The event of seq `k.seqId` was applied: the owning plan moved past it. */
  ghost predicate Passed(l: Ledger, k: PendingKey) {
    l.row.Some? && l.row.value.planId == k.planId && k.seqId <= l.row.value.lastSeq
  }

  ghost predicate AbortedPlan(l: Ledger, plan: PlanId) {
    l.row.Some? && l.row.value.planId == plan && l.row.value.status == StatusAborted
  }

  /** Applied, buffered, dropped by its plan's abort, or acknowledged by the DLQ - it or its twin. */
  ghost predicate Accounted(g: Gate, e: Step) {
    || Passed(g.ledger, KeyOf(e))
    || KeyOf(e) in g.ledger.pending
    || AbortedPlan(g.ledger, e.planId)
    || exists f: Step :: f in g.letters && KeyOf(f) == KeyOf(e)
  }

  lemma {:induction false} TurnKeepsGood(o: OrderId, g: Gate, t: Turn)
    requires Good(o, g.ledger)
    ensures Good(o, Turned(o, g, t).ledger)
  {
    if t.Settled? {
      HandleKeepsGood(o, g.ledger, t.record);
    }
  }

  lemma {:induction false} TurnsAreGood(o: OrderId, ts: seq<Turn>)
    ensures Good(o, Turns(o, ts).ledger)
  {
    if ts != [] {
      TurnsAreGood(o, ts[..|ts| - 1]);
      TurnKeepsGood(o, Turns(o, ts[..|ts| - 1]), ts[|ts| - 1]);
    }
  }

  /** The order's plan applied exactly `e` as event k. */
  ghost predicate AppliedAs(l: Ledger, k: PendingKey, e: Step) {
    Passed(l, k) && 1 <= k.seqId <= |l.notes| && l.notes[k.seqId - 1] == e
  }

  lemma StepTakesOnlyWhatItApplies(o: OrderId, l: Ledger, e: Step, k: PendingKey)
    requires Good(o, l) && e.orderId == o && k in l.pending
    ensures var l' := DeliverStep(l, e);
      if k in l'.pending then l'.pending[k] == l.pending[k] else AppliedAs(l', k, l.pending[k])
  {
    if Decide(StateOf(l), e.planId, SeqOf(e)) == Apply {
      StepDrains(o, l, e);
      assert k in ApplyOne(l, e).pending;
    }
  }

  /**
   A buffered event leaves the buffer only by being applied with its own payload, by an
   abort of its plan, or after the sink accepted it.
   */
  lemma LeavesTheBufferOnlyAccounted(o: OrderId, g: Gate, t: Turn, k: PendingKey)
    requires Good(o, g.ledger) && k in g.ledger.pending
    ensures var g' := Turned(o, g, t);
      || (k in g'.ledger.pending && g'.ledger.pending[k] == g.ledger.pending[k])
      || AppliedAs(g'.ledger, k, g.ledger.pending[k])
      || AbortedPlan(g'.ledger, k.planId)
      || g.ledger.pending[k] in g'.letters
  {
    if t.Settled? && t.record.Parsed? && t.record.event.orderId == o && IsStep(t.record.event) {
      StepTakesOnlyWhatItApplies(o, g.ledger, t.record.event, k);
    }
  }

  lemma StaysAccounted(o: OrderId, g: Gate, t: Turn, e: Step)
    requires Good(o, g.ledger) && e.orderId == o && Accounted(g, e)
    ensures Accounted(Turned(o, g, t), e)
  {
    var g' := Turned(o, g, t);
    if t.Settled? {
      HandleIsLater(o, g.ledger, t.record);
    }
    if KeyOf(e) in g.ledger.pending {
      LeavesTheBufferOnlyAccounted(o, g, t, KeyOf(e));
      assert KeyOf(g.ledger.pending[KeyOf(e)]) == KeyOf(e);
    }
    if f: Step :| f in g.letters && KeyOf(f) == KeyOf(e) {
      assert f in g'.letters;
    }
  }

  lemma SettledIsAccounted(o: OrderId, g: Gate, t: Turn, e: Step)
    requires Good(o, g.ledger) && e.orderId == o && IsStep(e)
    requires t == Settled(Parsed(e)) || t == Refused(Parsed(e))
    ensures Accounted(Turned(o, g, t), e)
  {
    var g' := Turned(o, g, t);
    if t.Settled? && Decide(StateOf(g.ledger), e.planId, SeqOf(e)) == Apply {
      AppliedStep(o, g.ledger, e);
      assert Passed(g'.ledger, KeyOf(e));
    } else if e in g'.letters {
      assert Accounted(g', e);
    }
  }

  /**
   No loss. Over every history of settled records, rejected data and sweeps - also the
   ones that fail midway - each event that was settled is applied, buffered, dropped by
   its plan's abort, or acknowledged by the DLQ, itself or another event of the same plan
   and seq that took its place.
   */
  lemma {:induction false} NothingIsLost(o: OrderId, ts: seq<Turn>, i: nat, e: Step)
    requires i < |ts| && e.orderId == o && IsStep(e)
    requires ts[i] == Settled(Parsed(e)) || ts[i] == Refused(Parsed(e))
    ensures Accounted(Turns(o, ts), e)
    decreases |ts|
  {
    var front, last := ts[..|ts| - 1], ts[|ts| - 1];
    TurnsAreGood(o, front);
    if i == |ts| - 1 {
      SettledIsAccounted(o, Turns(o, front), last, e);
    } else {
      NothingIsLost(o, front, i, e);
      StaysAccounted(o, Turns(o, front), last, e);
    }
  }
}

/**
 The state of one order: its row, its share of the reorder buffer and its outbox
 entries in insertion order. Every store transaction acts on one such ledger, so
 this is where its meaning is stated and its invariant is proved.
 */
module Ledger {
  import opened Models
  import opened Sequencing

  datatype OrderRow = OrderRow(
    planId: PlanId,
    userId: string,
    status: Status,
    total: Option<real>,
    lastSeq: int)

  /** Primary key of pending_events. */
  datatype PendingKey = PendingKey(orderId: OrderId, planId: PlanId, seqId: int)

  type Buffer = map<PendingKey, Step>

  datatype Ledger = Ledger(row: Option<OrderRow>, pending: Buffer, notes: seq<Event>)

  const EMPTY := Ledger(None, map[], [])

  function KeyOf(e: Step): PendingKey {
    PendingKey(e.orderId, e.planId, SeqOf(e))
  }

  function StateOf(l: Ledger): OrderState {
    match l.row
    case None => Missing
    case Some(r) => Existing(r.planId, r.lastSeq, r.status)
  }

  /* ----- transactions ----- */

  /** The order row after applying `e`: an insert, or an update that keeps the total when `e` has none. */
  function Written(row: Option<OrderRow>, e: Step): OrderRow {
    match row
    case None => OrderRow(e.planId, UserOf(e), StatusOf(e), e.totalAmount, SeqOf(e))
    case Some(r) =>
      r.(status := StatusOf(e),
         total := if e.totalAmount.Some? then e.totalAmount else r.total,
         lastSeq := SeqOf(e))
  }

  function ApplyOne(l: Ledger, e: Step): Ledger {
    l.(row := Some(Written(l.row, e)), notes := l.notes + [e])
  }

  /** Takes the buffered event under `k` and applies it. */
  function TakeOne(l: Ledger, k: PendingKey): Ledger
    requires k in l.pending
  {
    ApplyOne(l.(pending := l.pending - {k}), l.pending[k])
  }

  function Drain(l: Ledger, o: OrderId, plan: PlanId, next: int): Ledger
    decreases l.pending.Keys
  {
    var k := PendingKey(o, plan, next);
    if k in l.pending then Drain(TakeOne(l, k), o, plan, next + 1) else l
  }

  lemma DrainTakes(l: Ledger, o: OrderId, plan: PlanId, next: int)
    ensures var k := PendingKey(o, plan, next);
      Drain(l, o, plan, next) == if k in l.pending then Drain(TakeOne(l, k), o, plan, next + 1) else l
  {
  }

  function DeliverStep(l: Ledger, e: Step): Ledger {
    match Decide(StateOf(l), e.planId, SeqOf(e))
    case Apply => Drain(ApplyOne(l, e), e.orderId, e.planId, SeqOf(e) + 1)
    case Buffer => if KeyOf(e) in l.pending then l else l.(pending := l.pending[KeyOf(e) := e])
    case _ => l
  }

  function DropPlan(p: Buffer, o: OrderId, plan: PlanId): Buffer {
    map k | k in p && !(k.orderId == o && k.planId == plan) :: p[k]
  }

  function DeliverAbort(l: Ledger, e: Abort): Ledger {
    match DecideAbort(StateOf(l), e.planId)
    case Apply =>
      Ledger(Some(l.row.value.(status := StatusAborted)), DropPlan(l.pending, e.orderId, e.planId), l.notes + [e])
    case Tombstone =>
      Ledger(Some(OrderRow(e.planId, UserOf(e), StatusAborted, None, 0)),
             DropPlan(l.pending, e.orderId, e.planId), l.notes)
    case _ => l
  }

  function Expire(l: Ledger, keys: set<PendingKey>): Ledger {
    l.(pending := l.pending - keys)
  }

  /** Everything that can happen to a ledger. A transaction that fails does nothing. */
  datatype Command = Deliver(step: Step) | AbortOrder(abort: Abort) | Sweep(keys: set<PendingKey>)

  predicate ConcernsOnly(c: Command, o: OrderId) {
    match c
    case Deliver(e) => e.orderId == o
    case AbortOrder(e) => e.orderId == o
    case Sweep(_) => true
  }

  function Perform(l: Ledger, c: Command): Ledger {
    match c
    case Deliver(e) => DeliverStep(l, e)
    case AbortOrder(e) => DeliverAbort(l, e)
    case Sweep(keys) => Expire(l, keys)
  }

  function Run(l: Ledger, cs: seq<Command>): Ledger {
    if cs == [] then l else Perform(Run(l, cs[..|cs| - 1]), cs[|cs| - 1])
  }

  /* ----- the invariant ----- */

  ghost predicate Keyed(o: OrderId, p: Buffer) {
    forall k | k in p :: k.orderId == o && KeyOf(p[k]) == k && 2 <= k.seqId
  }

  /** Every buffered event of `plan` has at least seq `low`. */
  ghost predicate NoneBelow(p: Buffer, plan: PlanId, low: int) {
    forall k | k in p && k.planId == plan :: low <= k.seqId
  }

  ghost predicate NoneOf(p: Buffer, plan: PlanId) {
    forall k | k in p :: k.planId != plan
  }

  /** The first `n` notifications are the plan's events 1, 2, .., n. */
  ghost predicate Numbered(notes: seq<Event>, plan: PlanId, n: int) {
    && 0 <= n <= |notes|
    && forall i | 0 <= i < n ::
         Sequenced(notes[i]) && notes[i].planId == plan && notes[i].seqId == Some(i + 1)
  }

  /** The last amount that any of the events carried. */
  function LastTotal(notes: seq<Event>): Option<real> {
    if notes == [] then None
    else
      var last := notes[|notes| - 1];
      if last.totalAmount.Some? then last.totalAmount else LastTotal(notes[..|notes| - 1])
  }

  /** The amount of the last event that carries one; the events after it carry none. */
  lemma {:induction false} LastTotalMeans(notes: seq<Event>)
    ensures LastTotal(notes).None? <==> forall n | n in notes :: n.totalAmount.None?
    ensures LastTotal(notes).Some? ==>
              exists i :: 0 <= i < |notes| && notes[i].totalAmount == LastTotal(notes)
                && forall n | n in notes[i + 1..] :: n.totalAmount.None?
  {
    if notes != [] {
      var m := |notes| - 1;
      LastTotalMeans(notes[..m]);
      assert notes == notes[..m] + [notes[m]];
      if notes[m].totalAmount.Some? {
        assert notes[m + 1..] == [];
      } else if LastTotal(notes).Some? {
        var i :| 0 <= i < m && notes[..m][i].totalAmount == LastTotal(notes)
          && forall n | n in notes[..m][i + 1..] :: n.totalAmount.None?;
        assert notes[i + 1..] == notes[..m][i + 1..] + [notes[m]];
        assert notes[i].totalAmount == LastTotal(notes);
      }
    }
  }

  /** `gap` is 2 between transactions and 1 inside one, before the drain has finished. */
  ghost predicate ConsistentRow(r: OrderRow, p: Buffer, notes: seq<Event>, gap: int) {
    && Numbered(notes, r.planId, r.lastSeq)
    && r.total == LastTotal(notes[..r.lastSeq])
    && (1 <= r.lastSeq ==> r.userId == UserOf(notes[0]))
    && NoneBelow(p, r.planId, r.lastSeq + gap)
    && if r.status == StatusAborted then
         && NoneOf(p, r.planId)
         && if r.lastSeq == 0 then notes == []
            else
              && |notes| == r.lastSeq + 1
              && notes[r.lastSeq].eventType.AbortPlan?
              && notes[r.lastSeq].planId == r.planId
       else
         && 1 <= r.lastSeq == |notes|
         && r.status == StatusOf(notes[r.lastSeq - 1])
  }

  ghost predicate Consistent(o: OrderId, l: Ledger, gap: int) {
    && Keyed(o, l.pending)
    && (forall n | n in l.notes :: n.orderId == o)
    && (l.row.None? ==> l.notes == [])
    && (forall r | l.row == Some(r) :: ConsistentRow(r, l.pending, l.notes, gap))
  }

  ghost predicate Good(o: OrderId, l: Ledger) {
    Consistent(o, l, 2)
  }

  lemma WrittenIsConsistent(row: Option<OrderRow>, p: Buffer, notes: seq<Event>, e: Step)
    requires NoneBelow(p, e.planId, SeqOf(e) + 1)
    requires if row.None? then notes == [] && SeqOf(e) == 1
             else
               && ConsistentRow(row.value, p, notes, 1) && row.value.status != StatusAborted
               && row.value.planId == e.planId && SeqOf(e) == row.value.lastSeq + 1
    ensures ConsistentRow(Written(row, e), p, notes + [e], 1)
  {
    var n := SeqOf(e);
    assert (notes + [e])[..n] == notes + [e];
    LastTotalOneMore(notes, e);
    if row.Some? {
      assert notes[..n - 1] == notes;
      NumberedOneMore(notes, e);
    }
  }

  lemma {:induction false} LastTotalOneMore(notes: seq<Event>, e: Event)
    ensures LastTotal(notes + [e]) == if e.totalAmount.Some? then e.totalAmount else LastTotal(notes)
  {
    assert (notes + [e])[..|notes|] == notes;
  }

  lemma NumberedOneMore(notes: seq<Event>, e: Step)
    requires Numbered(notes, e.planId, |notes|) && SeqOf(e) == |notes| + 1
    ensures Numbered(notes + [e], e.planId, |notes| + 1)
  {
  }

  /** Writing the next event of the owning plan extends the numbered prefix by one. */
  lemma ApplyOneKeeps(o: OrderId, l: Ledger, e: Step)
    requires Consistent(o, l, 1)
    requires e.orderId == o
    requires l.row.None? ==> SeqOf(e) == 1
    requires l.row.Some? ==>
      && l.row.value.planId == e.planId
      && l.row.value.status != StatusAborted
      && SeqOf(e) == l.row.value.lastSeq + 1
      && KeyOf(e) !in l.pending
    ensures Consistent(o, ApplyOne(l, e), 1)
  {
    forall k | k in l.pending && k.planId == e.planId ensures SeqOf(e) + 1 <= k.seqId {
      assert k != KeyOf(e);
    }
    WrittenIsConsistent(l.row, l.pending, l.notes, e);
  }

  /** An order of `plan` that still takes events, with `next` the one it waits for. */
  ghost predicate Awaits(o: OrderId, l: Ledger, plan: PlanId, next: int) {
    && Consistent(o, l, 1)
    && l.row.Some? && l.row.value.planId == plan && l.row.value.status != StatusAborted
    && next == l.row.value.lastSeq + 1
  }

  lemma TakeOneKeeps(o: OrderId, l: Ledger, plan: PlanId, next: int)
    requires Awaits(o, l, plan, next)
    requires PendingKey(o, plan, next) in l.pending
    ensures var l' := TakeOne(l, PendingKey(o, plan, next));
      && Awaits(o, l', plan, next + 1)
      && l'.notes == l.notes + [l.pending[PendingKey(o, plan, next)]]
      && |l'.notes| == next
  {
    var k := PendingKey(o, plan, next);
    ApplyOneKeeps(o, l.(pending := l.pending - {k}), l.pending[k]);
  }

  /** What a drain did: the events it took from `before` are those the order's row moved past. */
  ghost predicate Drained(before: Ledger, after: Ledger, plan: PlanId, next: int) {
    && 1 <= next
    && after.row.Some? && after.row.value.planId == plan && after.row.value.status != StatusAborted
    && next - 1 <= after.row.value.lastSeq == |after.notes|
    && before.notes <= after.notes
    && (forall k | k in after.pending :: k in before.pending && after.pending[k] == before.pending[k])
    && (forall k | k in before.pending && k !in after.pending ::
          k.planId == plan && next <= k.seqId <= |after.notes| && before.pending[k] == after.notes[k.seqId - 1])
  }

  lemma NothingToDrain(o: OrderId, l: Ledger, plan: PlanId, next: int)
    requires Awaits(o, l, plan, next)
    requires PendingKey(o, plan, next) !in l.pending
    ensures Good(o, l) && Drained(l, l, plan, next)
  {
  }

  /** Taking one event, and then what the rest of the drain did. */
  lemma DrainedOneMore(l: Ledger, after: Ledger, o: OrderId, plan: PlanId, next: int)
    requires 1 <= next && PendingKey(o, plan, next) in l.pending
    requires TakeOne(l, PendingKey(o, plan, next)).notes == l.notes + [l.pending[PendingKey(o, plan, next)]]
    requires |l.notes| + 1 == next
    requires Drained(TakeOne(l, PendingKey(o, plan, next)), after, plan, next + 1)
    ensures Drained(l, after, plan, next)
  {
    var k := PendingKey(o, plan, next);
    var mid := TakeOne(l, k);
    assert after.notes[next - 1] == mid.notes[next - 1];
  }

  /** Whatever the buffer held, the drain ends with the next event missing and the invariant restored. */
  lemma {:induction false} DrainKeeps(o: OrderId, l: Ledger, plan: PlanId, next: int)
    requires Awaits(o, l, plan, next)
    ensures Good(o, Drain(l, o, plan, next))
    ensures Drained(l, Drain(l, o, plan, next), plan, next)
    decreases l.pending.Keys
  {
    var k := PendingKey(o, plan, next);
    if k in l.pending {
      TakeOneKeeps(o, l, plan, next);
      var mid := TakeOne(l, k);
      DrainKeeps(o, mid, plan, next + 1);
      DrainedOneMore(l, Drain(mid, o, plan, next + 1), o, plan, next);
    } else {
      NothingToDrain(o, l, plan, next);
    }
  }

  lemma AppliedAwaits(o: OrderId, l: Ledger, e: Step)
    requires Good(o, l) && e.orderId == o
    requires Decide(StateOf(l), e.planId, SeqOf(e)) == Apply
    ensures Awaits(o, ApplyOne(l, e), e.planId, SeqOf(e) + 1)
  {
    ApplyOneKeeps(o, l, e);
  }

  /** An applied step is the write and the drain after it. */
  lemma StepDrains(o: OrderId, l: Ledger, e: Step)
    requires Good(o, l) && e.orderId == o
    requires Decide(StateOf(l), e.planId, SeqOf(e)) == Apply
    ensures Good(o, DeliverStep(l, e))
    ensures Drained(ApplyOne(l, e), DeliverStep(l, e), e.planId, SeqOf(e) + 1)
  {
    var mid, plan, next := ApplyOne(l, e), e.planId, SeqOf(e) + 1;
    assert DeliverStep(l, e) == Drain(mid, o, plan, next);
    assert Awaits(o, mid, plan, next) by {
      AppliedAwaits(o, l, e);
    }
    DrainKeeps(o, mid, plan, next);
  }

  lemma StepKeepsGood(o: OrderId, l: Ledger, e: Step)
    requires Good(o, l) && e.orderId == o
    ensures Good(o, DeliverStep(l, e))
  {
    if Decide(StateOf(l), e.planId, SeqOf(e)) == Apply {
      StepDrains(o, l, e);
    }
  }

  lemma AbortKeepsGood(o: OrderId, l: Ledger, e: Abort)
    requires Good(o, l) && e.orderId == o
    ensures Good(o, DeliverAbort(l, e))
  {
    if DecideAbort(StateOf(l), e.planId) == Apply {
      var n := l.row.value.lastSeq;
      assert (l.notes + [e])[..n] == l.notes[..n];
    }
  }

  /** The ledger invariant holds after every command. */
  lemma PerformKeepsGood(o: OrderId, l: Ledger, c: Command)
    requires Good(o, l) && ConcernsOnly(c, o)
    ensures Good(o, Perform(l, c))
  {
    match c
    case Deliver(e) => StepKeepsGood(o, l, e);
    case AbortOrder(e) => AbortKeepsGood(o, l, e);
    case Sweep(_) =>
  }

  /** Over any history of one order, its ledger stays well formed. */
  lemma {:induction false} RunKeepsGood(o: OrderId, cs: seq<Command>)
    requires forall c | c in cs :: ConcernsOnly(c, o)
    ensures Good(o, Run(EMPTY, cs))
  {
    if cs != [] {
      RunKeepsGood(o, cs[..|cs| - 1]);
      PerformKeepsGood(o, Run(EMPTY, cs[..|cs| - 1]), cs[|cs| - 1]);
    }
  }

  /* ----- an abort is final ----- */

  ghost predicate Closed(l: Ledger) {
    && l.row.Some? && l.row.value.status == StatusAborted
    && NoneOf(l.pending, l.row.value.planId)
  }

  /** Once aborted, no command changes the row or the outbox, or buffers anything for the plan. */
  lemma {:induction false} ClosedStays(l: Ledger, cs: seq<Command>)
    requires Closed(l)
    ensures var l' := Run(l, cs); Closed(l') && l'.row == l.row && l'.notes == l.notes
  {
    if cs != [] {
      ClosedStays(l, cs[..|cs| - 1]);
    }
  }

  /**
   An abort that took effect (APPLY or TOMBSTONE) is final: late, repeated or foreign
   events, further aborts and sweeps leave the order aborted, its row and its
   notifications exactly as the abort left them, and its plan with nothing buffered.
   It notified downstream exactly when the order had started.
   */
  lemma {:induction false} AbortIsFinal(o: OrderId, l: Ledger, e: Abort, cs: seq<Command>)
    requires Good(o, l) && e.orderId == o
    requires DecideAbort(StateOf(l), e.planId) in {Apply, Tombstone}
    ensures var l' := Run(DeliverAbort(l, e), cs);
      && l'.row == Some(
           if l.row.Some? then
             OrderRow(e.planId, l.row.value.userId, StatusAborted, l.row.value.total, l.row.value.lastSeq)
           else OrderRow(e.planId, UserOf(e), StatusAborted, None, 0))
      && l'.notes == (if l.row.Some? then l.notes + [e] else [])
      && NoneOf(l'.pending, e.planId)
  {
    var a := DeliverAbort(l, e);
    forall k | k in a.pending ensures k.planId != e.planId {
      assert k in l.pending && k.orderId == o;
    }
    ClosedStays(a, cs);
  }

  /* ----- what the decisions mean ----- */

  /** The plan's event `n` went into the outbox. */
  ghost predicate WasApplied(l: Ledger, plan: PlanId, n: int) {
    exists e :: e in l.notes && Sequenced(e) && e.planId == plan && e.seqId == Some(n)
  }

  /** No other plan owns the order, and it is not aborted. */
  predicate OpenTo(l: Ledger, plan: PlanId) {
    l.row.Some? ==> l.row.value.planId == plan && l.row.value.status != StatusAborted
  }

  predicate OwnedElsewhere(l: Ledger, plan: PlanId) {
    l.row.Some? && l.row.value.planId != plan
  }

  predicate AbortedFor(l: Ledger, plan: PlanId) {
    l.row.Some? && l.row.value.planId == plan && l.row.value.status == StatusAborted
  }

  lemma AppliedUpTo(o: OrderId, l: Ledger, plan: PlanId, n: int)
    requires Good(o, l) && OpenTo(l, plan) && 1 <= n
    ensures WasApplied(l, plan, n) <==> l.row.Some? && n <= l.row.value.lastSeq
  {
    if l.row.Some? && n <= l.row.value.lastSeq {
      assert l.notes[n - 1] in l.notes;
    }
  }

  /** Decisions read three columns of the row; this is what they say about the events of the order. */
  lemma DecisionMeans(o: OrderId, l: Ledger, e: Step)
    requires Good(o, l) && e.orderId == o
    ensures var d, n := Decide(StateOf(l), e.planId, SeqOf(e)), SeqOf(e);
      && (d == PlanMismatch <==> OwnedElsewhere(l, e.planId))
      && (d == Discard <==> AbortedFor(l, e.planId))
      && (d == Duplicate <==> OpenTo(l, e.planId) && WasApplied(l, e.planId, n))
      && (d == Apply <==>
            OpenTo(l, e.planId) && !WasApplied(l, e.planId, n) && (n == 1 || WasApplied(l, e.planId, n - 1)))
      && (d == Buffer <==>
            OpenTo(l, e.planId) && !WasApplied(l, e.planId, n) && n > 1 && !WasApplied(l, e.planId, n - 1))
  {
    if OpenTo(l, e.planId) {
      AppliedUpTo(o, l, e.planId, SeqOf(e));
      if SeqOf(e) > 1 {
        AppliedUpTo(o, l, e.planId, SeqOf(e) - 1);
      }
    }
  }

  /** An abort is ignored exactly when the last thing the owning plan did was to complete the order. */
  lemma AbortDecisionMeans(o: OrderId, l: Ledger, e: Abort)
    requires Good(o, l) && e.orderId == o
    ensures var d := DecideAbort(StateOf(l), e.planId);
      && (d == PlanMismatch <==> OwnedElsewhere(l, e.planId))
      && (d == Duplicate <==> AbortedFor(l, e.planId))
      && (d == Tombstone <==> OpenTo(l, e.planId) && l.notes == [])
      && (d == Discard <==>
            OpenTo(l, e.planId) && l.notes != [] && l.notes[|l.notes| - 1].eventType == OrderCompleted)
      && (d == Apply <==>
            OpenTo(l, e.planId) && l.notes != [] && l.notes[|l.notes| - 1].eventType != OrderCompleted)
  {
  }
}

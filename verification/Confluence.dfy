/**
 The one-line specification of the sequencing store: what is applied is the longest
 gap-free prefix of what was delivered, whatever the order and the repetitions.
 */
module Confluence {
  import opened Models
  import opened Sequencing
  import opened Ledger

  /** Any number of events of one plan, for one order. */
  ghost predicate OfPlan(o: OrderId, plan: PlanId, es: seq<Step>) {
    forall i | 0 <= i < |es| :: es[i].orderId == o && es[i].planId == plan
  }

  /** One payload per seq: a repeated seq repeats the same event. */
  ghost predicate OnePayload(es: seq<Step>) {
    forall i, j | 0 <= i < |es| && 0 <= j < |es| && SeqOf(es[i]) == SeqOf(es[j]) :: es[i] == es[j]
  }

  function Commands(es: seq<Step>): (cs: seq<Command>)
    ensures |cs| == |es|
    ensures forall i | 0 <= i < |es| :: cs[i] == Deliver(es[i])
  {
    seq(|es|, i requires 0 <= i < |es| => Deliver(es[i]))
  }

  /** What was delivered, by key. */
  function Delivered(es: seq<Step>): Buffer {
    if es == [] then map[]
    else Delivered(es[..|es| - 1])[KeyOf(es[|es| - 1]) := es[|es| - 1]]
  }

  /** Notification i is event i+1 of `got`. */
  ghost predicate At(o: OrderId, plan: PlanId, notes: seq<Event>, got: Buffer, i: int)
    requires 0 <= i < |notes|
  {
    var key := PendingKey(o, plan, i + 1);
    key in got && got[key] == notes[i]
  }

  ghost predicate Filled(o: OrderId, plan: PlanId, notes: seq<Event>, got: Buffer) {
    forall i | 0 <= i < |notes| :: At(o, plan, notes, got, i)
  }

  /** The buffer is what `got` holds above seq k. */
  ghost predicate Rest(pending: Buffer, got: Buffer, k: int) {
    && (forall key | key in pending :: key in got && k < key.seqId && pending[key] == got[key])
    && (forall key | key in got && k < key.seqId :: key in pending)
  }

  /** The row that applying exactly these notifications leaves. */
  ghost predicate Summarises(row: Option<OrderRow>, plan: PlanId, notes: seq<Event>) {
    if notes == [] then row.None?
    else
      var last := notes[|notes| - 1];
      && Sequenced(last)
      && row == Some(OrderRow(plan, UserOf(notes[0]), StatusOf(last), LastTotal(notes), |notes|))
  }

  /**
   `l` holds the events 1..k of `got` applied, for its own k, and buffers the others:
   row, outbox and buffer are completely determined by `got` and k.
   */
  ghost predicate AppliesPrefix(o: OrderId, plan: PlanId, l: Ledger, got: Buffer) {
    && Filled(o, plan, l.notes, got)
    && Rest(l.pending, got, |l.notes|)
    && Summarises(l.row, plan, l.notes)
  }

  /** ... and k is the largest one possible: event k+1 was not delivered. */
  ghost predicate LongestPrefix(o: OrderId, plan: PlanId, l: Ledger, got: Buffer) {
    AppliesPrefix(o, plan, l, got) && PendingKey(o, plan, |l.notes| + 1) !in got
  }

  ghost predicate KeysOf(o: OrderId, plan: PlanId, got: Buffer) {
    forall key | key in got ::
      key.orderId == o && key.planId == plan && 1 <= key.seqId && KeyOf(got[key]) == key
  }

  lemma FilledAt(o: OrderId, plan: PlanId, notes: seq<Event>, got: Buffer, i: nat)
    requires Filled(o, plan, notes, got)
    ensures i < |notes| ==> PendingKey(o, plan, i + 1) in got && got[PendingKey(o, plan, i + 1)] == notes[i]
  {
    assert i < |notes| ==> At(o, plan, notes, got, i);
  }

  /** Agreement on the keys 1..|notes| is all that matters. */
  lemma FilledBy(o: OrderId, plan: PlanId, notes: seq<Event>, got: Buffer, got': Buffer)
    requires Filled(o, plan, notes, got)
    requires forall key | key in got && key.seqId <= |notes| :: key in got' && got'[key] == got[key]
    ensures Filled(o, plan, notes, got')
  {
    forall i | 0 <= i < |notes| ensures At(o, plan, notes, got', i) {
      FilledAt(o, plan, notes, got, i);
    }
  }

  lemma FilledNext(o: OrderId, plan: PlanId, notes: seq<Event>, got: Buffer, e: Step)
    requires Filled(o, plan, notes, got)
    requires KeyOf(e) == PendingKey(o, plan, |notes| + 1)
    ensures Filled(o, plan, notes + [e], got[KeyOf(e) := e])
  {
    var got' := got[KeyOf(e) := e];
    forall i | 0 <= i < |notes| + 1 ensures At(o, plan, notes + [e], got', i) {
      FilledAt(o, plan, notes, got, i);
    }
  }

  lemma ApplyNext(o: OrderId, plan: PlanId, l: Ledger, got: Buffer, e: Step)
    requires KeysOf(o, plan, got) && AppliesPrefix(o, plan, l, got)
    requires KeyOf(e) == PendingKey(o, plan, |l.notes| + 1) && KeyOf(e) !in got
    ensures AppliesPrefix(o, plan, ApplyOne(l, e), got[KeyOf(e) := e])
  {
    FilledNext(o, plan, l.notes, got, e);
  }

  /** Taking the next event from the buffer is applying it with buffer and `got` short of it. */
  lemma TakeNext(o: OrderId, plan: PlanId, l: Ledger, got: Buffer, key: PendingKey)
    requires KeysOf(o, plan, got) && AppliesPrefix(o, plan, l, got)
    requires key == PendingKey(o, plan, |l.notes| + 1) && key in l.pending
    ensures AppliesPrefix(o, plan, TakeOne(l, key), got)
  {
    var e := l.pending[key];
    var l0, got0 := l.(pending := l.pending - {key}), got - {key};
    FilledBy(o, plan, l0.notes, got, got0);
    assert Rest(l0.pending, got0, |l.notes|);
    ApplyNext(o, plan, l0, got0, e);
    assert got0[key := e] == got;
  }

  lemma {:induction false} DrainToTheGap(o: OrderId, plan: PlanId, l: Ledger, got: Buffer)
    requires KeysOf(o, plan, got) && AppliesPrefix(o, plan, l, got)
    ensures LongestPrefix(o, plan, Drain(l, o, plan, |l.notes| + 1), got)
    decreases l.pending.Keys
  {
    var key := PendingKey(o, plan, |l.notes| + 1);
    if key in l.pending {
      TakeNext(o, plan, l, got, key);
      DrainToTheGap(o, plan, TakeOne(l, key), got);
    }
  }

  lemma DeliverEarly(o: OrderId, plan: PlanId, l: Ledger, got: Buffer, e: Step)
    requires KeysOf(o, plan, got) && LongestPrefix(o, plan, l, got)
    requires e.orderId == o && e.planId == plan && |l.notes| + 1 < SeqOf(e)
    requires KeyOf(e) in got ==> got[KeyOf(e)] == e
    ensures LongestPrefix(o, plan, DeliverStep(l, e), got[KeyOf(e) := e])
  {
    assert Decide(StateOf(l), e.planId, SeqOf(e)) == Buffer;
    FilledBy(o, plan, l.notes, got, got[KeyOf(e) := e]);
  }

  /** One delivery extends the longest prefix to what has been delivered now. */
  lemma DeliverOne(o: OrderId, plan: PlanId, l: Ledger, got: Buffer, e: Step)
    requires KeysOf(o, plan, got) && LongestPrefix(o, plan, l, got)
    requires e.orderId == o && e.planId == plan
    requires KeyOf(e) in got ==> got[KeyOf(e)] == e
    ensures LongestPrefix(o, plan, DeliverStep(l, e), got[KeyOf(e) := e])
  {
    var n := SeqOf(e);
    if n <= |l.notes| {
      FilledAt(o, plan, l.notes, got, n - 1);
      assert got[KeyOf(e) := e] == got;
    } else if n == |l.notes| + 1 {
      ApplyNext(o, plan, l, got, e);
      DrainToTheGap(o, plan, ApplyOne(l, e), got[KeyOf(e) := e]);
    } else {
      DeliverEarly(o, plan, l, got, e);
    }
  }

  lemma {:induction false} DeliveredKeys(o: OrderId, plan: PlanId, es: seq<Step>)
    requires OfPlan(o, plan, es)
    ensures KeysOf(o, plan, Delivered(es))
    ensures forall i | 0 <= i < |es| :: KeyOf(es[i]) in Delivered(es)
    ensures forall key | key in Delivered(es) :: Delivered(es)[key] in es
  {
    if es != [] {
      DeliveredKeys(o, plan, es[..|es| - 1]);
    }
  }

  /**
   Confluence. For one order and one plan of any length with one payload per seq, after
   ANY finite sequence of deliveries, in any order and with any repeats: last_seq is the
   largest k with 1..k all delivered, the buffer is exactly the delivered events above k,
   the outbox is events 1..k in order, status is that of event k and total is the last
   amount those events carried.
   */
  lemma {:induction false} AnyOrderConverges(o: OrderId, plan: PlanId, es: seq<Step>)
    requires OfPlan(o, plan, es) && OnePayload(es)
    ensures LongestPrefix(o, plan, Run(EMPTY, Commands(es)), Delivered(es))
  {
    if es != [] {
      var front, last := es[..|es| - 1], es[|es| - 1];
      AnyOrderConverges(o, plan, front);
      DeliveredKeys(o, plan, front);
      assert Commands(es)[..|es| - 1] == Commands(front);
      if KeyOf(last) in Delivered(front) {
        var i :| 0 <= i < |front| && front[i] == Delivered(front)[KeyOf(last)];
        assert es[i] == front[i] && SeqOf(es[i]) == SeqOf(last);
      }
      DeliverOne(o, plan, Run(EMPTY, Commands(front)), Delivered(front), last);
    }
  }

  /** The description leaves no freedom: one set of deliveries, one ledger. */
  lemma PrefixIsUnique(o: OrderId, plan: PlanId, a: Ledger, b: Ledger, got: Buffer)
    requires LongestPrefix(o, plan, a, got) && LongestPrefix(o, plan, b, got)
    ensures a == b
  {
    FilledAt(o, plan, a.notes, got, |b.notes|);
    FilledAt(o, plan, b.notes, got, |a.notes|);
    forall i | 0 <= i < |a.notes| ensures a.notes[i] == b.notes[i] {
      FilledAt(o, plan, a.notes, got, i);
      FilledAt(o, plan, b.notes, got, i);
    }
    assert a.notes == b.notes;
    assert a.row == b.row;
    assert a.pending == b.pending;
  }

  /** Two delivery sequences of the same events, however ordered and repeated, end in the same ledger. */
  lemma OrderAndRepeatsDoNotMatter(o: OrderId, plan: PlanId, es: seq<Step>, fs: seq<Step>)
    requires OfPlan(o, plan, es) && OnePayload(es)
    requires OfPlan(o, plan, fs)
    requires (forall e | e in es :: e in fs) && (forall f | f in fs :: f in es)
    ensures Run(EMPTY, Commands(es)) == Run(EMPTY, Commands(fs))
  {
    DeliveredKeys(o, plan, es);
    DeliveredKeys(o, plan, fs);
    forall i, j | 0 <= i < |fs| && 0 <= j < |fs| && SeqOf(fs[i]) == SeqOf(fs[j]) ensures fs[i] == fs[j] {
      assert fs[i] in es && fs[j] in es;
    }
    forall key | key in Delivered(es) ensures key in Delivered(fs) && Delivered(fs)[key] == Delivered(es)[key] {
      var e := Delivered(es)[key];
      assert e in fs && KeyOf(e) == key;
      var f := Delivered(fs)[key];
      assert f in es && KeyOf(f) == key;
    }
    forall key | key in Delivered(fs) ensures key in Delivered(es) {
      var f := Delivered(fs)[key];
      assert f in es && KeyOf(f) == key;
    }
    assert Delivered(es) == Delivered(fs);
    AnyOrderConverges(o, plan, es);
    AnyOrderConverges(o, plan, fs);
    PrefixIsUnique(o, plan, Run(EMPTY, Commands(es)), Run(EMPTY, Commands(fs)), Delivered(es));
  }
}

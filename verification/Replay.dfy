/**
 Why a crash is harmless. A consumer that restarts resumes from an offset at or below
 the ones it already processed, so it sees old records again, in any pattern, but never
 skips ahead. Here is when, and exactly when, that reaches the state of one clean pass.
 */
module Replay {
  import opened Models
  import opened Sequencing
  import opened Ledger

  /** A Kafka record: its value parses as an envelope or it does not. */
  datatype Record = Unparsable(raw: string) | Parsed(event: Event)

  predicate Concerns(r: Record, o: OrderId) {
    r.Parsed? && r.event.orderId == o
  }

  /** What handling `r` does to the ledger of order `o`; records that are not for it do nothing. */
  function Handle(o: OrderId, l: Ledger, r: Record): Ledger {
    if r.Parsed? && r.event.orderId == o then
      if IsStep(r.event) then DeliverStep(l, r.event)
      else if IsAbort(r.event) then DeliverAbort(l, r.event)
      else l
    else l
  }

  /** One clean pass over the first `n` records, for an order nobody had used. */
  function Pass(o: OrderId, log: seq<Record>, n: nat): Ledger
    requires n <= |log|
  {
    if n == 0 then EMPTY else Handle(o, Pass(o, log, n - 1), log[n - 1])
  }

  predicate Within(offsets: seq<nat>, n: nat) {
    forall i | 0 <= i < |offsets| :: offsets[i] < n
  }

  /** Processing records in the order of `offsets`, which may go back after a crash. */
  function Processed(o: OrderId, log: seq<Record>, offsets: seq<nat>): Ledger
    requires Within(offsets, |log|)
  {
    if offsets == [] then EMPTY
    else Handle(o, Processed(o, log, offsets[..|offsets| - 1]), log[offsets[|offsets| - 1]])
  }

  /** One past the highest offset processed. */
  function High(offsets: seq<nat>): nat {
    if offsets == [] then 0
    else
      var h, last := High(offsets[..|offsets| - 1]), offsets[|offsets| - 1];
      if last < h then h else last + 1
  }

  /** `High` is the end of the highest one. */
  lemma {:induction false} HighMeans(offsets: seq<nat>)
    ensures forall n | n in offsets :: n < High(offsets)
    ensures offsets != [] ==> 0 < High(offsets) && High(offsets) - 1 in offsets
    ensures offsets == [] ==> High(offsets) == 0
  {
    if offsets != [] {
      var front, last := offsets[..|offsets| - 1], offsets[|offsets| - 1];
      HighMeans(front);
      assert offsets == front + [last];
    }
  }

  /** Each processed record is an old one or the next one: nothing is skipped. */
  predicate NoSkip(offsets: seq<nat>) {
    if offsets == [] then true
    else NoSkip(offsets[..|offsets| - 1]) && offsets[|offsets| - 1] <= High(offsets[..|offsets| - 1])
  }

  lemma {:induction false} HandleKeepsGood(o: OrderId, l: Ledger, r: Record)
    requires Good(o, l)
    ensures Good(o, Handle(o, l, r))
  {
    if r.Parsed? && r.event.orderId == o {
      if IsStep(r.event) {
        StepKeepsGood(o, l, r.event);
      } else if IsAbort(r.event) {
        AbortKeepsGood(o, l, r.event);
      }
    }
  }

  lemma {:induction false} PassIsGood(o: OrderId, log: seq<Record>, n: nat)
    requires n <= |log|
    ensures Good(o, Pass(o, log, n))
  {
    if n > 0 {
      PassIsGood(o, log, n - 1);
      HandleKeepsGood(o, Pass(o, log, n - 1), log[n - 1]);
    }
  }

  /* ----- one record ----- */

  predicate HasStatus(l: Ledger, s: Status) {
    l.row.Some? && l.row.value.status == s
  }

  /** Ownership, progress and abortion are permanent. */
  ghost predicate Later(l: Ledger, l': Ledger) {
    l.row.Some? ==>
      && l'.row.Some?
      && l'.row.value.planId == l.row.value.planId
      && l.row.value.lastSeq <= l'.row.value.lastSeq
      && (l.row.value.status == StatusAborted ==> l'.row == l.row)
  }

  /** What an applied step does to the order, and where the events missing from the buffer went. */
  ghost predicate Moved(l: Ledger, l': Ledger, e: Step) {
    && l'.row.Some?
    && l'.row.value.planId == e.planId
    && l'.row.value.status != StatusAborted
    && SeqOf(e) <= l'.row.value.lastSeq == |l'.notes|
    && (forall k | k in l.pending && k !in l'.pending :: k.planId == e.planId && k.seqId <= l'.row.value.lastSeq)
  }

  lemma AppliedStep(o: OrderId, l: Ledger, e: Step)
    requires Good(o, l) && e.orderId == o && Decide(StateOf(l), e.planId, SeqOf(e)) == Apply
    ensures Moved(l, DeliverStep(l, e), e) && Good(o, DeliverStep(l, e))
  {
    StepDrains(o, l, e);
  }

  lemma HandleIsLater(o: OrderId, l: Ledger, r: Record)
    requires Good(o, l)
    ensures Later(l, Handle(o, l, r))
  {
    if r.Parsed? && r.event.orderId == o && IsStep(r.event) {
      var e := r.event;
      if Decide(StateOf(l), e.planId, SeqOf(e)) == Apply {
        AppliedStep(o, l, e);
      }
    }
  }

  /** Processing a record twice in a row is processing it once. */
  lemma ReplayIsAbsorbed(o: OrderId, l: Ledger, r: Record)
    requires Good(o, l)
    ensures Handle(o, Handle(o, l, r), r) == Handle(o, l, r)
  {
    if r.Parsed? && r.event.orderId == o && IsStep(r.event) {
      var e := r.event;
      if Decide(StateOf(l), e.planId, SeqOf(e)) == Apply {
        AppliedStep(o, l, e);
      }
    }
  }

  /**
   The one way to bring back an absorbed record: `r` is an ABORT_PLAN that the order
   ignored because it was completed, and `q` is the plan's next event, which applies
   after completion and takes the order to another status.
   */
  ghost predicate Reopens(o: OrderId, l: Ledger, r: Record, q: Record) {
    && r.Parsed? && r.event.orderId == o && IsAbort(r.event)
    && q.Parsed? && q.event.orderId == o && IsStep(q.event)
    && HasStatus(l, StatusCompleted)
    && r.event.planId == q.event.planId == l.row.value.planId
    && q.event.seqId == Some(l.row.value.lastSeq + 1)
    && !HasStatus(Handle(o, l, q), StatusCompleted)
  }

  /** A step that changes nothing was not applied: that would have grown the outbox. */
  lemma NotApplied(o: OrderId, l: Ledger, e: Step)
    requires Good(o, l) && e.orderId == o && DeliverStep(l, e) == l
    ensures Decide(StateOf(l), e.planId, SeqOf(e)) != Apply
  {
    if Decide(StateOf(l), e.planId, SeqOf(e)) == Apply {
      AppliedStep(o, l, e);
    }
  }

  /** A step that changed nothing is a duplicate, refused, or in the buffer; an applied `f` keeps it so. */
  lemma StaysAbsorbedUnderStep(o: OrderId, l: Ledger, e: Step, f: Step)
    requires Good(o, l) && e.orderId == f.orderId == o && DeliverStep(l, e) == l
    requires Decide(StateOf(l), f.planId, SeqOf(f)) == Apply
    ensures DeliverStep(DeliverStep(l, f), e) == DeliverStep(l, f)
  {
    NotApplied(o, l, e);
    AppliedStep(o, l, f);
    var l' := DeliverStep(l, f);
    var s := l'.row.value;
    if Decide(StateOf(l), e.planId, SeqOf(e)) == Buffer && e.planId == s.planId && KeyOf(e) in l'.pending {
      assert s.lastSeq + 2 <= KeyOf(e).seqId;
    }
  }

  lemma StaysAbsorbedUnderAbort(o: OrderId, l: Ledger, e: Step, f: Abort)
    requires Good(o, l) && e.orderId == f.orderId == o && DeliverStep(l, e) == l
    ensures DeliverStep(DeliverAbort(l, f), e) == DeliverAbort(l, f)
  {
  }

  lemma StepStaysAbsorbed(o: OrderId, l: Ledger, e: Step, q: Record)
    requires Good(o, l) && e.orderId == o && DeliverStep(l, e) == l
    ensures DeliverStep(Handle(o, l, q), e) == Handle(o, l, q)
  {
    if q.Parsed? && q.event.orderId == o {
      if IsStep(q.event) {
        if Decide(StateOf(l), q.event.planId, SeqOf(q.event)) == Apply {
          StaysAbsorbedUnderStep(o, l, e, q.event);
        } else {
          StaysAbsorbedUnderBuffer(o, l, e, q.event);
        }
      } else if IsAbort(q.event) {
        StaysAbsorbedUnderAbort(o, l, e, q.event);
      }
    }
  }

  lemma StaysAbsorbedUnderBuffer(o: OrderId, l: Ledger, e: Step, f: Step)
    requires Good(o, l) && e.orderId == f.orderId == o && DeliverStep(l, e) == l
    requires Decide(StateOf(l), f.planId, SeqOf(f)) != Apply
    ensures DeliverStep(DeliverStep(l, f), e) == DeliverStep(l, f)
  {
    NotApplied(o, l, e);
  }

  lemma AbortAbsorption(o: OrderId, l: Ledger, r: Abort, q: Record)
    requires Good(o, l) && r.orderId == o && DeliverAbort(l, r) == l
    ensures DeliverAbort(Handle(o, l, q), r) == Handle(o, l, q) <==> !Reopens(o, l, Parsed(r), q)
  {
    HandleIsLater(o, l, q);
    if q.Parsed? && q.event.orderId == o && IsStep(q.event) {
      var f := q.event;
      if Decide(StateOf(l), f.planId, SeqOf(f)) == Apply {
        AppliedStep(o, l, f);
      }
    }
  }

  /** Once absorbed, a record stays absorbed under `q`, unless `q` reopens the order it tried to abort. */
  lemma StaysAbsorbedUnlessReopened(o: OrderId, l: Ledger, r: Record, q: Record)
    requires Good(o, l) && Handle(o, l, r) == l
    ensures Handle(o, Handle(o, l, q), r) == Handle(o, l, q) <==> !Reopens(o, l, r, q)
  {
    if r.Parsed? && r.event.orderId == o {
      if IsStep(r.event) {
        StepStaysAbsorbed(o, l, r.event, q);
      } else if IsAbort(r.event) {
        AbortAbsorption(o, l, r.event, q);
      }
    }
  }

  /* ----- whole logs ----- */

  lemma {:induction false} PassIsLater(o: OrderId, log: seq<Record>, i: nat, j: nat)
    requires i <= j <= |log|
    ensures Later(Pass(o, log, i), Pass(o, log, j))
    decreases j
  {
    if i < j {
      PassIsLater(o, log, i, j - 1);
      PassIsGood(o, log, j - 1);
      HandleIsLater(o, Pass(o, log, j - 1), log[j - 1]);
    }
  }

  /** Record i is an ABORT_PLAN of the owning plan that a clean pass ignores: the order is completed. */
  ghost predicate IgnoredAbort(o: OrderId, log: seq<Record>, i: int)
    requires 0 <= i < |log|
  {
    var l := Pass(o, log, i);
    && log[i].Parsed? && log[i].event.orderId == o && IsAbort(log[i].event)
    && HasStatus(l, StatusCompleted)
    && l.row.value.planId == log[i].event.planId
  }

  ghost predicate Finished(l: Ledger) {
    HasStatus(l, StatusCompleted) || HasStatus(l, StatusAborted)
  }

  /** After an ignored abort, the clean pass never shows the order unfinished again. */
  ghost predicate AbortsStayMoot(o: OrderId, log: seq<Record>) {
    forall i, j | 0 <= i < j <= |log| && IgnoredAbort(o, log, i) :: Finished(Pass(o, log, j))
  }

  /** Every crash pattern reaches the state of one clean pass up to the highest record processed. */
  ghost predicate ReplayHarmless(o: OrderId, log: seq<Record>) {
    forall offsets: seq<nat> | Within(offsets, |log|) && NoSkip(offsets) ::
      High(offsets) <= |log| && Processed(o, log, offsets) == Pass(o, log, High(offsets))
  }

  /** An abort of the owning plan of an order that is completed later on was ignored, for being completed. */
  lemma {:induction false} CompletedWhenIgnored(o: OrderId, log: seq<Record>, i: nat, n: nat)
    requires i < n <= |log|
    requires log[i].Parsed? && log[i].event.orderId == o && IsAbort(log[i].event)
    requires HasStatus(Pass(o, log, n), StatusCompleted)
    requires Pass(o, log, n).row.value.planId == log[i].event.planId
    ensures IgnoredAbort(o, log, i)
  {
    PassIsLater(o, log, i, n);
    PassIsLater(o, log, i + 1, n);
  }

  lemma ReopenedIsOpen(o: OrderId, l: Ledger, r: Record, q: Record)
    requires Good(o, l) && Reopens(o, l, r, q)
    ensures !Finished(Handle(o, l, q))
  {
    AppliedStep(o, l, q.event);
  }

  lemma {:induction false} NeverReopened(o: OrderId, log: seq<Record>, n: nat, i: nat)
    requires i < n < |log| && AbortsStayMoot(o, log)
    ensures !Reopens(o, Pass(o, log, n), log[i], log[n])
  {
    PassIsGood(o, log, n);
    if Reopens(o, Pass(o, log, n), log[i], log[n]) {
      ReopenedIsOpen(o, Pass(o, log, n), log[i], log[n]);
      assert !Finished(Pass(o, log, n + 1));
      CompletedWhenIgnored(o, log, i, n);
    }
  }

  /** All records below n are absorbed by the state that one pass over them reaches. */
  lemma {:induction false} PassAbsorbsAll(o: OrderId, log: seq<Record>, n: nat, i: nat)
    requires i < n <= |log| && AbortsStayMoot(o, log)
    ensures Handle(o, Pass(o, log, n), log[i]) == Pass(o, log, n)
    decreases n
  {
    var l := Pass(o, log, n - 1);
    PassIsGood(o, log, n - 1);
    if i == n - 1 {
      ReplayIsAbsorbed(o, l, log[i]);
    } else {
      PassAbsorbsAll(o, log, n - 1, i);
      NeverReopened(o, log, n - 1, i);
      StaysAbsorbedUnlessReopened(o, l, log[i], log[n - 1]);
    }
  }

  lemma {:induction false} HighIsWithin(offsets: seq<nat>, n: nat)
    requires Within(offsets, n)
    ensures High(offsets) <= n
  {
    if offsets != [] {
      HighIsWithin(offsets[..|offsets| - 1], n);
    }
  }

  lemma {:induction false} CrashesReachTheCleanPass(o: OrderId, log: seq<Record>, offsets: seq<nat>)
    requires AbortsStayMoot(o, log)
    requires Within(offsets, |log|) && NoSkip(offsets)
    ensures High(offsets) <= |log| && Processed(o, log, offsets) == Pass(o, log, High(offsets))
  {
    HighIsWithin(offsets, |log|);
    if offsets != [] {
      var front, last := offsets[..|offsets| - 1], offsets[|offsets| - 1];
      CrashesReachTheCleanPass(o, log, front);
      if last < High(front) {
        PassAbsorbsAll(o, log, High(front), last);
      }
    }
  }

  function UpTo(n: nat): (s: seq<nat>)
    ensures |s| == n && forall i | 0 <= i < n :: s[i] == i
  {
    seq(n, i requires 0 <= i < n => i)
  }

  /** The schedule of a run that never crashed. */
  lemma {:induction false} InOrder(o: OrderId, log: seq<Record>, n: nat)
    requires n <= |log|
    ensures NoSkip(UpTo(n)) && High(UpTo(n)) == n && Processed(o, log, UpTo(n)) == Pass(o, log, n)
  {
    if n > 0 {
      InOrder(o, log, n - 1);
      assert UpTo(n)[..n - 1] == UpTo(n - 1);
    }
  }

  /** A run to offset j, a crash, and one record before it again: the shortest replay. */
  lemma {:induction false} OneReplay(o: OrderId, log: seq<Record>, i: nat, j: nat)
    requires i < j <= |log|
    ensures var s := UpTo(j) + [i];
      && Within(s, |log|) && NoSkip(s) && High(s) == j
      && Processed(o, log, s) == Handle(o, Pass(o, log, j), log[i])
  {
    var s := UpTo(j) + [i];
    InOrder(o, log, j);
    assert s[..j] == UpTo(j);
  }

  /**
   Replay after a crash. Processing the records of a log with any number of crashes, each
   resuming at or below what was already processed, reaches exactly the ledger of one
   clean pass - if and only if no order that ignored an abort for being completed is
   reopened later. The left side speaks of every schedule, the right side of one pass.
   */
  lemma ReplayHarmlessIff(o: OrderId, log: seq<Record>)
    ensures ReplayHarmless(o, log) <==> AbortsStayMoot(o, log)
  {
    if AbortsStayMoot(o, log) {
      forall offsets: seq<nat> | Within(offsets, |log|) && NoSkip(offsets)
        ensures High(offsets) <= |log| && Processed(o, log, offsets) == Pass(o, log, High(offsets))
      {
        CrashesReachTheCleanPass(o, log, offsets);
      }
    } else {
      var i, j :| 0 <= i < j <= |log| && IgnoredAbort(o, log, i) && !Finished(Pass(o, log, j));
      OneReplay(o, log, i, j);
      PassIsLater(o, log, i, j);
    }
  }

  /* ----- what a producer can promise ----- */

  /** No event of a plan has a larger seq than the plan's OrderCompleted. */
  ghost predicate NothingAfterCompleted(o: OrderId, log: seq<Record>) {
    forall a, b | Parsed(a) in log && Parsed(b) in log
      && IsStep(a) && IsStep(b) && a.orderId == b.orderId == o && a.planId == b.planId
      && a.eventType == OrderCompleted :: SeqOf(b) <= SeqOf(a)
  }

  ghost predicate FromLog(log: seq<Record>, l: Ledger) {
    && (forall e | e in l.notes :: Parsed(e) in log)
    && (forall k | k in l.pending :: Parsed(l.pending[k]) in log)
  }

  lemma {:induction false} DrainFromLog(log: seq<Record>, l: Ledger, o: OrderId, plan: PlanId, next: int)
    requires FromLog(log, l)
    ensures FromLog(log, Drain(l, o, plan, next))
    decreases l.pending.Keys
  {
    var k := PendingKey(o, plan, next);
    if k in l.pending {
      DrainFromLog(log, TakeOne(l, k), o, plan, next + 1);
    }
  }

  lemma {:induction false} PassFromLog(o: OrderId, log: seq<Record>, n: nat)
    requires n <= |log|
    ensures FromLog(log, Pass(o, log, n))
  {
    if n > 0 {
      PassFromLog(o, log, n - 1);
      var l, r := Pass(o, log, n - 1), log[n - 1];
      if r.Parsed? && r.event.orderId == o && IsStep(r.event) {
        DrainFromLog(log, ApplyOne(l, r.event), o, r.event.planId, SeqOf(r.event) + 1);
      }
    }
  }

  lemma {:induction false} CompletedStays(o: OrderId, log: seq<Record>, i: nat, j: nat)
    requires i <= j <= |log| && NothingAfterCompleted(o, log)
    requires HasStatus(Pass(o, log, i), StatusCompleted)
    ensures HasStatus(Pass(o, log, j), StatusCompleted)
    decreases j
  {
    if i < j {
      CompletedStays(o, log, i, j - 1);
      var l, r := Pass(o, log, j - 1), log[j - 1];
      PassIsGood(o, log, j - 1);
      PassFromLog(o, log, j - 1);
      var last := l.notes[l.row.value.lastSeq - 1];
      assert last in l.notes && Parsed(last) in log && last.eventType == OrderCompleted;
      if r.Parsed? && r.event.orderId == o && IsStep(r.event) && r.event.planId == l.row.value.planId {
        assert SeqOf(r.event) <= SeqOf(last);
      }
    }
  }

  /**
   A producer whose plans end with OrderCompleted gets the whole guarantee: any crash
   pattern reaches the ledger of one clean pass.
   */
  lemma CompletionLastMakesReplayHarmless(o: OrderId, log: seq<Record>)
    requires NothingAfterCompleted(o, log)
    ensures ReplayHarmless(o, log)
  {
    forall i, j | 0 <= i < j <= |log| && IgnoredAbort(o, log, i) ensures Finished(Pass(o, log, j)) {
      CompletedStays(o, log, i, j);
    }
    ReplayHarmlessIff(o, log);
  }

  lemma {:induction false} PassOfFour(o: OrderId, a: Step, b: Step, c: Record, d: Step, log: seq<Record>)
    requires a.orderId == b.orderId == d.orderId == o && a.planId == b.planId == d.planId
    requires SeqOf(a) == 1 && SeqOf(b) == 2 && SeqOf(d) == 3
    requires IsStep(a) && IsStep(b) && IsStep(d)
    requires log == [Parsed(a), Parsed(b), c, Parsed(d)]
    requires Handle(o, ApplyOne(ApplyOne(EMPTY, a), b), c) == ApplyOne(ApplyOne(EMPTY, a), b)
    ensures Pass(o, log, 2) == ApplyOne(ApplyOne(EMPTY, a), b)
    ensures Pass(o, log, 4) == ApplyOne(Pass(o, log, 2), d)
  {
    assert Pass(o, log, 1) == ApplyOne(EMPTY, a);
    assert Pass(o, log, 3) == Pass(o, log, 2);
  }

  /** Not every log has it: completed at seq 2, an ignored abort, then seq 3, then a crash back to the abort. */
  lemma ReplayCanAbortAReopenedOrder(o: OrderId) returns (log: seq<Record>)
    requires o.Uuid?
    ensures !ReplayHarmless(o, log)
  {
    var a := Event("a", OrderCreated, "p", Some(1), o, None, None);
    var b := Event("b", OrderCompleted, "p", Some(2), o, None, None);
    var c := Event("c", AbortPlan, "p", None, o, None, None);
    var d := Event("d", OrderShipped, "p", Some(3), o, None, None);
    log := [Parsed(a), Parsed(b), Parsed(c), Parsed(d)];
    PassOfFour(o, a, b, Parsed(c), d, log);
    assert IgnoredAbort(o, log, 2);
    assert !Finished(Pass(o, log, 4));
    ReplayHarmlessIff(o, log);
  }
}

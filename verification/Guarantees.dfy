/** What the consumer promises, over any polls, retries, sweeps, failed commits, shutdowns and restarts. */
module Guarantees {
  import opened Models
  import opened Sequencing
  import opened Ledger
  import opened Tables
  import opened Replay
  import opened Accounting
  import opened History
  import opened Consumers

  /** Settled: its outcome is committed in the database, or the DLQ acknowledged it. */
  ghost predicate SettledRecord(c: Consumer, p: nat, n: nat)
    reads c
  {
    exists h :: h in c.history && h.Handled? && h.ref == Ref(p, n)
  }

  /** Offset safety: every record below a committed offset is settled. */
  lemma CommittedIsSettled(c: Consumer, p: nat, n: nat)
    requires c.Valid() && p < |c.log| && n < c.committed[p]
    ensures n < |c.log[p]| && SettledRecord(c, p, n)
  {
    BelowHighIsProcessed(Offsets(c.history, p), n);
    OffsetsAreHandled(c.history, p, n);
  }

  /** What became of a settled record. */
  ghost predicate RecordAccounted(t: Tables, dlq: seq<Letter>, r: Record) {
    match r
    case Unparsable(raw) => RawLetter(raw, PARSE_ERROR) in dlq
    case Parsed(e) =>
      if IsStep(e) then Accounted(Gate(View(t, e.orderId), EventsIn(dlq)), e)
      else if IsAbort(e) then AbortAccounted(Gate(View(t, e.orderId), EventsIn(dlq)), e)
      else e in EventsIn(dlq)
  }

  /** The aborted order is aborted, or belongs to the plan and had completed, or the DLQ has the abort. */
  ghost predicate AbortAccounted(g: Gate, e: Abort) {
    || e in g.letters
    || (g.ledger.row.Some? && g.ledger.row.value.planId == e.planId
        && (g.ledger.row.value.status == StatusAborted || Completed(g.ledger)))
  }

  /** The order's completion is among its notifications. */
  ghost predicate Completed(l: Ledger) {
    exists n :: n in l.notes && n.eventType == OrderCompleted
  }

  lemma StepNotesGrow(o: OrderId, l: Ledger, e: Step)
    requires Good(o, l) && e.orderId == o
    ensures l.notes <= DeliverStep(l, e).notes
  {
    if Decide(StateOf(l), e.planId, SeqOf(e)) == Apply {
      StepDrains(o, l, e);
      assert l.notes <= ApplyOne(l, e).notes;
    }
  }

  lemma NotesGrow(o: OrderId, l: Ledger, r: Record)
    requires Good(o, l)
    ensures l.notes <= Handle(o, l, r).notes
  {
    if r.Parsed? && r.event.orderId == o && IsStep(r.event) {
      StepNotesGrow(o, l, r.event);
    }
  }

  lemma AbortStaysAccounted(o: OrderId, g: Gate, t: Turn, e: Abort)
    requires Good(o, g.ledger) && AbortAccounted(g, e)
    ensures AbortAccounted(Turned(o, g, t), e)
  {
    if t.Settled? {
      HandleIsLater(o, g.ledger, t.record);
      NotesGrow(o, g.ledger, t.record);
    }
  }

  lemma AbortIsAccounted(o: OrderId, g: Gate, t: Turn, e: Abort)
    requires Good(o, g.ledger) && e.orderId == o && IsAbort(e)
    requires t == Settled(Parsed(e)) || t == Refused(Parsed(e))
    ensures AbortAccounted(Turned(o, g, t), e)
  {
  }

  /** Every settled abort has taken effect, came too late, or is in the DLQ. */
  lemma {:induction false} NoAbortIsLost(o: OrderId, ts: seq<Turn>, i: nat, e: Abort)
    requires i < |ts| && e.orderId == o && IsAbort(e)
    requires ts[i] == Settled(Parsed(e)) || ts[i] == Refused(Parsed(e))
    ensures AbortAccounted(Turns(o, ts), e)
    decreases |ts|
  {
    var front, last := ts[..|ts| - 1], ts[|ts| - 1];
    TurnsAreGood(o, front);
    if i == |ts| - 1 {
      AbortIsAccounted(o, Turns(o, front), last, e);
    } else {
      NoAbortIsLost(o, front, i, e);
      AbortStaysAccounted(o, Turns(o, front), last, e);
    }
  }

  lemma {:induction false} LettersStay(o: OrderId, ts: seq<Turn>, i: nat, e: Event)
    requires i < |ts| && e.orderId == o && !IsStep(e) && !IsAbort(e)
    requires ts[i] == Settled(Parsed(e)) || ts[i] == Refused(Parsed(e))
    ensures e in Turns(o, ts).letters
    decreases |ts|
  {
    if i < |ts| - 1 {
      LettersStay(o, ts[..|ts| - 1], i, e);
    }
  }

  /** No loss: whatever happens afterwards, each settled record can be accounted for. */
  lemma SettledIsNotLost(c: Consumer, p: nat, n: nat)
    requires c.Valid() && InLog(c.log, Ref(p, n)) && SettledRecord(c, p, n)
    ensures RecordAccounted(c.store.Snapshot(), c.dlq, c.log[p][n])
  {
    var h :| h in c.history && h.Handled? && h.ref == Ref(p, n);
    var i :| 0 <= i < |c.history| && c.history[i] == h;
    var ts := TurnsOf(c.log, c.history);
    assert ts[i] == TurnOf(c.log, h);
    match c.log[p][n]
    case Unparsable(raw) =>
      assert AllInLog(c.log, c.history[..i]);
      assert OwedAt(c.log, c.history, i, RawLetter(raw, PARSE_ERROR));
    case Parsed(e) =>
      var g := Turns(e.orderId, ts);
      assert g.ledger == View(c.store.Snapshot(), e.orderId) && g.letters <= EventsIn(c.dlq);
      if IsStep(e) {
        NothingIsLost(e.orderId, ts, i, e);
      } else if IsAbort(e) {
        NoAbortIsLost(e.orderId, ts, i, e);
      } else {
        LettersStay(e.orderId, ts, i, e);
      }
  }

  /** What is committed is neither fetched again nor lost. */
  lemma CommittedIsNotLost(c: Consumer, p: nat, n: nat)
    requires c.Valid() && p < |c.log| && n < c.committed[p]
    ensures n < |c.log[p]| && RecordAccounted(c.store.Snapshot(), c.dlq, c.log[p][n])
  {
    CommittedIsSettled(c, p, n);
    SettledIsNotLost(c, p, n);
  }

  /* ----- what is in the DLQ ----- */

  lemma {:induction false} TurnsAreLater(o: OrderId, ts: seq<Turn>, i: nat)
    requires i <= |ts|
    ensures Later(Turns(o, ts[..i]).ledger, Turns(o, ts).ledger)
    decreases |ts|
  {
    if i < |ts| {
      var front, last := ts[..|ts| - 1], ts[|ts| - 1];
      TurnsAreLater(o, front, i);
      assert front[..i] == ts[..i];
      TurnsAreGood(o, front);
      if last.Settled? {
        HandleIsLater(o, Turns(o, front).ledger, last.record);
      }
    } else {
      assert ts[..i] == ts;
    }
  }

  /** A settled record of the consumer's log. */
  ghost predicate HasSettled(c: Consumer, r: Record, refused: bool)
    requires AllInLog(c.log, c.history)
    reads c
  {
    exists i :: 0 <= i < |c.history| && c.history[i].Handled?
      && RecordOf(c.log, c.history[i].ref) == r && (c.history[i].refused <==> refused)
  }

  /** Every letter has its reason: nothing is in the DLQ that did not belong there. */
  ghost predicate Reason(c: Consumer, x: Letter)
    requires AllInLog(c.log, c.history)
    reads c, c.store
  {
    match x
    case RawLetter(raw, code) =>
      code == PARSE_ERROR && exists refused :: HasSettled(c, Unparsable(raw), refused)
    case EventLetter(e, code) =>
      match code
      case PARSE_ERROR => false
      case INVALID_EVENT => Validate(e).Some? && HasSettled(c, Parsed(e), false)
      case DB_REJECTED => HasSettled(c, Parsed(e), true)
      case PLAN_MISMATCH =>
        && Validate(e).None? && HasSettled(c, Parsed(e), false)
        && OwnedElsewhere(View(c.store.Snapshot(), e.orderId), e.planId)
      case BUFFER_TIMEOUT => IsStep(e)
  }

  lemma {:induction false} BufferedAreSteps(o: OrderId, ts: seq<Turn>)
    ensures forall k | k in Turns(o, ts).ledger.pending :: IsStep(Turns(o, ts).ledger.pending[k])
  {
    if ts != [] {
      var front, last := ts[..|ts| - 1], ts[|ts| - 1];
      BufferedAreSteps(o, front);
      TurnsAreGood(o, front);
      if last.Settled? && last.record.Parsed? && last.record.event.orderId == o && IsStep(last.record.event) {
        StepBuffersSteps(o, Turns(o, front).ledger, last.record.event);
      }
    }
  }

  lemma StepBuffersSteps(o: OrderId, l: Ledger, e: Step)
    requires Good(o, l) && e.orderId == o
    ensures forall k | k in DeliverStep(l, e).pending ::
              (k in l.pending && DeliverStep(l, e).pending[k] == l.pending[k]) || DeliverStep(l, e).pending[k] == e
  {
    if Decide(StateOf(l), e.planId, SeqOf(e)) == Apply {
      StepDrains(o, l, e);
    }
  }

  /**
   The DLQ is exact. A letter is there only for its reason: it did not parse, it is invalid,
   the database rejected it, it waited too long in the buffer, or its order belongs to
   another plan - and still does, for ownership never changes.
   */
  lemma LettersHaveReasons(c: Consumer, x: Letter)
    requires c.Valid() && x in c.dlq
    ensures Reason(c, x)
  {
    var i: nat :| i < |c.history| && OwedAt(c.log, c.history, i, x);
    var front := c.history[..i];
    assert AllInLog(c.log, front);
    var h := c.history[i];
    match h
    case Handled(r, refused) =>
      assert HasSettled(c, RecordOf(c.log, r), refused);
      if x.EventLetter? && x.code == PLAN_MISMATCH {
        StillOwnedElsewhere(c, i, x.event);
      }
    case Expired(keys) => TimedOutIsStep(c, i, keys, x);
    case ExpiryFailed(keys) => TimedOutIsStep(c, i, keys, x);
  }

  lemma TimedOutIsStep(c: Consumer, i: nat, keys: set<PendingKey>, x: Letter)
    requires c.Valid() && i < |c.history| && AllInLog(c.log, c.history[..i])
    requires exists k :: k in keys && TimedOut(LedgersAfter(c.log, c.history[..i]), k, x)
    ensures x.EventLetter? && x.code == BUFFER_TIMEOUT && IsStep(x.event)
  {
    var k :| k in keys && TimedOut(LedgersAfter(c.log, c.history[..i]), k, x);
    BufferedAreSteps(k.orderId, TurnsOf(c.log, c.history[..i]));
  }

  lemma StillOwnedElsewhere(c: Consumer, i: nat, e: Event)
    requires c.Valid() && i < |c.history| && AllInLog(c.log, c.history[..i])
    requires OwnedElsewhere(LedgersAfter(c.log, c.history[..i])(e.orderId), e.planId)
    ensures OwnedElsewhere(View(c.store.Snapshot(), e.orderId), e.planId)
  {
    var ts := TurnsOf(c.log, c.history);
    assert TurnsOf(c.log, c.history[..i]) == ts[..i];
    TurnsAreLater(e.orderId, ts, i);
    assert View(c.store.Snapshot(), e.orderId) == Turns(e.orderId, ts).ledger;
  }

  /* ----- crashes ----- */

  /** Records are keyed by order: all those of `o` are in partition `p`. */
  ghost predicate KeptIn(log: Log, o: OrderId, p: nat) {
    forall q, i | 0 <= q < |log| && q != p && 0 <= i < |log[q]| :: !Concerns(log[q][i], o)
  }

  /** Nothing of order `o` expired or was rejected as data. */
  ghost predicate Undisturbed(log: Log, hs: seq<Entry>, o: OrderId)
    requires AllInLog(log, hs)
  {
    forall i | 0 <= i < |hs| :: Benign(log, hs[i], o)
  }

  ghost predicate Benign(log: Log, h: Entry, o: OrderId)
    requires h.Handled? ==> InLog(log, h.ref)
  {
    match h
    case Handled(r, refused) => refused ==> !Concerns(RecordOf(log, r), o)
    case Expired(keys) => forall k | k in keys :: k.orderId != o
    case ExpiryFailed(_) => true
  }

  /** A turn that settles a record without refusing it, or changes nothing for the order. */
  ghost predicate Regular(log: Log, h: Entry, o: OrderId, l: Ledger)
    requires h.Handled? ==> InLog(log, h.ref)
  {
    match h
    case Handled(r, refused) => refused ==> !Concerns(RecordOf(log, r), o)
    case Expired(keys) => Expire(l, keys) == l
    case ExpiryFailed(_) => true
  }

  lemma {:induction false} RecordTurn(log: Log, hs: seq<Entry>, h: Entry, o: OrderId, p: nat, l: Ledger)
    requires p < |log| && KeptIn(log, o, p)
    requires h.Handled? && InLog(log, h.ref) && Regular(log, h, o, l)
    requires Within(Offsets(hs, p), |log[p]|) && Within(Offsets(hs + [h], p), |log[p]|)
    requires l == Processed(o, log[p], Offsets(hs, p))
    ensures Turned(o, Gate(l, {}), TurnOf(log, h)).ledger == Processed(o, log[p], Offsets(hs + [h], p))
  {
    OffsetsOneMore(hs, h, p);
    if h.ref.partition == p {
      ProcessedOneMore(o, log[p], Offsets(hs, p), h.ref.offset);
    } else {
      assert !Concerns(log[h.ref.partition][h.ref.offset], o);
    }
  }

  lemma {:induction false} ProcessedOneMore(o: OrderId, log: seq<Record>, offsets: seq<nat>, n: nat)
    requires Within(offsets, |log|) && n < |log| && Within(offsets + [n], |log|)
    ensures Processed(o, log, offsets + [n]) == Handle(o, Processed(o, log, offsets), log[n])
  {
    assert (offsets + [n])[..|offsets + [n]| - 1] == offsets;
  }

  lemma {:induction false} RegularTurn(log: Log, hs: seq<Entry>, h: Entry, o: OrderId, p: nat)
    requires AllInLog(log, hs) && AllInLog(log, hs + [h]) && p < |log| && KeptIn(log, o, p)
    requires (h.Handled? ==> InLog(log, h.ref)) && Regular(log, h, o, Turns(o, TurnsOf(log, hs)).ledger)
    requires Within(Offsets(hs, p), |log[p]|) && Within(Offsets(hs + [h], p), |log[p]|)
    requires Turns(o, TurnsOf(log, hs)).ledger == Processed(o, log[p], Offsets(hs, p))
    ensures Turns(o, TurnsOf(log, hs + [h])).ledger == Processed(o, log[p], Offsets(hs + [h], p))
  {
    TurnsOneMore(o, log, hs, h);
    if h.Handled? {
      RecordTurn(log, hs, h, o, p, Turns(o, TurnsOf(log, hs)).ledger);
    } else {
      OffsetsOneMore(hs, h, p);
    }
  }

  /** Sweeping the rows of other orders changes nothing for this one. */
  lemma {:induction false} BenignIsRegular(log: Log, hs: seq<Entry>, h: Entry, o: OrderId)
    requires AllInLog(log, hs) && (h.Handled? ==> InLog(log, h.ref)) && Benign(log, h, o)
    ensures Regular(log, h, o, Turns(o, TurnsOf(log, hs)).ledger)
  {
    TurnsAreGood(o, TurnsOf(log, hs));
    if h.Expired? {
      var l := Turns(o, TurnsOf(log, hs)).ledger;
      assert l.pending - h.keys == l.pending;
    }
  }

  lemma {:induction false} HistoryIsProcessing(log: Log, hs: seq<Entry>, o: OrderId, p: nat)
    requires AllInLog(log, hs) && p < |log| && KeptIn(log, o, p) && Undisturbed(log, hs, o)
    requires Within(Offsets(hs, p), |log[p]|)
    ensures Turns(o, TurnsOf(log, hs)).ledger == Processed(o, log[p], Offsets(hs, p))
  {
    if hs != [] {
      var front, last := hs[..|hs| - 1], hs[|hs| - 1];
      assert hs == front + [last];
      OffsetsOneMore(front, last, p);
      forall i | 0 <= i < |Offsets(front, p)| ensures Offsets(front, p)[i] < |log[p]| {
        assert Offsets(front, p)[i] == Offsets(hs, p)[i];
      }
      forall i | 0 <= i < |front| ensures Benign(log, front[i], o) {
        assert Benign(log, hs[i], o);
      }
      assert Benign(log, hs[|hs| - 1], o);
      HistoryIsProcessing(log, front, o, p);
      BenignIsRegular(log, front, last, o);
      RegularTurn(log, front, last, o, p);
    }
  }

  /**
   Crashes are harmless. However often records were retried, batches were cut short,
   commits failed and the consumer restarted from the committed offset, an order none of
   whose events expired or were rejected as data has exactly the row, buffer and
   notifications of one clean pass over its partition, up to the highest record settled -
   for the logs for which that holds of any replay at all.
   */
  lemma {:induction false} CrashesAreHarmless(c: Consumer, o: OrderId, p: nat)
    requires c.Valid() && p < |c.log| && KeptIn(c.log, o, p)
    requires Undisturbed(c.log, c.history, o)
    requires AbortsStayMoot(o, c.log[p])
    ensures var n := High(Offsets(c.history, p));
      c.committed[p] <= n <= |c.log[p]| && View(c.store.Snapshot(), o) == Pass(o, c.log[p], n)
  {
    HistoryIsProcessing(c.log, c.history, o, p);
    ReplayHarmlessIff(o, c.log[p]);
    assert View(c.store.Snapshot(), o) == Turns(o, TurnsOf(c.log, c.history)).ledger;
  }

  /** Once the whole partition is settled, the order is what a clean pass makes of all its records. */
  lemma {:induction false} WholePartitionSettled(c: Consumer, o: OrderId, p: nat)
    requires c.Valid() && p < |c.log| && KeptIn(c.log, o, p)
    requires Undisturbed(c.log, c.history, o) && NothingAfterCompleted(o, c.log[p])
    requires c.committed[p] == |c.log[p]| || (c.running && c.position[p] == |c.log[p]|)
    ensures View(c.store.Snapshot(), o) == Pass(o, c.log[p], |c.log[p]|)
  {
    CompletionLastMakesReplayHarmless(o, c.log[p]);
    ReplayHarmlessIff(o, c.log[p]);
    CrashesAreHarmless(c, o, p);
    WholeIsHigh(c, p);
  }

  /** Nothing of the partition is left: all of its records have been settled. */
  lemma {:induction false} WholeIsHigh(c: Consumer, p: nat)
    requires c.Valid() && p < |c.log|
    requires c.committed[p] == |c.log[p]| || (c.running && c.position[p] == |c.log[p]|)
    ensures High(Offsets(c.history, p)) == |c.log[p]|
  {
    HighIsWithin(Offsets(c.history, p), |c.log[p]|);
  }

  /* ----- orders that never wait ----- */

  /** The database never rejected data of order `o`. */
  ghost predicate NoneRefused(log: Log, hs: seq<Entry>, o: OrderId)
    requires AllInLog(log, hs)
  {
    forall i | 0 <= i < |hs| && hs[i].Handled? && hs[i].refused :: !Concerns(RecordOf(log, hs[i].ref), o)
  }

  /** On a clean pass no event of the order comes early. */
  ghost predicate NeverBuffers(o: OrderId, log: seq<Record>) {
    forall n: nat | n <= |log| :: Pass(o, log, n).pending == map[]
  }

  lemma {:induction false} OffsetsOfFront(front: seq<Entry>, last: Entry, p: nat, n: nat)
    requires Within(Offsets(front + [last], p), n) && NoSkip(Offsets(front + [last], p))
    ensures Within(Offsets(front, p), n) && NoSkip(Offsets(front, p))
  {
    var hs := front + [last];
    OffsetsOneMore(front, last, p);
    if last.Handled? {
      HighOneMore(Offsets(front, p), last.ref.offset);
    }
    forall i | 0 <= i < |Offsets(front, p)| ensures Offsets(front, p)[i] < n {
      assert Offsets(front, p)[i] == Offsets(hs, p)[i];
    }
  }

  lemma {:induction false} NothingToExpire(log: Log, hs: seq<Entry>, o: OrderId, p: nat)
    requires AllInLog(log, hs) && p < |log| && KeptIn(log, o, p) && NoneRefused(log, hs, o)
    requires NeverBuffers(o, log[p]) && AbortsStayMoot(o, log[p])
    requires Within(Offsets(hs, p), |log[p]|) && NoSkip(Offsets(hs, p))
    ensures Turns(o, TurnsOf(log, hs)).ledger == Processed(o, log[p], Offsets(hs, p))
  {
    if hs != [] {
      var front, last := hs[..|hs| - 1], hs[|hs| - 1];
      assert hs == front + [last] && hs[|hs| - 1] == last;
      OffsetsOfFront(front, last, p, |log[p]|);
      assert forall i | 0 <= i < |front| :: front[i] == hs[i];
      NothingToExpire(log, front, o, p);
      CrashesReachTheCleanPass(o, log[p], Offsets(front, p));
      RegularTurn(log, front, last, o, p);
    }
  }

  /** For such an order a sweep finds nothing, so only rejected data could make a difference. */
  lemma {:induction false} WholePartitionInOrder(c: Consumer, o: OrderId, p: nat)
    requires c.Valid() && p < |c.log| && KeptIn(c.log, o, p)
    requires NoneRefused(c.log, c.history, o)
    requires NeverBuffers(o, c.log[p]) && NothingAfterCompleted(o, c.log[p])
    requires c.committed[p] == |c.log[p]| || (c.running && c.position[p] == |c.log[p]|)
    ensures View(c.store.Snapshot(), o) == Pass(o, c.log[p], |c.log[p]|)
  {
    CompletionLastMakesReplayHarmless(o, c.log[p]);
    ReplayHarmlessIff(o, c.log[p]);
    InOrderIsClean(c.log, c.history, o, p);
    assert View(c.store.Snapshot(), o) == Turns(o, TurnsOf(c.log, c.history)).ledger;
  }

  lemma {:induction false} InOrderIsClean(log: Log, hs: seq<Entry>, o: OrderId, p: nat)
    requires AllInLog(log, hs) && p < |log| && KeptIn(log, o, p) && NoneRefused(log, hs, o)
    requires NeverBuffers(o, log[p]) && AbortsStayMoot(o, log[p])
    requires Within(Offsets(hs, p), |log[p]|) && NoSkip(Offsets(hs, p))
    ensures High(Offsets(hs, p)) <= |log[p]|
    ensures Turns(o, TurnsOf(log, hs)).ledger == Pass(o, log[p], High(Offsets(hs, p)))
  {
    HighIsWithin(Offsets(hs, p), |log[p]|);
    NothingToExpire(log, hs, o, p);
    CrashesReachTheCleanPass(o, log[p], Offsets(hs, p));
  }
}

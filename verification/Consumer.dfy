/**
 The Kafka consumer. It settles the records of each fetched batch in order, retrying in
 place, and commits the offsets of the settled ones only. `history` records what was
 settled; the invariant ties it to the tables, to the DLQ and to the offsets.
 */
module Consumers {
  import opened Models
  import opened Sequencing
  import opened Ledger
  import opened Tables
  import opened Transactions
  import opened Replay
  import opened Accounting
  import opened Repositories
  import opened History
  import Backoff

  /** The environment of one attempt: how the database and the DLQ behave, and the time. */
  datatype Attempt = Attempt(failIn: Option<nat>, failure: StoreError, acks: bool, now: int)

  /** The environment of one sweep: the rows that the SELECT returns, the answers of the DLQ, the database. */
  datatype SweepCall = SweepCall(rows: seq<PendingKey>, accepts: seq<bool>, now: int, failIn: Option<nat>)

  /**
   The environment of one fetched record: its partition, what the sweeper does before it,
   and the attempts made at it before the context is cancelled - at least one.
   */
  datatype Visit = Visit(partition: nat, sweep: seq<SweepCall>, first: Attempt, more: seq<Attempt>)

  /** The database and the DLQ work at one of the attempts. */
  ghost predicate Recovers(visit: Visit) {
    exists a :: a in [visit.first] + visit.more && a.failIn.None? && a.acks
  }

  /** The partitions of the visits, in order. */
  function Asked(visits: seq<Visit>): (asked: seq<nat>)
    ensures |asked| == |visits| && forall i | 0 <= i < |visits| :: asked[i] == visits[i].partition
  {
    seq(|visits|, i requires 0 <= i < |visits| => visits[i].partition)
  }

  const SWEEP_BATCH := 100

  /** One poll, and whether the broker accepts the commit after it. */
  datatype Poll = Poll(visits: seq<Visit>, commits: bool)

  function AskedInAll(polls: seq<Poll>): seq<nat> {
    if polls == [] then [] else AskedInAll(polls[..|polls| - 1]) + Asked(polls[|polls| - 1].visits)
  }

  /** At one of the records the context was cancelled before the database and the DLQ had recovered. */
  ghost predicate Interrupted(poll: Poll) {
    exists visit :: visit in poll.visits && !Recovers(visit)
  }

  lemma {:induction false} FetchedOn(log: Log, from: seq<nat>, mid: seq<nat>, to: seq<nat>, polls: seq<Poll>, i: nat)
    requires i < |polls| && FetchedFor(log, mid, to, Asked(polls[i].visits))
    requires FetchedFor(log, from, mid, AskedInAll(polls[..i]))
    ensures FetchedFor(log, from, to, AskedInAll(polls[..i + 1]))
  {
    assert polls[..i + 1][..i] == polls[..i];
    forall p: nat ensures CountOf(AskedInAll(polls[..i + 1]), p) ==
                          CountOf(AskedInAll(polls[..i]), p) + CountOf(Asked(polls[i].visits), p)
    {
      CountOfBoth(AskedInAll(polls[..i]), Asked(polls[i].visits), p);
    }
  }

  class Consumer {
    const store: Repository
    /** The partitions of the topic, and the offsets committed to the broker. */
    const log: Log
    var committed: seq<nat>
    /** The next offset to fetch from each partition, and whether it still polls: in memory only. */
    var position: seq<nat>
    var running: bool
    /** What the DLQ topic acknowledged. */
    var dlq: seq<Letter>
    const pendingTTL: int
    const retryBase: int
    const retryMax: int
    ghost var history: seq<Entry>

    ghost predicate Healthy()
      reads this, store
    {
      && store.Valid()
      && Tracks(store.Snapshot(), dlq, log, history)
      && InStep(log, history, committed)
      && |position| == |log|
      && 0 < retryBase <= retryMax
    }

    /** A consumer that still polls has settled everything it fetched. */
    ghost predicate Valid()
      reads this, store
    {
      Healthy() && AtMost(committed, position) && (running ==> InStep(log, history, position))
    }

    constructor (store: Repository, log: Log, pendingTTL: int)
      requires store.Valid() && store.Snapshot() == EMPTY_TABLES
      ensures Valid() && history == [] && this.store == store && this.log == log
      ensures committed == seq(|log|, _ => 0) && position == committed && running && dlq == []
      ensures this.pendingTTL == pendingTTL && retryBase == 200 && retryMax == 10000
    {
      this.store, this.log, this.pendingTTL, dlq, history := store, log, pendingTTL, [], [];
      committed := seq(|log|, _ => 0);
      position, running := seq(|log|, _ => 0), true;
      retryBase, retryMax := 200, 10000;
      new;
      forall o ensures View(EMPTY_TABLES, o) == EMPTY {
        assert BufferOf(map[], o) == map[];
      }
    }

    /** The DLQ producer: an event counts as sent once the broker acknowledged it. */
    method Send(letter: Letter, acks: bool) returns (ok: bool)
      modifies this`dlq
      ensures ok == acks && dlq == if acks then old(dlq) + [letter] else old(dlq)
    {
      ok := acks;
      if ok {
        dlq := dlq + [letter];
      }
    }

    /** The record may be settled now: its predecessors in the partition are. */
    ghost predicate Due(ref: Ref)
      reads this, store
    {
      Healthy() && InLog(log, ref) && ref.offset <= High(Offsets(history, ref.partition))
    }

    /** Writes a settled record into the history. */
    ghost method Settle(ref: Ref, refused: bool, before: Tables, letters: seq<Letter>)
      requires store.Valid() && |position| == |log| && 0 < retryBase <= retryMax
      requires Tracks(before, letters, log, history)
      requires InStep(log, history, committed)
      requires InLog(log, ref) && ref.offset <= High(Offsets(history, ref.partition))
      requires letters <= dlq
      requires Takes(before, store.Snapshot(), TurnOf(log, Handled(ref, refused)), dlq[|letters|..])
      requires Pays(before, log, Handled(ref, refused), dlq[|letters|..])
      modifies this`history
      ensures Healthy() && history == old(history) + [Handled(ref, refused)]
    {
      var h := Handled(ref, refused);
      TracksOneMore(before, store.Snapshot(), letters, dlq[|letters|..], log, history, h);
      assert dlq == letters + dlq[|letters|..];
      InStepOneMore(log, history, committed, h);
      history := history + [h];
    }

    /** Sends an event that can never be processed to the DLQ; settled once it is acknowledged. */
    method SendAway(letter: Letter, acks: bool, ref: Ref, refused: bool) returns (settled: bool)
      requires Due(ref)
      requires Takes(store.Snapshot(), store.Snapshot(), TurnOf(log, Handled(ref, refused)), [letter])
      requires Pays(store.Snapshot(), log, Handled(ref, refused), [letter])
      modifies this`dlq, this`history
      ensures Healthy() && settled == acks
      ensures dlq == if settled then old(dlq) + [letter] else old(dlq)
      ensures history == if settled then old(history) + [Handled(ref, refused)] else old(history)
    {
      ghost var t, d := store.Snapshot(), dlq;
      settled := Send(letter, acks);
      if settled {
        assert dlq[|d|..] == [letter];
        Settle(ref, refused, t, d);
      }
    }

    /** Data the database rejects goes to the DLQ; every other failure is transient. */
    method HandleStoreError(e: Event, error: StoreError, acks: bool, ref: Ref) returns (settled: bool)
      requires Due(ref) && RecordOf(log, ref) == Parsed(e)
      modifies this`dlq, this`history
      ensures Healthy() && settled == (error.DataRejected? && acks)
      ensures dlq == if settled then old(dlq) + [EventLetter(e, DB_REJECTED)] else old(dlq)
      ensures history == if settled then old(history) + [Handled(ref, true)] else old(history)
    {
      if error.DataRejected? {
        LetterTaken(store.Snapshot(), Refused(Parsed(e)), EventLetter(e, DB_REJECTED));
        RecordPays(store.Snapshot(), log, ref, true, e.orderId);
        settled := SendAway(EventLetter(e, DB_REJECTED), acks, ref, true);
      } else {
        settled := false;
      }
    }

    /** After the transaction: an order of another plan leaves the event to the DLQ. */
    method SettleStored(e: Event, mismatch: bool, acks: bool, ref: Ref, ghost before: Tables) returns (settled: bool)
      requires store.Valid() && |position| == |log| && 0 < retryBase <= retryMax
      requires Tracks(before, dlq, log, history) && InStep(log, history, committed)
      requires InLog(log, ref) && ref.offset <= High(Offsets(history, ref.partition))
      requires RecordOf(log, ref) == Parsed(e) && Validate(e).None?
      requires mismatch <==> OwnedElsewhere(View(before, e.orderId), e.planId)
      requires mismatch ==> store.Snapshot() == before
      requires Takes(before, store.Snapshot(), TurnOf(log, Handled(ref, false)),
                     LettersFor(View(before, e.orderId), Parsed(e), false))
      modifies this`dlq, this`history
      ensures Healthy() && settled == (!mismatch || acks)
      ensures dlq == old(dlq) + if mismatch && settled then [EventLetter(e, PLAN_MISMATCH)] else []
      ensures history == if settled then old(history) + [Handled(ref, false)] else old(history)
    {
      ghost var d := dlq;
      settled := true;
      if mismatch {
        settled := Send(EventLetter(e, PLAN_MISMATCH), acks);
      }
      if settled {
        RecordPays(before, log, ref, false, e.orderId);
        assert dlq[|d|..] == LettersFor(View(before, e.orderId), Parsed(e), false);
        Settle(ref, false, before, d);
      }
    }

    method HandleSequenced(e: Step, att: Attempt, ref: Ref) returns (settled: bool, ghost refused: bool)
      requires Due(ref) && IsStep(e) && RecordOf(log, ref) == Parsed(e)
      modifies this`dlq, this`history, store
      ensures Healthy()
      ensures !settled ==> store.Snapshot() == old(store.Snapshot()) && dlq == old(dlq) && history == old(history)
      ensures settled ==> history == old(history) + [Handled(ref, refused)]
      ensures !att.acks ==> dlq == old(dlq)
      ensures settled && !refused ==>
                dlq == old(dlq) + if e.orderId in old(store.orders) && old(store.orders)[e.orderId].planId != e.planId
                                  then [EventLetter(e, PLAN_MISMATCH)] else []
      ensures settled && refused ==>
                && att.failure.DataRejected? && store.Snapshot() == old(store.Snapshot())
                && dlq == old(dlq) + [EventLetter(e, DB_REJECTED)]
      ensures settled && !refused ==>
                store.Snapshot() == DeliveredTables(old(store.Snapshot()), e, old(store.nextPosition), att.now)
      ensures att.failIn.None? ==>
                !refused && (settled || (!att.acks && OwnedElsewhere(old(store.ViewOf(e.orderId)), e.planId)))
    {
      ghost var t := store.Snapshot();
      store.failIn, store.failure := att.failIn, att.failure;
      ghost var pos := store.nextPosition;
      var res := store.ApplyEvent(e, att.now);
      if res.Err? {
        settled := HandleStoreError(e, res.error, att.acks, ref);
        refused := true;
        return;
      }
      refused := false;
      StepTaken(t, e, pos, att.now, LettersFor(View(t, e.orderId), Parsed(e), false));
      settled := SettleStored(e, res.value.outcome == PlanMismatch, att.acks, ref, t);
    }

    method HandleAbort(e: Abort, att: Attempt, ref: Ref) returns (settled: bool, ghost refused: bool)
      requires Due(ref) && IsAbort(e) && RecordOf(log, ref) == Parsed(e)
      modifies this`dlq, this`history, store
      ensures Healthy()
      ensures !settled ==> store.Snapshot() == old(store.Snapshot()) && dlq == old(dlq) && history == old(history)
      ensures settled ==> history == old(history) + [Handled(ref, refused)]
      ensures !att.acks ==> dlq == old(dlq)
      ensures settled && !refused ==>
                dlq == old(dlq) + if e.orderId in old(store.orders) && old(store.orders)[e.orderId].planId != e.planId
                                  then [EventLetter(e, PLAN_MISMATCH)] else []
      ensures settled && refused ==>
                && att.failure.DataRejected? && store.Snapshot() == old(store.Snapshot())
                && dlq == old(dlq) + [EventLetter(e, DB_REJECTED)]
      ensures settled && !refused ==>
                store.Snapshot() == AbortedTables(old(store.Snapshot()), e, old(store.nextPosition), att.now)
      ensures att.failIn.None? ==>
                !refused && (settled || (!att.acks && OwnedElsewhere(old(store.ViewOf(e.orderId)), e.planId)))
    {
      ghost var t := store.Snapshot();
      store.failIn, store.failure := att.failIn, att.failure;
      ghost var pos := store.nextPosition;
      var res := store.AbortPlan(e, att.now);
      if res.Err? {
        settled := HandleStoreError(e, res.error, att.acks, ref);
        refused := true;
        return;
      }
      refused := false;
      AbortTaken(t, e, pos, att.now, LettersFor(View(t, e.orderId), Parsed(e), false));
      settled := SettleStored(e, res.value.outcome == PlanMismatch, att.acks, ref, t);
    }

    /**
     One attempt at one record. True means settled: persisted, deliberately skipped, or
     acknowledged by the DLQ. False is transient: then nothing at all has changed.
     */
    method HandleRecord(ref: Ref, att: Attempt) returns (settled: bool, ghost refused: bool)
      requires Due(ref)
      modifies this`dlq, this`history, store
      ensures Healthy()
      ensures !settled ==> store.Snapshot() == old(store.Snapshot()) && dlq == old(dlq) && history == old(history)
      ensures settled ==> history == old(history) + [Handled(ref, refused)]
      ensures !att.acks ==> dlq == old(dlq)
      ensures settled ==>
                match RecordOf(log, ref)
                case Unparsable(raw) =>
                  dlq == old(dlq) + [RawLetter(raw, PARSE_ERROR)] && store.Snapshot() == old(store.Snapshot())
                case Parsed(e) =>
                  if refused then
                    dlq == old(dlq) + [EventLetter(e, DB_REJECTED)] && store.Snapshot() == old(store.Snapshot())
                  else if Validate(e).Some? then
                    dlq == old(dlq) + [EventLetter(e, INVALID_EVENT)] && store.Snapshot() == old(store.Snapshot())
                  else if e.orderId in old(store.orders) && old(store.orders)[e.orderId].planId != e.planId then
                    dlq == old(dlq) + [EventLetter(e, PLAN_MISMATCH)]
                  else dlq == old(dlq)
      ensures att.failIn.None? && att.acks ==> settled && !refused
    {
      var record := RecordOf(log, ref);
      refused := false;
      match record
      case Unparsable(raw) =>
        LetterTaken(store.Snapshot(), Settled(record), RawLetter(raw, PARSE_ERROR));
        RecordPays(store.Snapshot(), log, ref, false, Malformed(""));
        settled := SendAway(RawLetter(raw, PARSE_ERROR), att.acks, ref, false);
      case Parsed(e) =>
        if Validate(e).Some? {
          LetterTaken(store.Snapshot(), Settled(record), EventLetter(e, INVALID_EVENT));
          RecordPays(store.Snapshot(), log, ref, false, e.orderId);
          settled := SendAway(EventLetter(e, INVALID_EVENT), att.acks, ref, false);
        } else if e.eventType == AbortPlan {
          settled, refused := HandleAbort(e, att, ref);
        } else {
          settled, refused := HandleSequenced(e, att, ref);
        }
    }

    /**
     Retries a record in place until it is settled or the context is cancelled, which is
     after the last of `attempts`. `waits` are the delays between the attempts.
     */
    method ProcessWithRetry(ref: Ref, attempts: seq<Attempt>) returns (settled: bool, waits: seq<int>)
      requires Due(ref) && attempts != []
      modifies this`dlq, this`history, store
      ensures Healthy()
      ensures !settled ==> store.Snapshot() == old(store.Snapshot()) && dlq == old(dlq) && history == old(history)
      ensures settled ==> exists refused :: history == old(history) + [Handled(ref, refused)]
      ensures (exists i :: 0 <= i < |attempts| && attempts[i].failIn.None? && attempts[i].acks) ==> settled
      ensures |waits| < |attempts| && (!settled ==> |waits| == |attempts| - 1)
      ensures forall k | 0 <= k < |waits| :: waits[k] == Backoff.Delay(retryBase, retryMax, k)
    {
      var delay, i := retryBase, 0;
      waits := [];
      while true
        invariant i == |waits| < |attempts| && Due(ref)
        invariant delay == Backoff.Delay(retryBase, retryMax, i)
        invariant forall k | 0 <= k < i :: waits[k] == Backoff.Delay(retryBase, retryMax, k)
        invariant store.Snapshot() == old(store.Snapshot()) && dlq == old(dlq) && history == old(history)
        invariant forall k | 0 <= k < i :: !(attempts[k].failIn.None? && attempts[k].acks)
        decreases |attempts| - i
      {
        ghost var refused;
        settled, refused := HandleRecord(ref, attempts[i]);
        if settled || i == |attempts| - 1 {
          return;
        }
        Backoff.NextDelay(retryBase, retryMax, i);
        waits, delay, i := waits + [delay], Backoff.Min(delay * 2, retryMax), i + 1;
      }
    }

    /** Writes a sweep into the history, with the letters the DLQ took. */
    ghost method NoteSweep(h: Entry, before: Tables, letters: seq<Letter>)
      requires !h.Handled?
      requires store.Valid() && |position| == |log| && 0 < retryBase <= retryMax
      requires Tracks(before, letters, log, history) && InStep(log, history, committed)
      requires letters <= dlq
      requires Takes(before, store.Snapshot(), TurnOf(log, h), dlq[|letters|..])
      requires Pays(before, log, h, dlq[|letters|..])
      modifies this`history
      ensures Healthy() && history == old(history) + [h]
    {
      TracksOneMore(before, store.Snapshot(), letters, dlq[|letters|..], log, history, h);
      assert dlq == letters + dlq[|letters|..];
      InStepOneMore(log, history, committed, h);
      history := history + [h];
    }

    /** One sweep of the buffer into the DLQ. Returns whether another one follows at once. */
    method SweepOnce(call: SweepCall) returns (again: bool)
      requires Healthy() && Possible(call)
      modifies this`dlq, this`history, store
      ensures Healthy() && OnlySweeps(old(history), history)
      ensures again ==> |call.rows| == SWEEP_BATCH && history == old(history) + [Expired(KeySet(call.rows))]
      ensures !again ==> |history| == |old(history)| + 1
      ensures old(dlq) <= dlq && dlq[|old(dlq)|..] <= Timeouts(Repository.EventsOf(old(store.pending), call.rows))
      ensures forall i | 0 <= i < |dlq| - |old(dlq)| :: call.accepts[i]
      ensures |call.rows| <= 100 && forall i | 0 <= i < |call.rows| ::
                && old(store.pending)[call.rows[i]].receivedAt + pendingTTL < call.now
                && forall j | 0 <= j < i ::
                     old(store.pending)[call.rows[j]].receivedAt <= old(store.pending)[call.rows[i]].receivedAt
      ensures !again ==> history[|old(history)|].ExpiryFailed? || |call.rows| < SWEEP_BATCH
      ensures call.failIn.None? && false !in call.accepts ==>
                && again == (|call.rows| == SWEEP_BATCH)
                && history == old(history) + [Expired(KeySet(call.rows))]
                && dlq == old(dlq) + Timeouts(Repository.EventsOf(old(store.pending), call.rows))
                && store.pending == old(store.pending) - KeySet(call.rows)
    {
      ghost var t, d := store.Snapshot(), dlq;
      store.failIn, store.failure := call.failIn, TransientFailure;
      var res, sent := store.ExpirePending(call.rows, call.accepts, call.now - pendingTTL, SWEEP_BATCH);
      dlq := dlq + Timeouts(sent);
      assert dlq[|d|..] == Timeouts(sent);
      if res.Err? {
        again := false;
        SweepUndoneTaken(t, call.rows, sent);
        SweepPays(t, log, call.rows, sent, ExpiryFailed(KeySet(call.rows[..|sent|])));
        NoteSweep(ExpiryFailed(KeySet(call.rows[..|sent|])), t, d);
      } else {
        again := res.value == SWEEP_BATCH;
        SweptTaken(t, call.rows, sent);
        assert call.rows[..|sent|] == call.rows;
        SweepPays(t, log, call.rows, sent, Expired(KeySet(call.rows)));
        NoteSweep(Expired(KeySet(call.rows)), t, d);
      }
    }

    /**
     Sweeps until a batch is not full or fails; `done` counts the sweeps. `calls` ends when
     the context is cancelled, or with rows that the SELECT cannot return.
     */
    method ExpirePending(calls: seq<SweepCall>) returns (done: nat)
      requires Healthy()
      modifies this`dlq, this`history, store
      ensures Healthy() && OnlySweeps(old(history), history)
      ensures done <= |calls| && |history| == |old(history)| + done
      ensures calls != [] && old(Possible(calls[0])) ==> 0 < done
      ensures forall i | 0 <= i < done - 1 ::
                |calls[i].rows| == SWEEP_BATCH && history[|old(history)| + i] == Expired(KeySet(calls[i].rows))
      ensures done < |calls| ==>
                || !Possible(calls[done])
                || (0 < done && (history[|history| - 1].ExpiryFailed? || |calls[done - 1].rows| < SWEEP_BATCH))
    {
      done := 0;
      while done < |calls| && Possible(calls[done])
        invariant Healthy() && OnlySweeps(old(history), history)
        invariant done <= |calls| && |history| == |old(history)| + done
        invariant done == 0 && calls != [] && old(Possible(calls[0])) ==> Possible(calls[0])
        invariant forall i | 0 <= i < done ::
          |calls[i].rows| == SWEEP_BATCH && history[|old(history)| + i] == Expired(KeySet(calls[i].rows))
        decreases |calls| - done
      {
        var again := SweepOnce(calls[done]);
        done := done + 1;
        if !again {
          return;
        }
      }
    }

    /** The SELECT may return these rows now. */
    predicate Possible(call: SweepCall)
      reads this, store
    {
      Repository.SweepOf(store.pending, call.rows, call.now - pendingTTL, SWEEP_BATCH) && |call.accepts| == |call.rows|
    }

    /** PollFetches: the next records of the given partitions. All of them count as fetched. */
    method Fetch(visits: seq<Visit>) returns (batch: seq<Ref>)
      requires WithinLog(log, position)
      modifies this`position
      ensures batch == Fetched(log, old(position), Asked(visits))
      ensures position == Advance(old(position), batch) && |position| == |log|
      ensures Fetchable(log, old(position), batch) && |batch| <= |visits|
      ensures FetchedFor(log, old(position), position, Asked(visits))
    {
      batch := [];
      var i := 0;
      ghost var asked := Asked(visits);
      while i < |visits|
        invariant i <= |visits| && batch == Fetched(log, old(position), asked[..i])
        invariant position == Advance(old(position), batch) && |position| == |log|
      {
        FetchedOneMore(log, old(position), asked, i);
        var p := visits[i].partition;
        if p < |log| && position[p] < |log[p]| {
          AdvanceByOne(old(position), batch, Ref(p, position[p]));
          batch := batch + [Ref(p, position[p])];
          position := position[p := position[p] + 1];
        }
        i := i + 1;
      }
      assert asked[..i] == asked;
      FetchedMeans(log, old(position), asked);
    }

    /** What happens until record `i` of a batch is settled or the context is cancelled. */
    method HandleVisit(visit: Visit, ref: Ref, ghost start: seq<nat>, ghost batch: seq<Ref>, ghost i: nat)
      returns (settled: bool)
      requires Healthy() && Fetchable(log, start, batch) && i < |batch| && ref == batch[i]
      requires InStep(log, history, Advance(start, batch[..i]))
      requires InStep(log, history, Advance(committed, batch[..i]))
      modifies this`dlq, this`history, store
      ensures Healthy() && old(history) <= history
      ensures Refs(history) == if settled then Refs(old(history)) + [ref] else Refs(old(history))
      ensures settled ==> InStep(log, history, Advance(start, batch[..i + 1]))
      ensures InStep(log, history, Advance(committed, batch[..if settled then i + 1 else i]))
      ensures Recovers(visit) ==> settled
      ensures visit.sweep != [] && old(Possible(visit.sweep[0])) ==>
                |old(history)| + (if settled then 1 else 0) < |history|
    {
      var _ := ExpirePending(visit.sweep);
      ghost var swept := history;
      SweptInStep(log, old(history), swept, start, batch, i);
      SweepsKeepInStep(log, old(history), swept, Advance(committed, batch[..i]));
      var waits;
      settled, waits := ProcessWithRetry(ref, [visit.first] + visit.more);
      if settled {
        NextSettled(log, swept, start, batch, i, history[|swept|]);
        NextSettled(log, swept, committed, batch, i, history[|swept|]);
      }
    }

    /** Settles the batch in order, until the context is cancelled: how far it got. */
    method SettleBatch(visits: seq<Visit>, batch: seq<Ref>, ghost start: seq<nat>) returns (n: nat)
      requires Healthy() && Fetchable(log, start, batch) && |batch| <= |visits|
      requires InStep(log, history, start)
      modifies this`dlq, this`history, store
      ensures Healthy() && n <= |batch|
      ensures n == |batch| ==> InStep(log, history, Advance(start, batch))
      ensures InStep(log, history, Advance(committed, batch[..n]))
      ensures old(history) <= history && Refs(history) == Refs(old(history)) + batch[..n]
      ensures n < |batch| ==> !Recovers(visits[n])
    {
      n := 0;
      while n < |batch|
        invariant n <= |batch| && Healthy()
        invariant InStep(log, history, Advance(start, batch[..n]))
        invariant InStep(log, history, Advance(committed, batch[..n]))
        invariant old(history) <= history && Refs(history) == Refs(old(history)) + batch[..n]
      {
        var settled := HandleVisit(visits[n], batch[n], start, batch, n);
        if !settled {
          return;
        }
        assert batch[..n + 1] == batch[..n] + [batch[n]];
        n := n + 1;
      }
      assert batch[..n] == batch;
    }

    /**
     One round of the loop. The batch is settled in order up to the record at which the
     context was cancelled, if it was; exactly the settled part is committed, and a batch
     that was left early is the last one.
     */
    method PollOnce(poll: Poll) returns (batch: seq<Ref>, n: nat)
      requires Valid() && running
      modifies this`committed, this`position, this`running, this`dlq, this`history, store
      ensures Valid()
      ensures Fetchable(log, old(position), batch) && position == Advance(old(position), batch)
      ensures FetchedFor(log, old(position), position, Asked(poll.visits))
      ensures n <= |batch| && running == (n == |batch|)
      ensures !running ==> Interrupted(poll)
      ensures old(history) <= history && Refs(history) == Refs(old(history)) + batch[..n]
      ensures committed == if poll.commits then Advance(old(committed), batch[..n]) else old(committed)
      ensures AtMost(old(committed), committed)
    {
      PositionsWithin();
      batch := Fetch(poll.visits);
      n := SettleBatch(poll.visits, batch, old(position));
      running := n == |batch|;
      AdvanceForward(log, committed, old(position), batch, n);
      AdvanceForward(log, committed, old(position), batch, 0);
      Commit(batch[..n], poll.commits);
    }

    lemma PositionsWithin()
      requires Valid() && running
      ensures WithinLog(log, position)
    {
      forall p | 0 <= p < |log| ensures position[p] <= |log[p]| {
        HighIsWithin(Offsets(history, p), |log[p]|);
      }
    }

    /** Commits the offset after the last settled record of each partition. A failed commit is not fatal. */
    method Commit(settled: seq<Ref>, accepted: bool)
      requires Healthy()
      requires InStep(log, history, Advance(committed, settled))
      modifies this`committed
      ensures Healthy()
      ensures committed == if accepted then Advance(old(committed), settled) else old(committed)
    {
      if accepted {
        var i := 0;
        while i < |settled|
          invariant i <= |settled| && committed == Advance(old(committed), settled[..i])
        {
          AdvanceStep(old(committed), settled, i);
          if settled[i].partition < |committed| {
            committed := committed[settled[i].partition := settled[i].offset + 1];
          }
          i := i + 1;
        }
        assert settled[..i] == settled;
      }
    }

    method PollNext(polls: seq<Poll>, i: nat, ghost from: seq<nat>, ghost low: seq<nat>)
      requires Valid() && running && i < |polls| && AtMost(low, committed)
      requires FetchedFor(log, from, position, AskedInAll(polls[..i]))
      modifies this`committed, this`position, this`running, this`dlq, this`history, store
      ensures Valid() && old(history) <= history && AtMost(low, committed)
      ensures !running ==> Interrupted(polls[i])
      ensures FetchedFor(log, from, position, AskedInAll(polls[..i + 1]))
    {
      ghost var was := position;
      var _, _ := PollOnce(polls[i]);
      FetchedOn(log, from, was, position, polls, i);
    }

    /**
     Polls until the context is cancelled. Committed offsets never go back; and if the
     database and the DLQ recover at every record, everything that was asked for is fetched
     and settled.
     */
    method Run(polls: seq<Poll>)
      requires Valid()
      modifies this`committed, this`position, this`running, this`dlq, this`history, store
      ensures Valid()
      ensures old(history) <= history && AtMost(old(committed), committed)
      ensures old(running) && !running ==> exists poll :: poll in polls && Interrupted(poll)
      ensures running ==> old(running) && FetchedFor(log, old(position), position, AskedInAll(polls))
    {
      if !running {
        return;
      }
      var i := 0;
      PositionsWithin();
      while running && i < |polls|
        invariant Valid() && i <= |polls| && old(history) <= history && AtMost(old(committed), committed)
        invariant old(running) && !running ==> exists poll :: poll in polls && Interrupted(poll)
        invariant old(running) && FetchedFor(log, old(position), position, AskedInAll(polls[..i]))
        decreases |polls| - i
      {
        PollNext(polls, i, old(position), old(committed));
        i := i + 1;
      }
      assert running ==> polls[..i] == polls;
    }

    /** A new process starts where the committed offsets say: whatever was in memory is gone. */
    method Restart()
      requires Valid()
      modifies this`position, this`running
      ensures Valid() && running && position == committed
    {
      position, running := committed, true;
    }
  }
}

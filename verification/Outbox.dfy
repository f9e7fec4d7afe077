/** Delivery state of outbox rows: who may be claimed, and what each recorded outcome changes. */
module Outbox {
  import opened Models
  import opened Tables
  import opened Transactions
  import Backoff

  /** `longest` bounds a delivery; `booking` is how long after its start its outcome can still be recorded. */
  datatype Config = Config(
    batchSize: nat, workers: nat, longest: nat, booking: nat, lease: nat,
    maxAttempts: nat, retryBase: nat, retryMax: nat)

  predicate Configured(c: Config) {
    1 <= c.batchSize && 1 <= c.workers && 1 <= c.maxAttempts && 1 <= c.retryBase && 1 <= c.retryMax
  }

  /** Within an aggregate, positions rise with insertion. */
  ghost predicate InPositionOrder(rows: seq<OutboxRow>) {
    forall i, j | 0 <= i < j < |rows| && rows[i].event.orderId == rows[j].event.orderId ::
      rows[i].position < rows[j].position
  }

  /** ... and the next position to be drawn is above all of them. */
  ghost predicate Positioned(rows: seq<OutboxRow>, next: nat) {
    InPositionOrder(rows) && forall i | 0 <= i < |rows| :: rows[i].position < next
  }

  /** Rows added at consecutive positions from `from` on, drawn after all those there, keep the order. */
  lemma GrownIsPositioned(before: seq<OutboxRow>, after: seq<OutboxRow>, from: nat, now: int)
    requires Positioned(before, from) && Grown(before, after, from, now)
    ensures Positioned(after, from + |after| - |before|)
  {
    forall i | 0 <= i < |after|
      ensures after[i].position == if i < |before| then before[i].position else from + i - |before|
    {
    }
  }

  /** Waiting for delivery or a retry; the others are settled. */
  predicate Live(r: OutboxRow) {
    !r.processed && !r.dead
  }

  /** The oldest live row of its aggregate. */
  predicate Head(rows: seq<OutboxRow>, i: nat)
    requires i < |rows|
  {
    && Live(rows[i])
    && forall j | 0 <= j < |rows| && rows[j].event.orderId == rows[i].event.orderId
         && rows[j].position < rows[i].position :: !Live(rows[j])
  }

  /** A row that a claim made at `now` may lease. */
  predicate Eligible(rows: seq<OutboxRow>, i: nat, now: int)
    requires i < |rows|
  {
    && Head(rows, i)
    && rows[i].nextAttemptAt <= now
    && (rows[i].leaseUntil.None? || rows[i].leaseUntil.value < now)
  }

  function EligibleRows(rows: seq<OutboxRow>, now: int): set<nat> {
    set i: nat | i < |rows| && Eligible(rows, i, now)
  }

  function Leased(rows: seq<OutboxRow>, picked: set<nat>, until: int): (leased: seq<OutboxRow>)
    ensures |leased| == |rows|
    ensures forall i: nat | i < |rows| ::
      leased[i] == if i in picked then rows[i].(leaseUntil := Some(until)) else rows[i]
  {
    seq(|rows|, i requires 0 <= i < |rows| =>
      if i in picked then rows[i].(leaseUntil := Some(until)) else rows[i])
  }

  /** What came of a delivery: the circuit breaker refused it, the request failed, or there is a status. */
  datatype Answer = BreakerRefused | NoAnswer | Status(code: int)

  /** How it is recorded. */
  datatype Mark = MarkDelivered | Release | MarkFailed(retryIn: int, dead: bool)

  predicate Success(code: int) {
    200 <= code < 300
  }

  predicate Retryable(code: int) {
    code >= 500 || code == 408 || code == 429
  }

  /** The mark for the answer to attempt number `attempt`; `cancelled` is the shutdown of the dispatcher. */
  function MarkFor(answer: Answer, cancelled: bool, attempt: nat, c: Config): Mark {
    var failed := answer.NoAnswer? || (answer.Status? && Retryable(answer.code));
    if answer.Status? && Success(answer.code) then MarkDelivered
    else if answer.BreakerRefused? || (failed && cancelled) then Release
    else if failed then
      MarkFailed(Backoff.Delay(c.retryBase, c.retryMax, if attempt == 0 then 0 else attempt - 1),
                 attempt >= c.maxAttempts)
    else MarkFailed(0, true)
  }

  /**
   Only a 2xx is a delivery; a refusal by the circuit breaker costs no attempt; a client
   error other than 408 and 429 is final at once; and a retry is scheduled only while
   attempts are left.
   */
  lemma MarksMean(answer: Answer, cancelled: bool, attempt: nat, c: Config)
    ensures var m := MarkFor(answer, cancelled, attempt, c);
      && (m == MarkDelivered <==> answer.Status? && answer.code / 100 == 2)
      && (answer == BreakerRefused || (answer == NoAnswer && cancelled) ==> m == Release)
      && (answer.Status? && answer.code / 100 == 4 && answer.code !in {408, 429} ==> m == MarkFailed(0, true))
      && (answer.Status? && (answer.code in {408, 429} || answer.code / 100 == 5) && !cancelled ==>
            m.MarkFailed? && (m.dead <==> c.maxAttempts <= attempt))
      && (m.MarkFailed? && !m.dead ==> attempt < c.maxAttempts && !cancelled)
  {
  }

  /** Delivered, failed or released; `dead_at = CASE WHEN dead THEN NOW() END`, so recording a retry clears it. */
  function Recorded(r: OutboxRow, m: Mark, now: int): OutboxRow {
    match m
    case MarkDelivered => r.(processed := true, attempts := r.attempts + 1, leaseUntil := None)
    case MarkFailed(retryIn, dead) =>
      r.(attempts := r.attempts + 1, leaseUntil := None, nextAttemptAt := now + retryIn, dead := dead)
    case Release => r.(leaseUntil := None)
  }

  /** No delivery bookkeeping changes which events were recorded, or their order. */
  predicate SameEvents(a: seq<OutboxRow>, b: seq<OutboxRow>) {
    |a| == |b| && forall i | 0 <= i < |a| :: a[i].event == b[i].event && a[i].position == b[i].position
  }

  lemma {:induction false} SameEventsSameNotes(a: seq<OutboxRow>, b: seq<OutboxRow>, o: OrderId)
    requires SameEvents(a, b)
    ensures NotesOf(a, o) == NotesOf(b, o)
  {
    if a != [] {
      SameEventsSameNotes(a[..|a| - 1], b[..|b| - 1], o);
    }
  }

  /** Delivery bookkeeping is invisible to the orders. */
  lemma SameViews(t: Tables, t': Tables)
    requires AllGood(t) && t'.orders == t.orders && t'.pending == t.pending && SameEvents(t.outbox, t'.outbox)
    ensures AllGood(t') && forall o :: View(t', o) == View(t, o)
  {
    forall o ensures View(t', o) == View(t, o) {
      SameEventsSameNotes(t.outbox, t'.outbox, o);
    }
  }

  /* ----- claims ----- */

  /** A claimed entry; `attempts` are those made before it. */
  datatype OutboxEntry = OutboxEntry(id: nat, event: Event, attempts: nat)

  function IdsOf(entries: seq<OutboxEntry>): (ids: set<nat>) {
    set e | e in entries :: e.id
  }

  /** The `limit` oldest of the candidates, or all of them if they are fewer, each once. */
  ghost predicate OldestOf(rows: seq<OutboxRow>, entries: seq<OutboxEntry>, candidates: set<nat>, limit: nat) {
    && |entries| <= limit
    && (forall i | 0 <= i < |entries| ::
          var e := entries[i];
          e.id in candidates && e.id < |rows| && e.event == rows[e.id].event && e.attempts == rows[e.id].attempts)
    && (forall i, j | 0 <= i < j < |entries| :: entries[i].id != entries[j].id)
    && (forall k | k in candidates && k !in IdsOf(entries) ::
          |entries| == limit && k < |rows| && forall e | e in entries :: rows[e.id].position <= rows[k].position)
  }

  predicate Oldest(rows: seq<OutboxRow>, i: nat, candidates: set<nat>) {
    && i in candidates && i < |rows|
    && forall k | k in candidates && k < |rows| :: rows[i].position <= rows[k].position
  }

  lemma {:induction false} OldestExists(rows: seq<OutboxRow>, candidates: set<nat>)
    requires candidates != {} && forall k | k in candidates :: k < |rows|
    ensures exists i :: Oldest(rows, i, candidates)
    decreases |candidates|
  {
    var x :| x in candidates;
    var others := candidates - {x};
    assert forall k | k in candidates :: k == x || k in others;
    if others == {} {
      assert Oldest(rows, x, candidates);
    } else {
      OldestExists(rows, others);
      var i: nat :| Oldest(rows, i, others);
      assert Oldest(rows, if rows[x].position <= rows[i].position then x else i, candidates);
    }
  }

  /** The first live row of the aggregate among those from `from` on. */
  function FirstLive(rows: seq<OutboxRow>, o: OrderId, from: nat): (first: Option<nat>)
    decreases |rows| - from
  {
    if |rows| <= from then None
    else if rows[from].event.orderId == o && !rows[from].processed && !rows[from].dead then Some(from)
    else FirstLive(rows, o, from + 1)
  }

  lemma {:induction false} FirstLiveMeans(rows: seq<OutboxRow>, o: OrderId, from: nat)
    ensures match FirstLive(rows, o, from)
            case None => forall j | from <= j < |rows| && rows[j].event.orderId == o :: !Live(rows[j])
            case Some(i) =>
              && from <= i < |rows| && rows[i].event.orderId == o && Live(rows[i])
              && forall j | from <= j < i && rows[j].event.orderId == o :: !Live(rows[j])
    decreases |rows| - from
  {
    if from < |rows| {
      FirstLiveMeans(rows, o, from + 1);
    }
  }

  /** Every aggregate with something left to deliver has one head: its first live row. */
  lemma {:induction false} HeadIsFirstLive(rows: seq<OutboxRow>, i: nat)
    requires InPositionOrder(rows) && i < |rows|
    ensures Head(rows, i) <==> FirstLive(rows, rows[i].event.orderId, 0) == Some(i)
  {
    FirstLiveMeans(rows, rows[i].event.orderId, 0);
  }

  /** An entry may be claimed: it is next in its aggregate, due, and no lease on it is running. */
  lemma {:induction false} EligibleMeans(rows: seq<OutboxRow>, i: nat, now: int)
    requires InPositionOrder(rows) && i < |rows|
    ensures Eligible(rows, i, now) <==>
            && FirstLive(rows, rows[i].event.orderId, 0) == Some(i)
            && rows[i].nextAttemptAt <= now
            && (forall end :: rows[i].leaseUntil == Some(end) ==> end < now)
  {
    HeadIsFirstLive(rows, i);
  }

  /**
   What a claim takes: entries that may be claimed and are not locked, each as its row has
   it, no two of one aggregate; all there are, or `limit` of them, none younger than one
   that was left.
   */
  lemma {:induction false} ClaimMeans(
    rows: seq<OutboxRow>, entries: seq<OutboxEntry>, locked: set<nat>, limit: nat, now: int)
    requires InPositionOrder(rows) && OldestOf(rows, entries, EligibleRows(rows, now) - locked, limit)
    ensures forall k | 0 <= k < |entries| ::
              && entries[k].id < |rows| && entries[k].id !in locked && Eligible(rows, entries[k].id, now)
              && entries[k] == OutboxEntry(entries[k].id, rows[entries[k].id].event, rows[entries[k].id].attempts)
    ensures forall j, k | 0 <= j < k < |entries| :: entries[j].event.orderId != entries[k].event.orderId
    ensures |entries| <= limit
    ensures forall i: nat | i < |rows| && i !in locked && Eligible(rows, i, now) && i !in IdsOf(entries) ::
              |entries| == limit && forall k | 0 <= k < |entries| :: rows[entries[k].id].position <= rows[i].position
  {
    forall j, k | 0 <= j < k < |entries| ensures entries[j].event.orderId != entries[k].event.orderId {
      HeadIsFirstLive(rows, entries[j].id);
      HeadIsFirstLive(rows, entries[k].id);
    }
    forall i: nat | i < |rows| && i !in locked && Eligible(rows, i, now) && i !in IdsOf(entries)
      ensures |entries| == limit && forall k | 0 <= k < |entries| :: rows[entries[k].id].position <= rows[i].position
    {
      assert i in EligibleRows(rows, now) - locked;
      assert forall k | 0 <= k < |entries| :: entries[k] in entries;
    }
  }
}

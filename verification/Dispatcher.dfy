/** One dispatcher: it claims a batch, sends each entry, and records what came of it. */
module Dispatchers {
  import opened Models
  import opened Tables
  import opened Outbox
  import opened Repositories
  import Backoff

  /** The environment of one delivery: the answer, a shutdown meanwhile, how long it took, and the database then. */
  datatype Trip = Trip(answer: Answer, cancelled: bool, took: nat, failIn: Option<nat>, now: int)

  /** The rows of `done`, and no others, became processed. */
  ghost predicate DeliveredOf(was: seq<OutboxRow>, rows: seq<OutboxRow>, done: set<nat>) {
    |rows| == |was| && forall i | 0 <= i < |rows| :: rows[i].processed == (was[i].processed || i in done)
  }

  ghost predicate SameOrders(t: Tables, t': Tables) {
    t'.orders == t.orders && t'.pending == t.pending && SameEvents(t.outbox, t'.outbox)
  }

  function MarkedRow(c: Config, r: OutboxRow, e: OutboxEntry, trip: Trip, booked: bool): OutboxRow {
    if booked then Recorded(r, MarkFor(trip.answer, trip.cancelled, e.attempts + 1, c), trip.now) else r
  }

  /**
   What a recorded answer does to the row, attempt by attempt: a 2xx and a failure count
   one; the last allowed failure is final, and any other is due again after
   min(retryBase * 2^attempts, retryMax); a refusal by the breaker, or a failure during a
   shutdown, only ends the lease; every other status is final at once.
   */
  lemma MarkedRowMeans(c: Config, r: OutboxRow, e: OutboxEntry, trip: Trip)
    ensures MarkedRow(c, r, e, trip, false) == r
    ensures var marked, a := MarkedRow(c, r, e, trip, true), trip.answer;
      var failed := a == NoAnswer || (a.Status? && (a.code == 408 || a.code == 429 || 500 <= a.code));
      && (a.Status? && 200 <= a.code <= 299 ==>
            marked == r.(processed := true, attempts := r.attempts + 1, leaseUntil := None))
      && (a == BreakerRefused || (failed && trip.cancelled) ==> marked == r.(leaseUntil := None))
      && (failed && !trip.cancelled ==>
            marked == r.(attempts := r.attempts + 1, leaseUntil := None,
                         nextAttemptAt := trip.now + Backoff.Min(c.retryBase * Backoff.Pow2(e.attempts), c.retryMax),
                         dead := c.maxAttempts <= e.attempts + 1))
      && (a.Status? && (a.code < 200 || 300 <= a.code < 408 || 408 < a.code < 429 || 429 < a.code < 500) ==>
            marked == r.(attempts := r.attempts + 1, leaseUntil := None, nextAttemptAt := trip.now, dead := true))
  {
    Backoff.ClosedForm(c.retryBase, c.retryMax, e.attempts);
  }

  /** The rows after the outcomes of `entries` were recorded, where the bookkeeping did not fail. */
  function MarkedRows(
    c: Config, rows: seq<OutboxRow>, entries: seq<OutboxEntry>, trips: seq<Trip>, booked: seq<bool>)
    : (r: seq<OutboxRow>)
    requires |booked| == |entries| <= |trips|
    ensures |r| == |rows|
  {
    if entries == [] then rows
    else
      var n := |entries| - 1;
      var front, id := MarkedRows(c, rows, entries[..n], trips, booked[..n]), entries[n].id;
      if id < |front| then front[id := MarkedRow(c, front[id], entries[n], trips[n], booked[n])] else front
  }

  /** How many of them were recorded as delivered. */
  function DeliveredCount(c: Config, entries: seq<OutboxEntry>, trips: seq<Trip>, booked: seq<bool>): nat
    requires |booked| == |entries| <= |trips|
  {
    if entries == [] then 0
    else
      var n := |entries| - 1;
      DeliveredCount(c, entries[..n], trips, booked[..n])
      + if booked[n] && MarkOfTrip(c, entries[n], trips[n]) == MarkDelivered then 1 else 0
  }

  function MarkOfTrip(c: Config, e: OutboxEntry, trip: Trip): Mark {
    MarkFor(trip.answer, trip.cancelled, e.attempts + 1, c)
  }

  predicate DifferentRows(rows: seq<OutboxRow>, entries: seq<OutboxEntry>) {
    && (forall i | 0 <= i < |entries| :: entries[i].id < |rows|)
    && (forall i, j | 0 <= i < j < |entries| :: entries[i].id != entries[j].id)
  }

  lemma OldestAreDifferent(
    was: seq<OutboxRow>, rows: seq<OutboxRow>, entries: seq<OutboxEntry>, candidates: set<nat>, limit: nat)
    requires OldestOf(was, entries, candidates, limit) && |rows| == |was|
    ensures DifferentRows(rows, entries)
  {
  }

  lemma IdsOfFront(entries: seq<OutboxEntry>)
    requires entries != [] && forall i, j | 0 <= i < j < |entries| :: entries[i].id != entries[j].id
    ensures var n := |entries| - 1;
      IdsOf(entries) == IdsOf(entries[..n]) + {entries[n].id} && entries[n].id !in IdsOf(entries[..n])
  {
    var n := |entries| - 1;
    assert entries == entries[..n] + [entries[n]];
  }

  /** Each entry's row gets its own mark, and no other row changes: the order of recording is immaterial. */
  lemma {:induction false} MarkedRowsAt(
    c: Config, rows: seq<OutboxRow>, entries: seq<OutboxEntry>, trips: seq<Trip>, booked: seq<bool>)
    requires |booked| == |entries| <= |trips| && DifferentRows(rows, entries)
    ensures var r := MarkedRows(c, rows, entries, trips, booked);
      && (forall i | 0 <= i < |rows| && i !in IdsOf(entries) :: r[i] == rows[i])
      && (forall k | 0 <= k < |entries| ::
            r[entries[k].id] == MarkedRow(c, rows[entries[k].id], entries[k], trips[k], booked[k]))
  {
    if entries != [] {
      var n := |entries| - 1;
      MarkedRowsAt(c, rows, entries[..n], trips, booked[..n]);
      IdsOfFront(entries);
    }
  }

  /** As many rows become processed as deliveries were recorded. */
  lemma {:induction false} CountIsProcessed(
    c: Config, rows: seq<OutboxRow>, entries: seq<OutboxEntry>, trips: seq<Trip>, booked: seq<bool>)
    returns (done: set<nat>)
    requires |booked| == |entries| <= |trips| && DifferentRows(rows, entries)
    ensures |done| == DeliveredCount(c, entries, trips, booked) && done <= IdsOf(entries)
    ensures DeliveredOf(rows, MarkedRows(c, rows, entries, trips, booked), done)
  {
    done := {};
    if entries != [] {
      var n := |entries| - 1;
      done := CountIsProcessed(c, rows, entries[..n], trips, booked[..n]);
      IdsOfFront(entries);
      var front, delivered := MarkedRows(c, rows, entries[..n], trips, booked[..n]),
                              booked[n] && MarkOfTrip(c, entries[n], trips[n]) == MarkDelivered;
      done := if delivered then done + {entries[n].id} else done;
    }
  }

  lemma SameOrdersStay(t: Tables, mid: Tables, t': Tables)
    requires SameOrders(t, mid) && SameOrders(mid, t')
    ensures SameOrders(t, t')
  {
  }

  lemma {:induction false} MarkedOneMore(
    c: Config, rows: seq<OutboxRow>, entries: seq<OutboxEntry>, trips: seq<Trip>, booked: seq<bool>, k: nat, ok: bool)
    requires k < |entries| <= |trips| && |booked| == k && entries[k].id < |rows|
    ensures var front, id := MarkedRows(c, rows, entries[..k], trips, booked), entries[k].id;
      MarkedRows(c, rows, entries[..k + 1], trips, booked + [ok]) ==
      front[id := MarkedRow(c, front[id], entries[k], trips[k], ok)]
    ensures DeliveredCount(c, entries[..k + 1], trips, booked + [ok]) ==
            DeliveredCount(c, entries[..k], trips, booked)
            + if ok && MarkOfTrip(c, entries[k], trips[k]) == MarkDelivered then 1 else 0
  {
    assert entries[..k + 1][..k] == entries[..k] && (booked + [ok])[..k] == booked;
  }

  /** The oldest ready heads are leased, and each of their rows has the mark for its answer. */
  ghost predicate BatchDone(
    c: Config, was: seq<OutboxRow>, rows: seq<OutboxRow>, locked: set<nat>, now: int,
    entries: seq<OutboxEntry>, trips: seq<Trip>, booked: seq<bool>, delivered: nat)
    requires |booked| == |entries| <= |trips|
  {
    && OldestOf(was, entries, EligibleRows(was, now) - locked, c.batchSize)
    && rows == MarkedRows(c, Leased(was, IdsOf(entries), now + c.lease), entries, trips, booked)
    && delivered == DeliveredCount(c, entries, trips, booked)
  }

  /**
   Row by row: nobody else's row changes, a row whose bookkeeping failed keeps its lease and
   nothing more, and the others have their mark on top of the lease.
   */
  lemma BatchMeans(
    c: Config, was: seq<OutboxRow>, rows: seq<OutboxRow>, locked: set<nat>, now: int,
    entries: seq<OutboxEntry>, trips: seq<Trip>, booked: seq<bool>, delivered: nat)
    requires |booked| == |entries| <= |trips|
    requires BatchDone(c, was, rows, locked, now, entries, trips, booked, delivered)
    ensures |rows| == |was|
    ensures forall i | 0 <= i < |was| && i !in IdsOf(entries) :: rows[i] == was[i]
    ensures forall k | 0 <= k < |entries| ::
              && entries[k].id < |was| && entries[k].attempts == was[entries[k].id].attempts
              && var leased := was[entries[k].id].(leaseUntil := Some(now + c.lease));
                 rows[entries[k].id] ==
                 if booked[k] then MarkedRow(c, leased, entries[k], trips[k], true) else leased
  {
    var leased := Leased(was, IdsOf(entries), now + c.lease);
    MarkedRowsAt(c, leased, entries, trips, booked);
    forall k | 0 <= k < |entries| ensures entries[k].id in IdsOf(entries) {
      assert entries[k] in entries;
    }
  }

  /** The database fails, or the deadline, which runs from before the request, has passed. */
  predicate MayFail(c: Config, trip: Trip) {
    trip.failIn.Some? || trip.took > c.booking
  }

  /** Outcomes are recorded if nothing prevents it, and only before the deadline. */
  ghost predicate BookedInTime(c: Config, trips: seq<Trip>, booked: seq<bool>) {
    && |booked| <= |trips|
    && forall k | 0 <= k < |booked| ::
         (!booked[k] ==> MayFail(c, trips[k])) && (trips[k].took > c.booking ==> !booked[k])
  }

  class Dispatcher {
    const store: Repository
    const cfg: Config

    constructor (store: Repository, cfg: Config)
      ensures this.store == store && this.cfg == cfg
    {
      this.store, this.cfg := store, cfg;
    }

    /** Sends one entry and records the outcome, unless the bookkeeping fails; true if delivered. */
    method Deliver(entry: OutboxEntry, trip: Trip) returns (delivered: bool, ghost booked: bool)
      requires store.Valid() && Configured(cfg) && entry.id < |store.outbox|
      modifies store
      ensures store.Valid() && SameOrders(old(store.Snapshot()), store.Snapshot())
      ensures store.outbox ==
              old(store.outbox)[entry.id := MarkedRow(cfg, old(store.outbox)[entry.id], entry, trip, booked)]
      ensures !booked ==> trip.failIn.Some? || trip.took > cfg.booking
      ensures trip.took > cfg.booking ==> !booked
      ensures delivered == (booked && MarkOfTrip(cfg, entry, trip) == MarkDelivered)
      ensures delivered <==> booked && trip.answer.Status? && 200 <= trip.answer.code <= 299
      ensures |store.outbox| == |old(store.outbox)|
      ensures forall i | 0 <= i < |store.outbox| && i != entry.id :: store.outbox[i] == old(store.outbox)[i]
      ensures var was, row, a := old(store.outbox)[entry.id], store.outbox[entry.id], trip.answer;
              var failed := a == NoAnswer || (a.Status? && (a.code == 408 || a.code == 429 || 500 <= a.code));
              if !booked then row == was
              else if a.Status? && 200 <= a.code <= 299 then
                row == was.(processed := true, attempts := was.attempts + 1, leaseUntil := None)
              else if a == BreakerRefused || (failed && trip.cancelled) then row == was.(leaseUntil := None)
              else if failed then
                var wait := Backoff.Min(cfg.retryBase * Backoff.Pow2(entry.attempts), cfg.retryMax);
                row == was.(attempts := was.attempts + 1, leaseUntil := None, nextAttemptAt := trip.now + wait,
                            dead := cfg.maxAttempts <= entry.attempts + 1)
              else
                row == was.(attempts := was.attempts + 1, leaseUntil := None, nextAttemptAt := trip.now, dead := true)
    {
      MarkedRowMeans(cfg, store.outbox[entry.id], entry, trip);
      store.failIn := if trip.took > cfg.booking then Some(0) else trip.failIn;
      delivered, booked := RecordOutcome(entry, trip);
    }

    /** The mark for the answer, unless the bookkeeping fails. */
    method RecordOutcome(entry: OutboxEntry, trip: Trip) returns (delivered: bool, ghost booked: bool)
      requires store.Valid() && Configured(cfg) && entry.id < |store.outbox|
      modifies store
      ensures store.Valid() && SameOrders(old(store.Snapshot()), store.Snapshot())
      ensures store.outbox ==
              old(store.outbox)[entry.id := MarkedRow(cfg, old(store.outbox)[entry.id], entry, trip, booked)]
      ensures old(store.failIn).None? ==> booked
      ensures old(store.failIn) == Some(0) ==> !booked
      ensures delivered == (booked && MarkOfTrip(cfg, entry, trip) == MarkDelivered)
    {
      var attempt := entry.attempts + 1;
      var failed := trip.answer.NoAnswer? || (trip.answer.Status? && Retryable(trip.answer.code));
      delivered := false;
      var ok;
      if trip.answer.Status? && Success(trip.answer.code) {
        ok := store.MarkOutboxDelivered(entry.id, trip.now);
        delivered := ok;
      } else if trip.answer.BreakerRefused? || (failed && trip.cancelled) {
        ok := store.ReleaseOutbox(entry.id, trip.now);
      } else if failed {
        var dead := attempt >= cfg.maxAttempts;
        var retryIn, _ := Backoff.Compute(attempt, cfg.retryBase, cfg.retryMax);
        ok := store.MarkOutboxFailed(entry.id, retryIn, dead, trip.now);
      } else {
        ok := store.MarkOutboxFailed(entry.id, 0, true, trip.now);
      }
      booked := ok;
    }

    /** Delivers the claimed entries, whose rows are all different. */
    method DeliverAll(entries: seq<OutboxEntry>, trips: seq<Trip>) returns (delivered: nat, ghost booked: seq<bool>)
      requires store.Valid() && Configured(cfg) && |entries| <= |trips| && DifferentRows(store.outbox, entries)
      modifies store
      ensures store.Valid() && SameOrders(old(store.Snapshot()), store.Snapshot())
      ensures |booked| == |entries| && BookedInTime(cfg, trips, booked)
      ensures store.outbox == MarkedRows(cfg, old(store.outbox), entries, trips, booked)
      ensures delivered == DeliveredCount(cfg, entries, trips, booked)
    {
      delivered, booked := 0, [];
      for k := 0 to |entries|
        invariant store.Valid() && SameOrders(old(store.Snapshot()), store.Snapshot())
        invariant |booked| == k && BookedInTime(cfg, trips, booked)
        invariant store.outbox == MarkedRows(cfg, old(store.outbox), entries[..k], trips, booked)
        invariant delivered == DeliveredCount(cfg, entries[..k], trips, booked)
      {
        ghost var mid := store.Snapshot();
        ghost var marked;
        var ok;
        ok, marked := Deliver(entries[k], trips[k]);
        SameOrdersStay(old(store.Snapshot()), mid, store.Snapshot());
        MarkedOneMore(cfg, old(store.outbox), entries, trips, booked, k, marked);
        delivered, booked := if ok then delivered + 1 else delivered, booked + [marked];
      }
      assert entries[..|entries|] == entries;
    }

    /** Leases the oldest ready heads, which are different rows. */
    method Claim(locked: set<nat>, now: int) returns (res: Result<seq<OutboxEntry>>)
      requires store.Valid()
      modifies store
      ensures store.Valid() && SameOrders(old(store.Snapshot()), store.Snapshot())
      ensures old(store.failIn).None? ==> res.Ok?
      ensures res.Err? ==> store.outbox == old(store.outbox)
      ensures res.Ok? ==>
                && OldestOf(old(store.outbox), res.value, EligibleRows(old(store.outbox), now) - locked, cfg.batchSize)
                && store.outbox == Leased(old(store.outbox), IdsOf(res.value), now + cfg.lease)
                && DifferentRows(store.outbox, res.value)
    {
      ghost var was := store.outbox;
      res := store.ClaimOutbox(cfg.batchSize, cfg.lease, locked, now);
      if res.Ok? {
        OldestAreDifferent(was, store.outbox, res.value, EligibleRows(was, now) - locked, cfg.batchSize);
      }
    }

    method ClaimAndDeliver(locked: set<nat>, now: int, trips: seq<Trip>)
      returns (ok: bool, delivered: nat, ghost entries: seq<OutboxEntry>, ghost booked: seq<bool>)
      requires store.Valid() && Configured(cfg) && cfg.batchSize <= |trips|
      modifies store
      ensures store.Valid() && SameOrders(old(store.Snapshot()), store.Snapshot())
      ensures old(store.failIn).None? ==> ok
      ensures |booked| == |entries| <= cfg.batchSize
      ensures BookedInTime(cfg, trips, booked)
      ensures if ok then BatchDone(cfg, old(store.outbox), store.outbox, locked, now, entries, trips, booked, delivered)
              else store.outbox == old(store.outbox) && delivered == 0
    {
      delivered, entries, booked := 0, [], [];
      ghost var t := store.Snapshot();
      var res := Claim(locked, now);
      ok := res.Ok?;
      if ok {
        ghost var mid := store.Snapshot();
        entries := res.value;
        delivered, booked := DeliverAll(res.value, trips);
        SameOrdersStay(t, mid, store.Snapshot());
      }
    }

    /**
     One batch. The oldest ready heads are leased, and each of those rows gets the mark for
     its answer, unless its bookkeeping fails; all other rows stay as they were. An open
     circuit, or a claim that fails, leaves everything unclaimed. The deliveries concern
     different rows; here they are recorded in the order of the claim.
     */
    method DispatchBatch(open: bool, locked: set<nat>, failIn: Option<nat>, now: int, trips: seq<Trip>)
      returns (claimed: bool, delivered: nat, ghost entries: seq<OutboxEntry>, ghost booked: seq<bool>)
      requires store.Valid() && Configured(cfg) && cfg.batchSize <= |trips|
      modifies store
      ensures store.Valid() && SameOrders(old(store.Snapshot()), store.Snapshot())
      ensures open ==> !claimed
      ensures !open && failIn.None? ==> claimed
      ensures |booked| == |entries| <= cfg.batchSize
      ensures BookedInTime(cfg, trips, booked)
      ensures if claimed
              then BatchDone(cfg, old(store.outbox), store.outbox, locked, now, entries, trips, booked, delivered)
              else store.outbox == old(store.outbox) && delivered == 0
    {
      claimed, delivered, entries, booked := false, 0, [], [];
      if !open {
        store.failIn := failIn;
        claimed, delivered, entries, booked := ClaimAndDeliver(locked, now, trips);
      }
    }
  }
}

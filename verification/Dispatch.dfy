/**
 Several dispatchers over one outbox, as a state machine: claims, requests, replies, lost
 bookkeeping, crashes and the clock interleave in any way, and the receiver may answer
 anything, also to a request whose dispatcher has long given up.
 */
module Dispatch {
  import opened Tables
  import opened Outbox
  import opened Schedule

  datatype Phase = Queued | Requested | Answered(answer: Answer, cancelled: bool) | Over

  /**
   One claimed entry on its way through some dispatcher. In the schedule of its batch it
   gets a worker slot at `start` and leaves it at `due`; its lease ends at `leaseEnd`.
   */
  datatype Flight = Flight(
    row: nat, attempts: nat, batch: nat, start: int, due: int, leaseEnd: int, phase: Phase)

  /** What an observer of the receiver and of the dead letters sees. */
  datatype Note = Requesting(row: nat) | Replied(row: nat, code: int) | DeadLettered(row: nat)

  datatype Net = Net(now: int, rows: seq<OutboxRow>, flights: seq<Flight>, trace: seq<Note>, recorded: nat)

  datatype Action =
    | Enqueue(entry: OutboxRow)
    | Tick(d: nat)
    | Claim(picked: seq<nat>, lasts: seq<int>)
    | Request(f: nat)
    | Reply(row: nat, code: int)
    | Conclude(f: nat, answer: Answer, cancelled: bool)
    | Book(f: nat)
    | Lose(fs: set<nat>)

  function Init(rows: seq<OutboxRow>, now: int): Net {
    Net(now, rows, [], [], 0)
  }

  predicate Distinct(picked: seq<nat>) {
    forall i, j | 0 <= i < j < |picked| :: picked[i] != picked[j]
  }

  function Rows(picked: seq<nat>): set<nat> {
    set i | i in picked
  }

  /** Row i goes before row j: same aggregate, lower position. */
  predicate Before(rows: seq<OutboxRow>, i: int, j: int) {
    && 0 <= i < |rows| && 0 <= j < |rows|
    && rows[i].event.orderId == rows[j].event.orderId && rows[i].position < rows[j].position
  }

  ghost predicate Enabled(c: Config, s: Net, a: Action) {
    match a
    case Enqueue(r) =>
      && r == FreshRow(r.position, r.event, r.nextAttemptAt)
      && forall i | 0 <= i < |s.rows| && s.rows[i].event.orderId == r.event.orderId :: s.rows[i].position < r.position
    case Tick(_) => true
    case Claim(picked, lasts) =>
      && |lasts| == |picked| <= c.batchSize && Distinct(picked)
      && forall i | 0 <= i < |picked| :: picked[i] < |s.rows| && Eligible(s.rows, picked[i], s.now)
    case Request(f) => f < |s.flights| && s.flights[f].phase == Queued
    case Reply(row, _) => Requesting(row) in s.trace
    case Conclude(f, answer, _) =>
      && f < |s.flights|
      && (s.flights[f].phase == Queued ==> !answer.Status?)
      && (s.flights[f].phase == Requested ==>
            answer == NoAnswer || (answer.Status? && Replied(s.flights[f].row, answer.code) in s.trace))
      && s.flights[f].phase in {Queued, Requested}
    case Book(f) => f < |s.flights| && s.flights[f].phase.Answered? && s.flights[f].row < |s.rows|
    case Lose(_) => true
  }

  function Launch(c: Config, s: Net, picked: seq<nat>, lasts: seq<int>, i: nat): Flight
    requires 1 <= c.workers && |lasts| == |picked| && i < |picked| && picked[i] < |s.rows|
  {
    Flight(picked[i], s.rows[picked[i]].attempts, |s.flights|,
           s.now + Start(c.workers, lasts, i), s.now + End(c.workers, lasts, i), s.now + c.lease, Queued)
  }

  /** The claimed entries queue for the worker slots of their dispatcher. */
  function Launched(c: Config, s: Net, picked: seq<nat>, lasts: seq<int>): (fs: seq<Flight>)
    requires 1 <= c.workers && |lasts| == |picked|
    requires forall i | 0 <= i < |picked| :: picked[i] < |s.rows|
    ensures |fs| == |picked|
    ensures forall i | 0 <= i < |picked| ::
      fs[i] == Launch(c, s, picked, lasts, i)
  {
    seq(|picked|, i requires 0 <= i < |picked| => Launch(c, s, picked, lasts, i))
  }

  function WithPhase(s: Net, f: nat, p: Phase): seq<Flight>
    requires f < |s.flights|
  {
    s.flights[f := s.flights[f].(phase := p)]
  }

  function Landed(flights: seq<Flight>, fs: set<nat>): (landed: seq<Flight>)
    ensures |landed| == |flights|
    ensures forall i | 0 <= i < |flights| ::
      landed[i] == if i in fs then flights[i].(phase := Over) else flights[i]
  {
    seq(|flights|, i requires 0 <= i < |flights| => if i in fs then flights[i].(phase := Over) else flights[i])
  }

  /** The mark a flight asks for. The attempt number counts from the claim, not from the row. */
  function MarkOf(c: Config, f: Flight): Mark
    requires f.phase.Answered?
  {
    MarkFor(f.phase.answer, f.phase.cancelled, f.attempts + 1, c)
  }

  function Booked(c: Config, s: Net, f: nat): Net
    requires f < |s.flights| && s.flights[f].phase.Answered? && s.flights[f].row < |s.rows|
  {
    var flight, mark := s.flights[f], MarkOf(c, s.flights[f]);
    s.(rows := s.rows[flight.row := Recorded(s.rows[flight.row], mark, s.now)],
       flights := WithPhase(s, f, Over),
       trace := if mark.MarkFailed? && mark.dead then s.trace + [DeadLettered(flight.row)] else s.trace,
       recorded := if mark.Release? then s.recorded else s.recorded + 1)
  }

  function Act(c: Config, s: Net, a: Action): Net
    requires Configured(c) && Enabled(c, s, a)
  {
    match a
    case Enqueue(r) => s.(rows := s.rows + [r])
    case Tick(d) => s.(now := s.now + d)
    case Claim(picked, lasts) =>
      s.(rows := Leased(s.rows, Rows(picked), s.now + c.lease), flights := s.flights + Launched(c, s, picked, lasts))
    case Request(f) =>
      s.(flights := WithPhase(s, f, Requested), trace := s.trace + [Requesting(s.flights[f].row)])
    case Reply(row, code) => s.(trace := s.trace + [Replied(row, code)])
    case Conclude(f, answer, cancelled) => s.(flights := WithPhase(s, f, Answered(answer, cancelled)))
    case Book(f) => Booked(c, s, f)
    case Lose(fs) => s.(flights := Landed(s.flights, fs))
  }

  /** The rows that the store has written so far: within an aggregate, in position order, none delivered. */
  ghost predicate StartsFrom(rows: seq<OutboxRow>) {
    && InPositionOrder(rows)
    && forall i | 0 <= i < |rows| :: rows[i] == FreshRow(rows[i].position, rows[i].event, rows[i].nextAttemptAt)
  }

  ghost predicate IsRun(c: Config, actions: seq<Action>, states: seq<Net>) {
    && Configured(c)
    && |states| == |actions| + 1
    && (exists rows, now :: StartsFrom(rows) && states[0] == Init(rows, now))
    && forall i | 0 <= i < |actions| ::
         Enabled(c, states[i], actions[i]) && states[i + 1] == Act(c, states[i], actions[i])
  }

  /* ----- first-acceptance order ----- */

  predicate Accepted(n: Note, i: nat) {
    n.Replied? && n.row == i && Success(n.code)
  }

  ghost predicate WasAccepted(trace: seq<Note>, i: nat) {
    exists n :: n in trace && Accepted(n, i)
  }

  /** Row i is done with: the receiver accepted it, or it was dead-lettered. */
  ghost predicate Done(trace: seq<Note>, i: nat) {
    WasAccepted(trace, i) || DeadLettered(i) in trace
  }

  /** Every row before row j is done with. */
  ghost predicate Cleared(rows: seq<OutboxRow>, trace: seq<Note>, j: nat) {
    forall i: nat | Before(rows, i, j) :: Done(trace, i)
  }

  ghost predicate NoteInOrder(rows: seq<OutboxRow>, trace: seq<Note>, t: nat)
    requires t < |trace|
  {
    trace[t].row < |rows| && (trace[t].DeadLettered? || Cleared(rows, trace[..t], trace[t].row))
  }

  /** No request is made, and none is answered, before every earlier entry of its aggregate is done with. */
  ghost predicate Ordered(rows: seq<OutboxRow>, trace: seq<Note>) {
    forall t | 0 <= t < |trace| :: NoteInOrder(rows, trace, t)
  }

  ghost predicate RowsTold(rows: seq<OutboxRow>, trace: seq<Note>) {
    forall i | 0 <= i < |rows| ::
      (rows[i].processed ==> WasAccepted(trace, i)) && (rows[i].dead ==> DeadLettered(i) in trace)
  }

  ghost predicate FlightTold(rows: seq<OutboxRow>, trace: seq<Note>, f: Flight) {
    && f.row < |rows|
    && Cleared(rows, trace, f.row)
    && (f.phase.Answered? && f.phase.answer.Status? ==> Replied(f.row, f.phase.answer.code) in trace)
  }

  ghost predicate Told(s: Net) {
    && InPositionOrder(s.rows)
    && Ordered(s.rows, s.trace)
    && RowsTold(s.rows, s.trace)
    && forall f | 0 <= f < |s.flights| :: FlightTold(s.rows, s.trace, s.flights[f])
  }

  lemma DoneStays(trace: seq<Note>, more: seq<Note>, i: nat)
    ensures WasAccepted(trace, i) ==> WasAccepted(trace + more, i)
    ensures Done(trace, i) ==> Done(trace + more, i)
  {
    if n :| n in trace && Accepted(n, i) {
      assert n in trace + more;
    }
  }

  lemma ClearedStays(rows: seq<OutboxRow>, trace: seq<Note>, more: seq<Note>, j: nat)
    requires Cleared(rows, trace, j)
    ensures Cleared(rows, trace + more, j)
  {
  }

  /** Rows keep their order and their place whatever is recorded about them. */
  ghost predicate SamePlaces(rows: seq<OutboxRow>, rows': seq<OutboxRow>) {
    |rows| <= |rows'| && forall i, j | 0 <= j < |rows| :: Before(rows', i, j) <==> Before(rows, i, j)
  }

  lemma ClearedElsewhere(rows: seq<OutboxRow>, rows': seq<OutboxRow>, trace: seq<Note>, j: nat)
    requires Cleared(rows, trace, j) && j < |rows| && SamePlaces(rows, rows')
    ensures Cleared(rows', trace, j)
  {
  }

  lemma OrderedElsewhere(rows: seq<OutboxRow>, rows': seq<OutboxRow>, trace: seq<Note>)
    requires Ordered(rows, trace) && SamePlaces(rows, rows')
    ensures Ordered(rows', trace)
  {
    forall t | 0 <= t < |trace| ensures NoteInOrder(rows', trace, t) {
      assert NoteInOrder(rows, trace, t);
      if !trace[t].DeadLettered? {
        ClearedElsewhere(rows, rows', trace[..t], trace[t].row);
      }
    }
  }

  lemma OrderedOneMore(rows: seq<OutboxRow>, trace: seq<Note>, n: Note)
    requires Ordered(rows, trace) && n.row < |rows| && (n.DeadLettered? || Cleared(rows, trace, n.row))
    ensures Ordered(rows, trace + [n])
  {
    forall t | 0 <= t < |trace + [n]| ensures NoteInOrder(rows, trace + [n], t) {
      assert (trace + [n])[..t] == trace[..t];
      if t < |trace| {
        assert NoteInOrder(rows, trace, t);
      } else {
        assert trace[..t] == trace;
      }
    }
  }

  /** What was requested may be answered: its predecessors were done with when it was requested. */
  lemma RequestedIsCleared(rows: seq<OutboxRow>, trace: seq<Note>, row: nat)
    requires Ordered(rows, trace) && Requesting(row) in trace
    ensures row < |rows| && Cleared(rows, trace, row)
  {
    var t :| 0 <= t < |trace| && trace[t] == Requesting(row);
    assert NoteInOrder(rows, trace, t);
    ClearedStays(rows, trace[..t], trace[t..], row);
    assert trace == trace[..t] + trace[t..];
  }

  lemma RowsToldStay(rows: seq<OutboxRow>, trace: seq<Note>, more: seq<Note>)
    requires RowsTold(rows, trace)
    ensures RowsTold(rows, trace + more)
  {
    forall i | 0 <= i < |rows|
      ensures rows[i].processed ==> WasAccepted(trace + more, i)
      ensures rows[i].dead ==> DeadLettered(i) in trace + more
    {
      DoneStays(trace, more, i);
    }
  }

  lemma FlightToldStays(rows: seq<OutboxRow>, trace: seq<Note>, more: seq<Note>, f: Flight)
    requires FlightTold(rows, trace, f)
    ensures FlightTold(rows, trace + more, f)
  {
  }

  /** More is seen; the rows and the other flights are as they were. */
  lemma SeesMore(s: Net, n: Note)
    requires Told(s) && n.row < |s.rows| && (n.DeadLettered? || Cleared(s.rows, s.trace, n.row))
    ensures Told(s.(trace := s.trace + [n]))
  {
    OrderedOneMore(s.rows, s.trace, n);
    RowsToldStay(s.rows, s.trace, [n]);
    forall f | 0 <= f < |s.flights| ensures FlightTold(s.rows, s.trace + [n], s.flights[f]) {
      FlightToldStays(s.rows, s.trace, [n], s.flights[f]);
    }
  }

  lemma RowsChange(s: Net, rows': seq<OutboxRow>)
    requires Told(s) && InPositionOrder(rows') && SamePlaces(s.rows, rows') && RowsTold(rows', s.trace)
    ensures Told(s.(rows := rows'))
  {
    OrderedElsewhere(s.rows, rows', s.trace);
    forall f | 0 <= f < |s.flights| ensures FlightTold(rows', s.trace, s.flights[f]) {
      ClearedElsewhere(s.rows, rows', s.trace, s.flights[f].row);
    }
  }

  lemma EnqueueKeepsTold(s: Net, r: OutboxRow)
    requires Told(s) && r == FreshRow(r.position, r.event, r.nextAttemptAt)
    requires forall i | 0 <= i < |s.rows| && s.rows[i].event.orderId == r.event.orderId ::
      s.rows[i].position < r.position
    ensures Told(s.(rows := s.rows + [r]))
  {
    RowsChange(s, s.rows + [r]);
  }

  ghost predicate AllReady(s: Net, launched: seq<Flight>) {
    forall i | 0 <= i < |launched| ::
      launched[i].row < |s.rows| && Eligible(s.rows, launched[i].row, s.now) && launched[i].phase == Queued
  }

  lemma LaunchedIsReady(c: Config, s: Net, picked: seq<nat>, lasts: seq<int>)
    requires Configured(c) && Enabled(c, s, Claim(picked, lasts))
    ensures AllReady(s, Launched(c, s, picked, lasts))
  {
  }

  lemma LaunchKeepsTold(s: Net, s': Net, launched: seq<Flight>)
    requires Told(s) && s' == s.(flights := s.flights + launched)
    requires AllReady(s, launched)
    ensures Told(s')
  {
  }

  lemma LeaseKeepsTold(s: Net, s': Net, picked: set<nat>, until: int)
    requires Told(s) && s' == s.(rows := Leased(s.rows, picked, until))
    ensures Told(s')
  {
    var rows' := Leased(s.rows, picked, until);
    RowsChange(s, rows');
  }

  lemma LaunchAndLease(s: Net, s': Net, picked: set<nat>, until: int, launched: seq<Flight>)
    requires Told(s) && AllReady(s, launched)
    requires s' == s.(rows := Leased(s.rows, picked, until), flights := s.flights + launched)
    ensures Told(s')
  {
    var mid := s.(flights := s.flights + launched);
    LaunchKeepsTold(s, mid, launched);
    LeaseKeepsTold(mid, s', picked, until);
  }

  lemma ClaimKeepsTold(c: Config, s: Net, picked: seq<nat>, lasts: seq<int>)
    requires Told(s) && Configured(c) && Enabled(c, s, Claim(picked, lasts))
    ensures Told(Act(c, s, Claim(picked, lasts)))
  {
    LaunchedIsReady(c, s, picked, lasts);
    LaunchAndLease(s, Act(c, s, Claim(picked, lasts)), Rows(picked), s.now + c.lease, Launched(c, s, picked, lasts));
  }

  lemma BookKeepsTold(c: Config, s: Net, f: nat)
    requires Told(s) && Enabled(c, s, Book(f))
    ensures Told(Booked(c, s, f))
  {
    var flight, mark := s.flights[f], MarkOf(c, s.flights[f]);
    var row := flight.row;
    assert FlightTold(s.rows, s.trace, flight);
    var s1 := s.(flights := WithPhase(s, f, Over));
    assert Told(s1);
    var s2 := s1;
    if mark.MarkFailed? && mark.dead {
      SeesMore(s1, DeadLettered(row));
      s2 := s1.(trace := s.trace + [DeadLettered(row)]);
      assert DeadLettered(row) in s2.trace;
    }
    if mark.MarkDelivered? {
      assert Accepted(Replied(row, flight.phase.answer.code), row);
    }
    RowsChange(s2, s.rows[row := Recorded(s.rows[row], mark, s.now)]);
  }

  lemma ActKeepsTold(c: Config, s: Net, a: Action)
    requires Configured(c) && Told(s) && Enabled(c, s, a)
    ensures Told(Act(c, s, a))
  {
    match a
    case Enqueue(r) => EnqueueKeepsTold(s, r);
    case Tick(_) =>
    case Claim(picked, lasts) => ClaimKeepsTold(c, s, picked, lasts);
    case Request(f) =>
      assert FlightTold(s.rows, s.trace, s.flights[f]);
      SeesMore(s.(flights := WithPhase(s, f, Requested)), Requesting(s.flights[f].row));
    case Reply(row, code) =>
      RequestedIsCleared(s.rows, s.trace, row);
      SeesMore(s, Replied(row, code));
    case Conclude(f, _, _) =>
      assert FlightTold(s.rows, s.trace, s.flights[f]);
    case Book(f) => BookKeepsTold(c, s, f);
    case Lose(_) =>
  }

  lemma {:induction false} RunKeepsTold(c: Config, actions: seq<Action>, states: seq<Net>, i: nat)
    requires IsRun(c, actions, states) && i < |states|
    ensures Told(states[i])
  {
    if i > 0 {
      RunKeepsTold(c, actions, states, i - 1);
      ActKeepsTold(c, states[i - 1], actions[i - 1]);
    }
  }

  /**
   With any number of dispatchers, crashes, expired leases and lost bookkeeping: no request
   for an entry is made or answered before each earlier entry of its aggregate was
   accepted by the receiver or dead-lettered.
   */
  lemma NothingOvertakes(c: Config, actions: seq<Action>, states: seq<Net>, k: nat, t: nat, i: nat)
    requires IsRun(c, actions, states) && k < |states|
    requires var s := states[k];
      t < |s.trace| && !s.trace[t].DeadLettered? && Before(s.rows, i, s.trace[t].row)
    ensures Done(states[k].trace[..t], i)
  {
    RunKeepsTold(c, actions, states, k);
    assert NoteInOrder(states[k].rows, states[k].trace, t);
  }

  /** Entries of one aggregate that are never dead-lettered are first accepted in position order. */
  lemma FirstAcceptedInOrder(c: Config, actions: seq<Action>, states: seq<Net>, k: nat, t: nat, i: nat, j: nat)
    requires IsRun(c, actions, states) && k < |states|
    requires Before(states[k].rows, i, j) && DeadLettered(i) !in states[k].trace
    requires t < |states[k].trace| && Accepted(states[k].trace[t], j)
    ensures exists u :: 0 <= u < t && Accepted(states[k].trace[u], i)
  {
    var trace := states[k].trace;
    NothingOvertakes(c, actions, states, k, t, i);
    var n :| n in trace[..t] && Accepted(n, i);
    var u :| 0 <= u < t && trace[u] == n;
  }

  /** Nothing counts as delivered that the receiver did not accept. */
  lemma DeliveredWasAccepted(c: Config, actions: seq<Action>, states: seq<Net>, k: nat, i: nat)
    requires IsRun(c, actions, states) && k < |states|
    requires i < |states[k].rows| && states[k].rows[i].processed
    ensures WasAccepted(states[k].trace, i)
  {
    RunKeepsTold(c, actions, states, k);
  }

  /* ----- what a mark does to the queue ----- */

  ghost predicate AllSettledBetween(rows: seq<OutboxRow>, i: nat, j: nat) {
    forall k | Before(rows, i, k) && Before(rows, k, j) :: !Live(rows[k])
  }

  /**
   What is recorded about the head of an aggregate: a retry makes it due again from
   `retryIn` on and not before, a release gives it back as it was, and once it is delivered
   or dead, the next live entry is the head.
   */
  lemma AfterMark(rows: seq<OutboxRow>, i: nat, m: Mark, now: int, t: int, j: nat)
    requires InPositionOrder(rows) && i < |rows| && Head(rows, i)
    ensures var rows' := rows[i := Recorded(rows[i], m, now)];
      && (m.MarkFailed? && !m.dead ==> (Eligible(rows', i, t) <==> now + m.retryIn <= t))
      && (m.Release? ==> (Eligible(rows', i, t) <==> rows[i].nextAttemptAt <= t))
      && (m.MarkDelivered? || (m.MarkFailed? && m.dead) ==>
            !Live(rows'[i])
            && (Before(rows, i, j) && Live(rows[j]) && AllSettledBetween(rows, i, j) ==> Head(rows', j)))
  {
    var rows' := rows[i := Recorded(rows[i], m, now)];
    assert forall k | 0 <= k < |rows| && k != i :: rows'[k] == rows[k];
    if Before(rows, i, j) && Live(rows[j]) && AllSettledBetween(rows, i, j) {
      forall k | 0 <= k < |rows'| && rows'[k].event.orderId == rows'[j].event.orderId
        && rows'[k].position < rows'[j].position && k != i
        ensures !Live(rows[k])
      {
        assert Before(rows, k, j);
        assert Before(rows, k, i) || Before(rows, i, k);
      }
    }
  }

  ghost predicate Unrecorded(actions: seq<Action>, states: seq<Net>, row: nat, i: nat, j: nat)
    requires |actions| < |states| && j <= |actions|
  {
    forall k, f: nat | i <= k < j && actions[k] == Book(f) && f < |states[k].flights| :: states[k].flights[f].row != row
  }

  lemma {:induction false} DueStays(c: Config, actions: seq<Action>, states: seq<Net>, row: nat, i: nat, j: nat)
    requires IsRun(c, actions, states) && i <= j <= |actions|
    requires row < |states[i].rows| && Unrecorded(actions, states, row, i, j)
    ensures row < |states[j].rows| && states[j].rows[row].nextAttemptAt == states[i].rows[row].nextAttemptAt
    decreases j - i
  {
    if i < j {
      DueStays(c, actions, states, row, i, j - 1);
      if actions[j - 1].Book? {
        assert actions[j - 1] == Book(actions[j - 1].f);
      }
    }
  }

  /** Backoff is respected: after a failure is recorded, the entry is not claimed before the delay has passed. */
  lemma RetriesWait(c: Config, actions: seq<Action>, states: seq<Net>, i: nat, f: nat, j: nat, row: nat)
    requires IsRun(c, actions, states) && i < j < |actions|
    requires actions[i] == Book(f) && states[i].flights[f].row == row
    requires MarkOf(c, states[i].flights[f]).MarkFailed?
    requires Unrecorded(actions, states, row, i + 1, j)
    requires actions[j].Claim? && row in actions[j].picked
    ensures states[i].now + MarkOf(c, states[i].flights[f]).retryIn <= states[j].now
  {
    DueStays(c, actions, states, row, i + 1, j);
    var k :| 0 <= k < |actions[j].picked| && actions[j].picked[k] == row;
    assert Eligible(states[j].rows, actions[j].picked[k], states[j].now);
  }
}

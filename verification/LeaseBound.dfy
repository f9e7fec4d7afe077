/**
 Which configurations keep the promises of the lease, and exactly those: entries of one
 aggregate are never under way twice, settled entries stay a prefix, dead ones stay dead.
 The failing halves are runs of the dispatcher at its own pace.
 */
module LeaseBound {
  import opened Models
  import opened Tables
  import opened Outbox
  import opened Schedule
  import opened Dispatch
  import opened Leases

  /* ----- reachable states ----- */

  /** Reached by some run; `paced` ones keep to the schedule of their batches. */
  ghost predicate Reachable(c: Config, paced: bool, s: Net) {
    exists actions, states ::
      IsRun(c, actions, states) && (paced ==> IsPacedRun(c, actions, states)) && states[|actions|] == s
  }

  ghost predicate Allowed(c: Config, paced: bool, s: Net, a: Action) {
    Enabled(c, s, a) && (paced ==> Paced(c, s, a))
  }

  lemma OneMore(c: Config, actions: seq<Action>, states: seq<Net>, a: Action)
    requires IsRun(c, actions, states) && Enabled(c, states[|actions|], a)
    ensures IsRun(c, actions + [a], states + [Act(c, states[|actions|], a)])
    ensures IsPacedRun(c, actions, states) && Paced(c, states[|actions|], a) ==>
              IsPacedRun(c, actions + [a], states + [Act(c, states[|actions|], a)])
  {
    var actions', states' := actions + [a], states + [Act(c, states[|actions|], a)];
    assert states'[0] == states[0];
    forall i | 0 <= i < |actions'|
      ensures Enabled(c, states'[i], actions'[i]) && states'[i + 1] == Act(c, states'[i], actions'[i])
    {
      if i < |actions| {
        assert states'[i] == states[i] && actions'[i] == actions[i];
      }
    }
    if IsPacedRun(c, actions, states) && Paced(c, states[|actions|], a) {
      forall i | 0 <= i < |actions'| ensures Paced(c, states'[i], actions'[i]) {
        if i < |actions| {
          assert states'[i] == states[i] && actions'[i] == actions[i];
        }
      }
    }
  }

  lemma Next(c: Config, paced: bool, s: Net, a: Action) returns (s': Net)
    requires Configured(c) && Reachable(c, paced, s) && Allowed(c, paced, s, a)
    ensures s' == Act(c, s, a) && Reachable(c, paced, s')
  {
    var actions, states :|
      IsRun(c, actions, states) && (paced ==> IsPacedRun(c, actions, states)) && states[|actions|] == s;
    OneMore(c, actions, states, a);
    s' := Act(c, s, a);
    assert (states + [s'])[|actions + [a]|] == s';
  }

  lemma Starts(c: Config, paced: bool, rows: seq<OutboxRow>) returns (s: Net)
    requires Configured(c) && StartsFrom(rows)
    ensures s == Init(rows, 0) && Reachable(c, paced, s)
  {
    s := Init(rows, 0);
    assert IsPacedRun(c, [], [s]);
  }

  lemma Waits(c: Config, paced: bool, s: Net, d: nat) returns (s': Net)
    requires Configured(c) && Reachable(c, paced, s) && Allowed(c, paced, s, Tick(d))
    ensures s' == s.(now := s.now + d) && Reachable(c, paced, s')
  {
    s' := Next(c, paced, s, Tick(d));
  }

  /* ----- what single deliveries do ----- */

  /** A delivery that nobody has begun, of the row and with the attempts given. */
  predicate Waiting(f: Flight, row: nat, attempts: nat) {
    f.row == row && f.attempts == attempts && f.phase == Queued
  }

  lemma StartsAtOnce(c: Config, last: int)
    requires Configured(c)
    ensures Start(c.workers, [last], 0) == 0 && End(c.workers, [last], 0) == last
  {
    assert [last][..0] == [];
  }

  lemma OneActs(c: Config, s: Net, row: nat, last: nat)
    requires Configured(c) && row < |s.rows| && Enabled(c, s, Claim([row], [last]))
    ensures var s' := Act(c, s, Claim([row], [last]));
      && s'.now == s.now && s'.rows == Leased(s.rows, Rows([row]), s.now + c.lease)
      && s'.flights == s.flights + Launched(c, s, [row], [last])
  {
  }

  /** The row is leased, and its delivery waits: it may start at once. */
  predicate ClaimedBy(c: Config, s: Net, s': Net, row: nat, last: nat) {
    && row < |s.rows| && s'.now == s.now
    && s'.rows == s.rows[row := s.rows[row].(leaseUntil := Some(s.now + c.lease))]
    && |s'.flights| == |s.flights| + 1 && s'.flights[..|s.flights|] == s.flights
    && var f := s'.flights[|s.flights|];
       Waiting(f, row, s.rows[row].attempts) && f.start == s.now && f.due == s.now + last
  }

  lemma OneLaunched(c: Config, s: Net, s': Net, row: nat, last: nat)
    requires Configured(c) && row < |s.rows| && s'.now == s.now
    requires s'.rows == Leased(s.rows, Rows([row]), s.now + c.lease)
    requires s'.flights == s.flights + Launched(c, s, [row], [last])
    ensures ClaimedBy(c, s, s', row, last)
  {
    StartsAtOnce(c, last);
  }

  /** A dispatcher claims a single entry. */
  lemma Claims(c: Config, paced: bool, s: Net, row: nat, last: nat) returns (s': Net)
    requires Configured(c) && Reachable(c, paced, s)
    requires row < |s.rows| && Eligible(s.rows, row, s.now) && (paced ==> last <= c.longest)
    ensures Reachable(c, paced, s') && ClaimedBy(c, s, s', row, last)
  {
    OneActs(c, s, row, last);
    s' := Next(c, paced, s, Claim([row], [last]));
    OneLaunched(c, s, s', row, last);
  }

  lemma Requests(c: Config, paced: bool, s: Net, f: nat) returns (s': Net)
    requires Configured(c) && Reachable(c, paced, s)
    requires f < |s.flights| && s.flights[f].phase == Queued && s.flights[f].start <= s.now
    ensures Reachable(c, paced, s') && s'.now == s.now && s'.rows == s.rows
    ensures s'.flights == s.flights[f := s.flights[f].(phase := Requested)]
    ensures Requesting(s.flights[f].row) in s'.trace
  {
    s' := Next(c, paced, s, Request(f));
  }

  /** A request gets `answer`. */
  lemma Answers(c: Config, paced: bool, s: Net, f: nat, answer: Answer) returns (s': Net)
    requires Configured(c) && Reachable(c, paced, s)
    requires f < |s.flights| && s.flights[f].phase == Requested && s.flights[f].start <= s.now
    requires answer == NoAnswer || (answer.Status? && Requesting(s.flights[f].row) in s.trace)
    ensures Reachable(c, paced, s') && s'.now == s.now && s'.rows == s.rows
    ensures s'.flights == s.flights[f := s.flights[f].(phase := Answered(answer, false))]
  {
    var t := s;
    if answer.Status? {
      t := Next(c, paced, s, Reply(s.flights[f].row, answer.code));
    }
    s' := Next(c, paced, t, Conclude(f, answer, false));
  }

  /** A request gets `answer`, and the outcome is recorded when the slot ends. */
  lemma Ends(c: Config, paced: bool, s: Net, f: nat, answer: Answer) returns (s': Net)
    requires Configured(c) && Reachable(c, paced, s)
    requires f < |s.flights| && s.flights[f].phase == Requested && s.flights[f].row < |s.rows|
    requires s.flights[f].start <= s.now && (paced ==> s.now == s.flights[f].due && Recordable(c, s.flights[f]))
    requires answer == NoAnswer || (answer.Status? && Requesting(s.flights[f].row) in s.trace)
    ensures Reachable(c, paced, s') && s'.now == s.now
    ensures s'.flights == s.flights[f := s.flights[f].(phase := Over)]
    ensures var row, mark := s.flights[f].row, MarkFor(answer, false, s.flights[f].attempts + 1, c);
      s'.rows == s.rows[row := Recorded(s.rows[row], mark, s.now)]
  {
    var t := Answers(c, paced, s, f, answer);
    s' := Next(c, paced, t, Book(f));
  }

  /* ----- a batch that outlives its lease ----- */

  function EventOf(i: nat): Event {
    Event("e", OrderCreated, "p", Some(1), Uuid(i), None, None)
  }

  /** One entry each of `n` aggregates. */
  function Backlog(n: nat): (rows: seq<OutboxRow>)
    ensures |rows| == n && forall i | 0 <= i < n :: rows[i] == FreshRow(i, EventOf(i), 0)
  {
    seq(n, i requires 0 <= i => FreshRow(i, EventOf(i), 0))
  }

  function UpTo(n: nat): (r: seq<nat>)
    ensures |r| == n && forall i | 0 <= i < n :: r[i] == i
  {
    seq(n, i requires 0 <= i => i)
  }

  lemma RowsUpTo(n: nat)
    ensures forall i: nat | i < n :: i in Rows(UpTo(n))
  {
    forall i: nat | i < n ensures i in Rows(UpTo(n)) {
      assert UpTo(n)[i] in UpTo(n);
    }
  }

  function Longest(c: Config, last: nat): seq<int> {
    seq(c.batchSize, i => Lasts(c, last, i))
  }

  /** All deliveries of the batch take the longest, except that its last one takes `last`. */
  function Lasts(c: Config, last: nat, i: int): int {
    if i == c.batchSize - 1 then last else c.longest
  }

  function RoundAt(c: Config, i: nat): int
    requires Configured(c)
  {
    Begins(i, c.workers, c.longest)
  }

  /** Entry `i` and its delivery, in a full batch claimed at 0. */
  ghost predicate InBatch(c: Config, last: nat, s: Net, i: nat, p: Phase)
    requires Configured(c) && i < |s.rows| && i < |s.flights|
  {
    && s.rows[i] == FreshRow(i, EventOf(i), 0).(leaseUntil := Some(c.lease))
    && s.flights[i].row == i && s.flights[i].attempts == 0 && s.flights[i].phase == p
    && s.flights[i].start == RoundAt(c, i) && s.flights[i].due == RoundAt(c, i) + Lasts(c, last, i)
  }

  /** The first `k` deliveries of the batch are over, and those up to `r` are requested. */
  ghost predicate Progress(c: Config, last: nat, s: Net, k: nat, r: nat)
    requires Configured(c)
  {
    && |s.rows| == |s.flights| == c.batchSize && k <= r <= c.batchSize
    && (forall i | 0 <= i < c.batchSize :: s.rows[i].event == EventOf(i))
    && (forall i | 0 <= i < k :: s.flights[i].phase == Over)
    && (forall i | k <= i < r :: InBatch(c, last, s, i, Requested))
    && (forall i | r <= i < c.batchSize :: InBatch(c, last, s, i, Queued))
  }

  lemma LongestIsPositive(c: Config)
    requires Configured(c) && !Fits(c)
    ensures 1 <= c.longest && c.lease < Begins(c.batchSize - 1, c.workers, c.longest) + c.longest
  {
    assert CeilDiv(c.batchSize, c.workers) * 0 == 0;
    LastRoundEnds(c.batchSize, c.workers, c.longest);
  }

  lemma {:induction false} NthOfBatch(c: Config, last: nat, s: Net, i: nat)
    requires Configured(c) && 1 <= c.longest && i < c.batchSize == |s.rows| && s.now == 0 && s.rows[i].attempts == 0
    ensures var f := Launch(c, s, UpTo(c.batchSize), Longest(c, last), i);
      && Waiting(f, i, 0) && f.start == RoundAt(c, i) && f.due == RoundAt(c, i) + Lasts(c, last, i)
  {
    StartsExactly(c.workers, Longest(c, last), c.longest, i);
  }

  lemma BatchEnabled(c: Config, last: nat, s: Net)
    requires Configured(c) && s == Init(Backlog(c.batchSize), 0)
    ensures Enabled(c, s, Claim(UpTo(c.batchSize), Longest(c, last)))
  {
  }

  lemma {:induction false} BatchLaunched(c: Config, last: nat, s: Net)
    requires Configured(c) && 1 <= c.longest && s == Init(Backlog(c.batchSize), 0)
    requires Enabled(c, s, Claim(UpTo(c.batchSize), Longest(c, last)))
    ensures Progress(c, last, Act(c, s, Claim(UpTo(c.batchSize), Longest(c, last))), 0, 0)
  {
    var s' := Act(c, s, Claim(UpTo(c.batchSize), Longest(c, last)));
    RowsUpTo(c.batchSize);
    forall i | 0 <= i < c.batchSize ensures InBatch(c, last, s', i, Queued) {
      assert s'.flights[i] == Launch(c, s, UpTo(c.batchSize), Longest(c, last), i);
      NthOfBatch(c, last, s, i);
    }
  }

  lemma {:induction false} BatchClaimed(c: Config, last: nat) returns (s: Net)
    requires Configured(c) && 1 <= c.longest && last <= c.longest
    ensures Reachable(c, true, s) && Progress(c, last, s, 0, 0) && s.now == 0
  {
    var s0 := Starts(c, true, Backlog(c.batchSize));
    BatchEnabled(c, last, s0);
    BatchLaunched(c, last, s0);
    s := Next(c, true, s0, Claim(UpTo(c.batchSize), Longest(c, last)));
  }

  lemma RequestedOneMore(c: Config, last: nat, s: Net, s': Net, k: nat, r: nat)
    requires Configured(c) && Progress(c, last, s, k, r) && r < c.batchSize
    requires s'.rows == s.rows && s'.flights == s.flights[r := s.flights[r].(phase := Requested)]
    ensures Progress(c, last, s', k, r + 1)
  {
    assert InBatch(c, last, s, r, Queued);
    forall i | k <= i < r ensures InBatch(c, last, s', i, Requested) {
      assert InBatch(c, last, s, i, Requested);
    }
    forall i | r < i < c.batchSize ensures InBatch(c, last, s', i, Queued) {
      assert InBatch(c, last, s, i, Queued);
    }
  }

  lemma EndedOneMore(c: Config, last: nat, s: Net, s': Net, k: nat, r: nat, row: OutboxRow)
    requires Configured(c) && Progress(c, last, s, k, r) && k < r && row.event == s.rows[k].event
    requires s'.rows == s.rows[k := row] && s'.flights == s.flights[k := s.flights[k].(phase := Over)]
    ensures Progress(c, last, s', k + 1, r)
  {
    forall i | k < i < r ensures InBatch(c, last, s', i, Requested) {
      assert InBatch(c, last, s, i, Requested);
    }
    forall i | r <= i < c.batchSize ensures InBatch(c, last, s', i, Queued) {
      assert InBatch(c, last, s, i, Queued);
    }
  }

  lemma ProgressStays(c: Config, last: nat, s: Net, s': Net, k: nat, r: nat)
    requires Configured(c) && Progress(c, last, s, k, r) && s'.rows == s.rows && s'.flights == s.flights
    ensures Progress(c, last, s', k, r)
  {
    forall i | k <= i < r ensures InBatch(c, last, s', i, Requested) {
      assert InBatch(c, last, s, i, Requested);
    }
    forall i | r <= i < c.batchSize ensures InBatch(c, last, s', i, Queued) {
      assert InBatch(c, last, s, i, Queued);
    }
  }

  /** All deliveries of a round get their slots, and are requested, when it begins. */
  lemma {:induction false} RoundRequested(c: Config, last: nat, s: Net, k: nat) returns (s': Net, r: nat)
    requires Configured(c) && Reachable(c, true, s) && Progress(c, last, s, k, k) && k < c.batchSize
    requires s.now == RoundAt(c, k)
    ensures Reachable(c, true, s') && Progress(c, last, s', k, r) && s'.now == s.now && k < r
    ensures RoundAt(c, r - 1) == RoundAt(c, k) && (r < c.batchSize ==> RoundAt(c, r) == RoundAt(c, k) + c.longest)
  {
    s', r := s, k;
    while r < c.batchSize && RoundAt(c, r) == RoundAt(c, k)
      invariant Reachable(c, true, s') && Progress(c, last, s', k, r) && s'.now == s.now
      invariant k < r ==> RoundAt(c, r - 1) == RoundAt(c, k)
      invariant r < c.batchSize ==> RoundAt(c, r) in {RoundAt(c, k), RoundAt(c, k) + c.longest}
      decreases c.batchSize - r
    {
      assert InBatch(c, last, s', r, Queued);
      var t := s';
      s' := Requests(c, true, t, r);
      RequestedOneMore(c, last, t, s', k, r);
      r := r + 1;
    }
  }

  /** A delivery times out at the end of its slot: the failure is recorded, or it is too late for that. */
  lemma TimesOut(c: Config, s: Net, f: nat) returns (s': Net, row: OutboxRow)
    requires Configured(c) && Reachable(c, true, s)
    requires f < |s.flights| && s.flights[f].phase == Requested && s.flights[f].row < |s.rows|
    requires s.flights[f].start <= s.now == s.flights[f].due
    ensures Reachable(c, true, s') && s'.now == s.now
    ensures s'.flights == s.flights[f := s.flights[f].(phase := Over)]
    ensures s'.rows == s.rows[s.flights[f].row := row] && row.event == s.rows[s.flights[f].row].event
  {
    row := s.rows[s.flights[f].row];
    if Recordable(c, s.flights[f]) {
      s' := Ends(c, true, s, f, NoAnswer);
      row := s'.rows[s.flights[f].row];
    } else {
      var t := Answers(c, true, s, f, NoAnswer);
      s' := Next(c, true, t, Lose({f}));
    }
  }

  /** They all time out, at the end of their slots. */
  lemma {:induction false} RoundEnds(c: Config, last: nat, s: Net, k: nat, r: nat) returns (s': Net)
    requires Configured(c) && Reachable(c, true, s) && Progress(c, last, s, k, r) && k < r < c.batchSize
    requires s.now == RoundAt(c, k) == RoundAt(c, r - 1) && RoundAt(c, r) == RoundAt(c, k) + c.longest
    requires last <= c.longest
    ensures Reachable(c, true, s') && Progress(c, last, s', r, r) && s'.now == RoundAt(c, k) + c.longest
  {
    BatchDue(c, last, s, k, r);
    BeginsGrows(r, c.batchSize - 1, c.workers, c.longest);
    s' := Waits(c, true, s, c.longest);
    ProgressStays(c, last, s, s', k, r);
    for j := k to r
      invariant Reachable(c, true, s') && Progress(c, last, s', j, r) && s'.now == RoundAt(c, k) + c.longest
    {
      BeginsGrows(k, j, c.workers, c.longest);
      BeginsGrows(j, r - 1, c.workers, c.longest);
      assert InBatch(c, last, s', j, Requested);
      var t, row := s', s'.rows[j];
      s', row := TimesOut(c, t, j);
      EndedOneMore(c, last, t, s', j, r, row);
    }
  }

  /** What is still on its way belongs to this round or a later one. */
  lemma BatchDue(c: Config, last: nat, s: Net, k: nat, r: nat)
    requires Configured(c) && Progress(c, last, s, k, r) && k < c.batchSize && last <= c.longest
    ensures forall f | 0 <= f < |s.flights| && InFlight(s.flights[f]) ::
      && (RoundAt(c, k) + c.longest <= s.flights[f].due || RoundAt(c, c.batchSize - 1) + last <= s.flights[f].due)
      && (RoundAt(c, k) == RoundAt(c, c.batchSize - 1) ==> RoundAt(c, k) + last <= s.flights[f].due)
  {
    forall f | 0 <= f < |s.flights| && InFlight(s.flights[f])
      ensures k <= f && s.flights[f].due == RoundAt(c, f) + Lasts(c, last, f) && RoundAt(c, k) <= RoundAt(c, f)
    {
      assert if f < r then k <= f && InBatch(c, last, s, f, Requested) else InBatch(c, last, s, f, Queued);
      BeginsGrows(k, f, c.workers, c.longest);
    }
  }

  /** Round by round, up to the last one, which is requested when it begins. */
  lemma {:induction false} LastRound(c: Config, last: nat) returns (s: Net, k: nat)
    requires Configured(c) && 1 <= c.longest && last <= c.longest
    ensures Reachable(c, true, s) && Progress(c, last, s, k, c.batchSize) && k < c.batchSize
    ensures s.now == RoundAt(c, k) == RoundAt(c, c.batchSize - 1)
  {
    var n := c.batchSize - 1;
    s := BatchClaimed(c, last);
    k := 0;
    while true
      invariant k <= n && Reachable(c, true, s) && Progress(c, last, s, k, k) && s.now == RoundAt(c, k)
      decreases n - k
    {
      var t, r := RoundRequested(c, last, s, k);
      if r == c.batchSize {
        s := t;
        return;
      }
      s := RoundEnds(c, last, t, k, r);
      k := r;
    }
  }

  /** A delivery that was requested in its slot is still on its way after its lease; nobody else has its aggregate. */
  ghost predicate Overdue(c: Config, paced: bool, s: Net, f: nat) {
    && Reachable(c, paced, s)
    && f < |s.flights| && s.flights[f].phase == Requested && s.flights[f].attempts == 0
    && s.flights[f].start <= s.now <= s.flights[f].due
    && (forall g | 0 <= g < |s.flights| && InFlight(s.flights[g]) :: s.flights[f].due <= s.flights[g].due)
    && var r := s.flights[f].row;
       && r < |s.rows| && Eligible(s.rows, r, s.now) && s.rows[r].attempts == 0
       && (forall j | 0 <= j < |s.rows| && j != r :: s.rows[j].event.orderId != s.rows[r].event.orderId)
  }

  /** The last delivery of the batch is requested when its slot begins, and outlives the lease. */
  lemma {:induction false} LastOverdue(c: Config, last: nat) returns (s: Net)
    requires Configured(c) && 1 <= c.longest && last <= c.longest
    requires c.lease < RoundAt(c, c.batchSize - 1) + last
    ensures Overdue(c, true, s, c.batchSize - 1)
    ensures var f := s.flights[c.batchSize - 1]; f.due == f.start + last
  {
    var t, k := LastRound(c, last);
    var n := c.batchSize - 1;
    assert InBatch(c, last, t, n, Requested);
    BatchDue(c, last, t, k, c.batchSize);
    s := Waits(c, true, t, if c.lease < t.now then 0 else c.lease + 1 - t.now);
  }

  /* ----- two at once ----- */

  /** Two requests for entries of one aggregate are under way. */
  ghost predicate TwoRequests(s: Net) {
    exists f, g | 0 <= f < g < |s.flights| ::
      s.flights[f].phase == s.flights[g].phase == Requested && SameAggregate(s, s.flights[f], s.flights[g])
  }

  lemma Overlap(c: Config) returns (s: Net)
    requires Configured(c) && !Fits(c)
    ensures Reachable(c, true, s) && TwoRequests(s)
  {
    LongestIsPositive(c);
    var late := LastOverdue(c, c.longest);
    var f, n := c.batchSize - 1, |late.flights|;
    var t := Claims(c, true, late, late.flights[f].row, c.longest);
    assert t.flights[f] == t.flights[..n][f];
    s := Requests(c, true, t, n);
    assert SameAggregate(s, s.flights[f], s.flights[n]);
  }

  ghost predicate AlwaysExclusive(c: Config)
    requires Configured(c)
  {
    forall actions, states, i | IsPacedRun(c, actions, states) && 0 <= i < |states| :: Exclusive(states[i])
  }

  ghost predicate NeverTwoRequests(c: Config)
    requires Configured(c)
  {
    forall actions, states, i | IsPacedRun(c, actions, states) && 0 <= i < |states| :: !TwoRequests(states[i])
  }

  lemma OneAtATime(s: Net)
    requires Exclusive(s)
    ensures !TwoRequests(s)
  {
  }

  /**
   No two dispatchers ever have entries of one aggregate on their way at the same time,
   crashes and lost bookkeeping included, exactly when ceil(batchSize / workers) of the
   longest deliveries fit into the lease. If they do not, it is not only claims that
   overlap, but requests.
   */
  lemma ExclusiveIffFits(c: Config)
    requires Configured(c)
    ensures AlwaysExclusive(c) <==> Fits(c)
    ensures NeverTwoRequests(c) <==> Fits(c)
  {
    if Fits(c) {
      forall actions, states, i | IsPacedRun(c, actions, states) && 0 <= i < |states|
        ensures Exclusive(states[i]) && !TwoRequests(states[i])
      {
        FittingIsPunctual(c, actions, states);
        OneAtATime(states[i]);
      }
    } else {
      var s := Overlap(c);
      var actions, states :| IsPacedRun(c, actions, states) && states[|actions|] == s;
      if Exclusive(s) {
        OneAtATime(s);
      }
    }
  }

  /** The defaults - 50 entries, 4 workers, requests of up to 10 s, a lease of 60 s - do not fit. */
  lemma DefaultsOverlap(c: Config)
    requires Configured(c) && c.batchSize == 50 && c.workers == 4 && c.longest == 10 && c.lease == 60
    ensures !AlwaysExclusive(c) && !NeverTwoRequests(c)
  {
    RoundIsQuotient(49, 4);
    ExclusiveIffFits(c);
  }

  /** How long a request may take: the configured timeout, but at most half the lease. */
  function RequestTimeout(lease: nat, timeout: nat): nat {
    if timeout < lease / 2 then timeout else lease / 2
  }

  /** That half is why no two deliveries overlap in batches of up to twice the workers, whatever the timeout. */
  lemma HalfLeaseFitsTwoRounds(c: Config, timeout: nat)
    requires Configured(c) && c.longest == RequestTimeout(c.lease, timeout) && c.batchSize <= 2 * c.workers
    ensures AlwaysExclusive(c) && NeverTwoRequests(c)
  {
    TwoRounds(c.batchSize, c.workers, c.longest, c.lease);
    ExclusiveIffFits(c);
  }

  /* ----- late marks ----- */

  /** The step takes a settled entry back, and the entry after it has been delivered. */
  ghost predicate Revives(c: Config, s: Net, a: Action) {
    && Configured(c) && Enabled(c, s, a)
    && !SettledStays(s.rows, Act(c, s, a).rows) && !SettledPrefix(Act(c, s, a).rows)
  }

  /** An entry was taken through by a delivery that is over; the receiver answered `code`. */
  predicate HandledBy(c: Config, s: Net, s': Net, row: nat, code: int) {
    && row < |s.rows| && s'.now == s.now
    && |s'.flights| == |s.flights| + 1 && s'.flights[..|s.flights|] == s.flights
    && s'.flights[|s.flights|].phase == Over
    && var mark := MarkFor(Status(code), false, s.rows[row].attempts + 1, c);
       s'.rows == s.rows[row := Recorded(s.rows[row], mark, s.now)]
  }

  /** Leasing the row, requesting, and recording the outcome: the mark clears the lease again. */
  lemma HandledInThree(c: Config, s: Net, t: Net, u: Net, s': Net, row: nat, code: int)
    requires ClaimedBy(c, s, t, row, 0) && u.now == s'.now == t.now && u.rows == t.rows
    requires var n := |s.flights|;
      && u.flights == t.flights[n := t.flights[n].(phase := Requested)]
      && s'.flights == u.flights[n := u.flights[n].(phase := Over)]
    requires s'.rows ==
             u.rows[row := Recorded(u.rows[row], MarkFor(Status(code), false, s.rows[row].attempts + 1, c), u.now)]
    ensures HandledBy(c, s, s', row, code)
  {
    assert s'.flights[..|s.flights|] == t.flights[..|s.flights|];
  }

  /** Another dispatcher takes an entry through, all at once. */
  lemma Handles(c: Config, paced: bool, s: Net, row: nat, code: int) returns (s': Net)
    requires Configured(c) && Reachable(c, paced, s) && row < |s.rows| && Eligible(s.rows, row, s.now)
    ensures Reachable(c, paced, s') && HandledBy(c, s, s', row, code)
  {
    var t := Claims(c, paced, s, row, 0);
    var u := Requests(c, paced, t, |s.flights|);
    s' := Ends(c, paced, u, |s.flights|, Status(code));
    HandledInThree(c, s, t, u, s', row, code);
  }

  /** An entry added right after a dead one, at the end of its aggregate, is the next to go. */
  lemma AddedIsNext(c: Config, s: Net, t: Net, f: nat, u: Net)
    requires Configured(c) && f < |s.flights| && s.flights[f].row < |s.rows|
    requires Eligible(s.rows, s.flights[f].row, s.now) && HandledBy(c, s, t, s.flights[f].row, 400)
    requires forall j | 0 <= j < |s.rows| && j != s.flights[f].row ::
      s.rows[j].event.orderId != s.rows[s.flights[f].row].event.orderId
    requires var r := s.rows[s.flights[f].row];
      u == t.(rows := t.rows + [FreshRow(r.position + 1, r.event, s.now)])
    ensures Eligible(u.rows, |s.rows|, u.now)
  {
  }

  /** What two deliveries that are over leave: the first entry dead, the second one delivered. */
  lemma BothHandled(c: Config, s: Net, t: Net, u: Net, s': Net, f: nat)
    requires Configured(c) && f < |s.flights| && s.flights[f].row < |s.rows|
    requires !s.rows[s.flights[f].row].processed && HandledBy(c, s, t, s.flights[f].row, 400)
    requires var r := s.rows[s.flights[f].row];
      u == t.(rows := t.rows + [FreshRow(r.position + 1, r.event, s.now)])
    requires HandledBy(c, u, s', |s.rows|, 200)
    ensures s'.now == s.now && |s'.rows| == |s.rows| + 1
    ensures |s'.flights| == |s.flights| + 2 && s'.flights[..|s.flights|] == s.flights
    ensures forall g | |s.flights| <= g < |s'.flights| :: s'.flights[g].phase == Over
    ensures var r, m := s.flights[f].row, |s.rows|;
      s'.rows[r].dead && !s'.rows[r].processed && s'.rows[m].processed && Before(s'.rows, r, m)
  {
    assert s'.flights[..|s.flights|] == u.flights[..|s.flights|];
    assert s'.flights[|s.flights|] == s'.flights[..|u.flights|][|s.flights|];
  }

  /** The entry of an overdue delivery is dead-lettered, and the one after it is delivered. */
  lemma Overtakes(c: Config, paced: bool, s: Net, f: nat) returns (s': Net)
    requires Configured(c) && Overdue(c, paced, s, f)
    ensures Reachable(c, paced, s') && s'.now == s.now && |s'.rows| == |s.rows| + 1
    ensures |s'.flights| == |s.flights| + 2 && s'.flights[..|s.flights|] == s.flights
    ensures forall g | |s.flights| <= g < |s'.flights| :: s'.flights[g].phase == Over
    ensures var r, m := s.flights[f].row, |s.rows|;
      s'.rows[r].dead && !s'.rows[r].processed && s'.rows[m].processed && Before(s'.rows, r, m)
  {
    var r, m := s.flights[f].row, |s.rows|;
    var t := Handles(c, paced, s, r, 400);
    var u := Next(c, paced, t, Enqueue(FreshRow(s.rows[r].position + 1, s.rows[r].event, s.now)));
    AddedIsNext(c, s, t, f, u);
    s' := Handles(c, paced, u, m, 200);
    BothHandled(c, s, t, u, s', f);
  }

  /** A failure recorded by an overdue delivery, at the end of its slot, after it was overtaken. */
  lemma LateMark(c: Config, paced: bool, s: Net, f: nat) returns (t: Net)
    requires Configured(c) && 2 <= c.maxAttempts && Overdue(c, paced, s, f)
    requires paced ==> Recordable(c, s.flights[f])
    ensures Reachable(c, paced, t) && f < |t.flights| && Revives(c, t, Book(f)) && Allowed(c, paced, t, Book(f))
  {
    var r, m := s.flights[f].row, |s.rows|;
    var u := Overtakes(c, paced, s, f);
    assert u.flights[f] == u.flights[..|s.flights|][f];
    forall g | 0 <= g < |u.flights| && InFlight(u.flights[g]) ensures s.flights[f].due <= u.flights[g].due {
      assert u.flights[g] == u.flights[..|s.flights|][g];
    }
    var v := Waits(c, paced, u, s.flights[f].due - u.now);
    t := Next(c, paced, v, Conclude(f, NoAnswer, false));
    assert Before(Act(c, t, Book(f)).rows, r, m);
  }

  ghost predicate AlwaysPrefix(c: Config, paced: bool)
    requires Configured(c)
  {
    forall s | Reachable(c, paced, s) :: SettledPrefix(s.rows)
  }

  /** A dead entry is never retried, and a delivered one never sent again as new. */
  ghost predicate NeverRevived(c: Config, paced: bool)
    requires Configured(c)
  {
    forall s, a | Reachable(c, paced, s) && Allowed(c, paced, s, a) :: SettledStays(s.rows, Act(c, s, a).rows)
  }

  lemma RevivalBreaksBoth(c: Config, paced: bool, s: Net, f: nat)
    requires Configured(c) && 2 <= c.maxAttempts && Overdue(c, paced, s, f)
    requires paced ==> Recordable(c, s.flights[f])
    ensures !AlwaysPrefix(c, paced) && !NeverRevived(c, paced)
  {
    var t := LateMark(c, paced, s, f);
    var t' := Next(c, paced, t, Book(f));
  }

  /* ----- with a single attempt there is nothing to revive ----- */

  /** Every row before that of a delivery, whoever still has it, is settled. */
  ghost predicate FirstInLine(s: Net) {
    forall f, i | 0 <= f < |s.flights| && Before(s.rows, i, s.flights[f].row) :: !Live(s.rows[i])
  }

  ghost predicate InLine(s: Net) {
    && InPositionOrder(s.rows) && SettledPrefix(s.rows) && FirstInLine(s)
    && forall f | 0 <= f < |s.flights| :: s.flights[f].row < |s.rows|
  }

  /** What rows may do: new ones go last in their aggregate, settled ones stay settled. */
  ghost predicate RowsMoveOn(rows: seq<OutboxRow>, rows': seq<OutboxRow>) {
    && SettledStays(rows, rows') && InPositionOrder(rows')
    && (forall i, j | 0 <= j < |rows| && Before(rows', i, j) :: Before(rows, i, j))
    && (forall j | |rows| <= j < |rows'| :: Live(rows'[j]))
  }

  lemma RowsKeepInLine(s: Net, s': Net)
    requires InLine(s) && RowsMoveOn(s.rows, s'.rows)
    requires |s.flights| == |s'.flights| && forall f | 0 <= f < |s.flights| :: s.flights[f].row == s'.flights[f].row
    requires forall j | 0 <= j < |s.rows| && Live(s.rows[j]) && !Live(s'.rows[j]) ::
      forall i | Before(s.rows, i, j) :: !Live(s.rows[i])
    ensures InLine(s')
  {
    forall i, j | Before(s'.rows, i, j) && !Live(s'.rows[j]) ensures !Live(s'.rows[i]) {
      assert Before(s.rows, i, j);
    }
  }

  lemma OnlyAttempt(c: Config, s: Net, f: nat)
    requires Configured(c) && c.maxAttempts == 1 && InLine(s) && Enabled(c, s, Book(f))
    ensures SettledStays(s.rows, Booked(c, s, f).rows) && InLine(Booked(c, s, f))
  {
    var s' := Booked(c, s, f);
    var p := s.flights[f].phase;
    MarksMean(p.answer, p.cancelled, s.flights[f].attempts + 1, c);
    RowsKeepInLine(s, s');
  }

  lemma LeaseKeepsInLine(s: Net, s': Net, picked: set<nat>, until: int)
    requires InLine(s) && s' == s.(rows := Leased(s.rows, picked, until))
    ensures InLine(s')
  {
    RowsKeepInLine(s, s');
  }

  lemma LaunchAndLeaseInLine(s: Net, s': Net, picked: set<nat>, until: int, launched: seq<Flight>)
    requires InLine(s) && AllReady(s, launched)
    requires s' == s.(rows := Leased(s.rows, picked, until), flights := s.flights + launched)
    ensures InLine(s')
  {
    var mid := s.(flights := s.flights + launched);
    LeaseKeepsInLine(mid, s', picked, until);
  }

  lemma {:induction false} ClaimKeepsInLine(c: Config, s: Net, picked: seq<nat>, lasts: seq<int>)
    requires Configured(c) && InLine(s) && Enabled(c, s, Claim(picked, lasts))
    ensures InLine(Act(c, s, Claim(picked, lasts)))
  {
    var s', launched := Act(c, s, Claim(picked, lasts)), Launched(c, s, picked, lasts);
    LaunchedIsReady(c, s, picked, lasts);
    LaunchAndLeaseInLine(s, s', Rows(picked), s.now + c.lease, launched);
  }

  lemma ActKeepsInLine(c: Config, s: Net, a: Action)
    requires Configured(c) && c.maxAttempts == 1 && InLine(s) && Enabled(c, s, a)
    ensures SettledStays(s.rows, Act(c, s, a).rows) && InLine(Act(c, s, a))
  {
    match a
    case Claim(picked, lasts) => ClaimKeepsInLine(c, s, picked, lasts);
    case Book(f) => OnlyAttempt(c, s, f);
    case _ => RowsKeepInLine(s, Act(c, s, a));
  }

  lemma {:induction false} RunKeepsInLine(c: Config, actions: seq<Action>, states: seq<Net>, i: nat)
    requires IsRun(c, actions, states) && c.maxAttempts == 1 && i < |states|
    ensures InLine(states[i])
  {
    if i > 0 {
      RunKeepsInLine(c, actions, states, i - 1);
      ActKeepsInLine(c, states[i - 1], actions[i - 1]);
    }
  }

  lemma SingleAttemptIsSafe(c: Config, paced: bool)
    requires Configured(c) && c.maxAttempts == 1
    ensures AlwaysPrefix(c, paced) && NeverRevived(c, paced)
  {
    forall s | Reachable(c, paced, s) ensures InLine(s) {
      var actions, states :| IsRun(c, actions, states) && states[|actions|] == s;
      RunKeepsInLine(c, actions, states, |actions|);
    }
    forall s, a | Reachable(c, paced, s) && Allowed(c, paced, s, a) ensures SettledStays(s.rows, Act(c, s, a).rows) {
      ActKeepsInLine(c, s, a);
    }
  }

  lemma MarksFitIsSafe(c: Config)
    requires Configured(c) && MarksFit(c)
    ensures AlwaysPrefix(c, true) && NeverRevived(c, true)
  {
    forall s | Reachable(c, true, s) ensures Leasing(c, s) && AllScheduled(c, s) {
      var actions, states :| IsPacedRun(c, actions, states) && states[|actions|] == s;
      MarksFitIsPunctual(c, actions, states);
      PunctualRunKeepsLeasing(c, actions, states, |actions|);
      PacedRunIsScheduled(c, actions, states, |actions|);
    }
    forall s, a | Reachable(c, true, s) && Allowed(c, true, s, a) ensures SettledStays(s.rows, Act(c, s, a).rows) {
      ScheduledIsPunctual(c, s, a);
      ActKeepsSettled(c, s, a);
    }
  }

  /**
   At the dispatcher's own pace, settled entries are always a prefix of their aggregate, and
   dead ones stay dead, exactly when the last delivery of a full batch has no outcome to
   record after its lease, or nothing is retried. Otherwise a delivery can record a failure
   for an entry that another dispatcher has dead-lettered meanwhile: that clears `dead_at`,
   and the entry is retried after its successor was delivered.
   */
  lemma SafeIffMarksFit(c: Config)
    requires Configured(c)
    ensures AlwaysPrefix(c, true) <==> MarksFit(c) || c.maxAttempts == 1
    ensures NeverRevived(c, true) <==> MarksFit(c) || c.maxAttempts == 1
  {
    if c.maxAttempts == 1 {
      SingleAttemptIsSafe(c, true);
    } else if MarksFit(c) {
      MarksFitIsSafe(c);
    } else {
      MarksFitIs(c);
      LongestPastLease(c);
      var s := LastOverdue(c, LastMark(c));
      RevivalBreaksBoth(c, true, s, c.batchSize - 1);
    }
  }

  lemma {:induction false} LongestPastLease(c: Config)
    requires Configured(c) && c.lease < RoundAt(c, c.batchSize - 1) + LastMark(c)
    ensures 1 <= c.longest
  {
    BeginsIs(c.batchSize - 1, c.workers, c.longest);
  }

  /** The defaults, with outcomes recorded up to 5 s after the start of a delivery, do not meet it. */
  lemma DefaultsRevive(c: Config)
    requires Configured(c) && c.batchSize == 50 && c.workers == 4 && c.longest == 10 && c.lease == 60
    requires c.booking == 5 && c.maxAttempts == 10
    ensures !AlwaysPrefix(c, true) && !NeverRevived(c, true)
  {
    RoundIsQuotient(49, 4);
    SafeIffMarksFit(c);
  }

  lemma SlowNumbers(c: Config)
    requires Configured(c) && c.batchSize == 50 && c.workers == 20 && c.longest == 25 && c.lease == 60
    requires c.booking == 5
    ensures MarksFit(c) && !Fits(c)
  {
    RoundIsQuotient(49, 20);
  }

  /** 20 workers and requests of up to 25 s do, although deliveries outlast their leases. */
  lemma SlowButSafe(c: Config)
    requires Configured(c) && c.batchSize == 50 && c.workers == 20 && c.longest == 25 && c.lease == 60
    requires c.booking == 5
    ensures AlwaysPrefix(c, true) && NeverRevived(c, true) && !NeverTwoRequests(c)
  {
    SlowNumbers(c);
    MarksFitIsSafe(c);
    ExclusiveIffFits(c);
  }

  /* ----- what becomes of timeouts ----- */

  /** In every run, an entry all of whose deliveries lasted the longest has no attempt counted. */
  ghost predicate TimeoutsUncounted(c: Config)
    requires Configured(c)
  {
    forall s, r: nat | Reachable(c, true, s) && OnlyLongest(c, s, r) :: s.rows[r].attempts == 0 && Live(s.rows[r])
  }

  ghost predicate OnlyLongest(c: Config, s: Net, r: nat) {
    r < |s.rows| && forall f | f in s.flights && f.row == r :: f.due == f.start + c.longest
  }

  /**
   Requests that time out are never counted, and so neither retried with backoff nor
   dead-lettered in the end, exactly when the timeout is longer than the bookkeeping deadline.
   */
  lemma {:induction false} TimeoutsCountIff(c: Config)
    requires Configured(c)
    ensures TimeoutsUncounted(c) <==> c.booking < c.longest
  {
    if c.booking < c.longest {
      forall s, r: nat | Reachable(c, true, s) && OnlyLongest(c, s, r)
        ensures s.rows[r].attempts == 0 && Live(s.rows[r])
      {
        var actions, states :| IsPacedRun(c, actions, states) && states[|actions|] == s;
        OutlastingIsUnrecorded(c, actions, states, |actions|);
      }
    } else {
      var s := TimeoutCounted(c);
      assert OnlyLongest(c, s, 0);
    }
  }

  lemma TimeoutCounted(c: Config) returns (s: Net)
    requires Configured(c) && c.longest <= c.booking
    ensures Reachable(c, true, s) && OnlyLongest(c, s, 0) && s.rows[0].attempts == 1
  {
    var s0 := Starts(c, true, Backlog(1));
    assert Eligible(s0.rows, 0, 0);
    var s1 := Claims(c, true, s0, 0, c.longest);
    var s2 := Requests(c, true, s1, 0);
    var s3 := Waits(c, true, s2, c.longest);
    s := Ends(c, true, s3, 0, NoAnswer);
  }

  lemma {:induction false} LoneOverdue(c: Config) returns (s: Net)
    requires Configured(c)
    ensures Overdue(c, false, s, 0)
  {
    var s0 := Starts(c, false, Backlog(1));
    assert Eligible(s0.rows, 0, 0);
    var s1 := Claims(c, false, s0, 0, c.lease + 1);
    var s2 := Waits(c, false, s1, c.lease + 1);
    s := Requests(c, false, s2, 0);
  }

  /** If a delivery may take any time, no lease is long enough: only the single attempt is safe. */
  lemma LateMarkRevives(c: Config)
    requires Configured(c)
    ensures AlwaysPrefix(c, false) <==> c.maxAttempts == 1
    ensures NeverRevived(c, false) <==> c.maxAttempts == 1
  {
    if c.maxAttempts == 1 {
      SingleAttemptIsSafe(c, false);
    } else {
      var s := LoneOverdue(c);
      RevivalBreaksBoth(c, false, s, 0);
    }
  }
}
